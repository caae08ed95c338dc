/**
 * The details step of the edit wizard: the same field updates and tag
 * fields as the create form, and the updated project assembled on submit.
 * With the container's load mapping this gives the load/save round trips.
 */
module EditPursuitForm {
  import opened Wrappers
  import opened Types
  import opened TagCodec
  import opened NewPursuitForm
  import opened EditPursuitContainer

  /**
   * `handleSubmit`'s record: nothing without a portfolio or without a
   * non-empty project id; otherwise the form state as a project under that
   * id, with the account and BU named as the form holds them.
   */
  function BuildUpdatedProject(portfolio: Option<Portfolio>, projectId: Option<string>, now: string,
                               d: DetailsData): (r: Option<Project>)
    ensures r.None? <==> portfolio.None? || projectId.None? || projectId.value == ""
    ensures r.Some? ==> r.value.id == projectId.value && r.value.name == d.pursuitName && r.value.status == d.status
    ensures r.Some? ==> r.value.account.id == d.accountId && r.value.account.name == d.accountName
    ensures r.Some? ==> r.value.account.buOwner == BuOwner(d.buOwnerId, d.buOwnerName)
    ensures r.Some? ==> r.value.account.portfolio == portfolio.value && HardCodedAccount(r.value.account)
    ensures r.Some? ==> CopiesFormFields(r.value, d)
    ensures r.Some? ==> r.value.closingProbability == Some("") && r.value.latamRevenue == Some("") &&
                        r.value.latamParticipationPercentage == Some("") && r.value.activeEmployees == Some("")
    ensures r.Some? ==> r.value.responsibleFromLatam == Some(Decode(d.responsibleFromLatam))
  {
    if portfolio.None? || projectId.None? || projectId.value == "" then None
    else Some(AssembleProject(projectId.value, d.accountName, d.buOwnerName, portfolio.value, now, d))
  }

  /** Loading an assembled project gives back the form state it came from, up to the names and the two unsaved fields. */
  lemma AssembledLoadsBack(id: string, accountName: string, buOwnerName: string, portfolio: Portfolio,
                           now: string, d: DetailsData)
    ensures ToDetails(AssembleProject(id, accountName, buOwnerName, portfolio, now, d)) ==
            d.(primarySalesBU := "", pursuitKind := "", accountName := accountName, buOwnerName := buOwnerName)
  {
    EncodeDecode(d.responsibleFromLatam);
  }

  /** Save then load: the saved form state comes back whole, except the two fields a project does not carry. */
  lemma SaveThenLoad(portfolio: Portfolio, projectId: string, now: string, d: DetailsData)
    requires projectId != ""
    ensures BuildUpdatedProject(Some(portfolio), Some(projectId), now, d).Some?
    ensures ToDetails(BuildUpdatedProject(Some(portfolio), Some(projectId), now, d).value) ==
            d.(primarySalesBU := "", pursuitKind := "")
  {
    AssembledLoadsBack(projectId, d.accountName, d.buOwnerName, portfolio, now, d);
  }

  /** Create then load: the form state comes back with the names the create form looked up. */
  lemma CreateThenLoad(portfolio: Portfolio, generatedId: string, now: string,
                       accounts: seq<Account>, buOwners: seq<BuOwner>, d: DetailsData)
    ensures BuildNewProject(Some(portfolio), generatedId, now, accounts, buOwners, d).Some?
    ensures ToDetails(BuildNewProject(Some(portfolio), generatedId, now, accounts, buOwners, d).value) ==
            d.(primarySalesBU := "", pursuitKind := "",
               accountName := SelectedAccountName(accounts, d.accountId), buOwnerName := SelectedBuOwnerName(buOwners, d.buOwnerId))
  {
    AssembledLoadsBack(generatedId, SelectedAccountName(accounts, d.accountId), SelectedBuOwnerName(buOwners, d.buOwnerId),
                       portfolio, now, d);
  }

  /** An optional string after a load and a save: a present value is kept, an absent one becomes "". */
  predicate Refilled(before: Option<string>, after: Option<string>) {
    after == if before.None? then Some("") else before
  }

  /** Load then save keeps the project's identity: id, name, status, account and BU ids and names. */
  lemma LoadThenSaveKeepsIdentity(p: Project, portfolio: Portfolio, now: string)
    requires p.id != ""
    ensures BuildUpdatedProject(Some(portfolio), Some(p.id), now, ToDetails(p)).Some?
    ensures var r := BuildUpdatedProject(Some(portfolio), Some(p.id), now, ToDetails(p)).value;
            r.id == p.id && r.name == p.name && r.status == p.status &&
            r.account.id == p.account.id && r.account.name == p.account.name &&
            r.account.buOwner == p.account.buOwner
  {
  }

  /** Load then save restores every optional string field the form carries, absent ones as "". */
  lemma LoadThenSaveRefills(p: Project, portfolio: Portfolio, now: string)
    requires p.id != ""
    ensures BuildUpdatedProject(Some(portfolio), Some(p.id), now, ToDetails(p)).Some?
    ensures var r := BuildUpdatedProject(Some(portfolio), Some(p.id), now, ToDetails(p)).value;
            Refilled(p.gmPercentage, r.gmPercentage) && Refilled(p.totalSOW, r.totalSOW) &&
            Refilled(p.contractType, r.contractType) && Refilled(p.usaPointOfContact, r.usaPointOfContact) &&
            Refilled(p.pursuitStartDate, r.pursuitStartDate) && Refilled(p.pursuitEndDate, r.pursuitEndDate) &&
            Refilled(p.additionalBackground, r.additionalBackground) &&
            Refilled(p.onboardingProcess, r.onboardingProcess) && Refilled(p.servicesScope, r.servicesScope) &&
            Refilled(p.levelOfAccount, r.levelOfAccount) && Refilled(p.fullTimeEmployees, r.fullTimeEmployees) &&
            Refilled(p.averageBillingRate, r.averageBillingRate) && Refilled(p.totalHours, r.totalHours)
  {
  }

  /**
   * Load then save keeps the responsibles list when no name holds ", " and
   * the list is not `[""]`; an absent list comes back empty.
   */
  lemma LoadThenSaveResponsibles(p: Project, portfolio: Portfolio, now: string)
    requires p.id != ""
    requires p.responsibleFromLatam.Some? ==>
               p.responsibleFromLatam.value != [""] &&
               forall i :: 0 <= i < |p.responsibleFromLatam.value| ==> Clean(p.responsibleFromLatam.value[i])
    ensures BuildUpdatedProject(Some(portfolio), Some(p.id), now, ToDetails(p)).Some?
    ensures BuildUpdatedProject(Some(portfolio), Some(p.id), now, ToDetails(p)).value.responsibleFromLatam ==
            Some(p.responsibleFromLatam.GetOr([]))
  {
    if p.responsibleFromLatam.Some? {
      DecodeEncode(p.responsibleFromLatam.value);
    }
  }

  /** Saving an edit blanks the four financial fields, so a project holding one of them does not survive a load and a save. */
  lemma LoadThenSaveBlanksFinancials(p: Project, portfolio: Portfolio, now: string)
    requires p.id != ""
    requires p.closingProbability != Some("")
    ensures BuildUpdatedProject(Some(portfolio), Some(p.id), now, ToDetails(p)) != Some(p)
  {
  }
}

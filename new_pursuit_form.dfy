/**
 * The details step of the create wizard: field updates, the two tag fields
 * edited through `TagInput` and stored with the ", " codec, and the project
 * record assembled on submit. The record literal is shared, field for field,
 * with the edit form's submit; only the id and the account and BU names
 * differ between the two.
 */
module NewPursuitForm {
  import opened Wrappers
  import opened Types
  import opened Lists
  import opened TagCodec
  import opened TagInputs

  // The account fields both forms hard-code.
  const AccountStatus := "Activo"
  const SalesforceLink := "https://salesforce.example.com/cuenta"
  const PcsLink := "https://pcs.example.com/cuenta"
  const DefaultStrategy := "Default strategy"

  /** The thirteen form fields the record literal copies as they are. */
  predicate CopiesFormFields(r: Project, d: DetailsData) {
    && r.fullTimeEmployees == Some(d.fullTimeEmployees) && r.averageBillingRate == Some(d.averageBillingRate)
    && r.totalHours == Some(d.totalHours) && r.gmPercentage == Some(d.gmPercentage)
    && r.totalSOW == Some(d.totalSOW) && r.contractType == Some(d.contractType)
    && r.usaPointOfContact == Some(d.usaPointOfContact) && r.pursuitStartDate == Some(d.pursuitStartDate)
    && r.pursuitEndDate == Some(d.pursuitEndDate) && r.additionalBackground == Some(d.additionalBackground)
    && r.onboardingProcess == Some(d.onboardingProcess) && r.servicesScope == Some(d.servicesScope)
    && r.levelOfAccount == Some(d.levelOfAccount)
  }

  /** The account fields both forms hard-code. */
  predicate HardCodedAccount(a: Account) {
    a.status == AccountStatus && a.salesforceLink == Some(SalesforceLink) &&
    a.pcsLink == Some(PcsLink) && a.strategy == Some(DefaultStrategy)
  }

  /**
   * The project record both forms build from the form state: `d`'s fields
   * copied, the four financial fields blank, `responsibleFromLatam` decoded,
   * `statusChangeDate` the submit time. Fields the literal leaves out
   * (`updatedAt`, the account's key people and dates) are absent.
   */
  function AssembleProject(id: string, accountName: string, buOwnerName: string, portfolio: Portfolio,
                           now: string, d: DetailsData): (r: Project)
    ensures r.id == id && r.name == d.pursuitName && r.status == d.status
    ensures r.account.id == d.accountId && r.account.name == accountName
    ensures r.account.buOwner == BuOwner(d.buOwnerId, buOwnerName) && r.account.portfolio == portfolio
    ensures r.account.keyPeople.None? && r.account.createdAt.None? && r.account.updatedAt.None?
    ensures HardCodedAccount(r.account)
    ensures CopiesFormFields(r, d)
    ensures r.closingProbability == Some("") && r.latamRevenue == Some("")
    ensures r.latamParticipationPercentage == Some("") && r.activeEmployees == Some("")
    ensures r.statusChangeDate == Some(now) && r.updatedAt.None?
    ensures r.responsibleFromLatam == Some(Decode(d.responsibleFromLatam))
    ensures r.responsibleFromLatam == Some([]) <==> d.responsibleFromLatam == ""
  {
    Project(
      id := id,
      account := Account(
        id := d.accountId,
        name := accountName,
        buOwner := BuOwner(d.buOwnerId, buOwnerName),
        portfolio := portfolio,
        status := AccountStatus,
        keyPeople := None,
        salesforceLink := Some(SalesforceLink),
        pcsLink := Some(PcsLink),
        strategy := Some(DefaultStrategy),
        createdAt := None,
        updatedAt := None),
      name := d.pursuitName,
      fullTimeEmployees := Some(d.fullTimeEmployees),
      averageBillingRate := Some(d.averageBillingRate),
      totalHours := Some(d.totalHours),
      closingProbability := Some(""),
      latamRevenue := Some(""),
      latamParticipationPercentage := Some(""),
      activeEmployees := Some(""),
      gmPercentage := Some(d.gmPercentage),
      totalSOW := Some(d.totalSOW),
      contractType := Some(d.contractType),
      usaPointOfContact := Some(d.usaPointOfContact),
      pursuitStartDate := Some(d.pursuitStartDate),
      pursuitEndDate := Some(d.pursuitEndDate),
      statusChangeDate := Some(now),
      responsibleFromLatam := Some(Decode(d.responsibleFromLatam)),
      status := d.status,
      additionalBackground := Some(d.additionalBackground),
      onboardingProcess := Some(d.onboardingProcess),
      servicesScope := Some(d.servicesScope),
      levelOfAccount := Some(d.levelOfAccount),
      updatedAt := None)
  }

  function AccountKey(a: Account): string {
    a.id
  }

  function BuOwnerKey(b: BuOwner): string {
    b.id
  }

  /** `accounts[i]` is the first loaded account with id `id`. */
  predicate FirstAccountWith(accounts: seq<Account>, id: string, i: int) {
    0 <= i < |accounts| && accounts[i].id == id && forall j :: 0 <= j < i ==> accounts[j].id != id
  }

  /** `buOwners[i]` is the first loaded BU owner with id `id`. */
  predicate FirstBuOwnerWith(buOwners: seq<BuOwner>, id: string, i: int) {
    0 <= i < |buOwners| && buOwners[i].id == id && forall j :: 0 <= j < i ==> buOwners[j].id != id
  }

  /** The selected account's name, or "" when the id is not among the loaded accounts. */
  function SelectedAccountName(accounts: seq<Account>, id: string): (name: string)
    ensures (forall i :: 0 <= i < |accounts| ==> accounts[i].id != id) ==> name == ""
    ensures forall i :: FirstAccountWith(accounts, id, i) ==> name == accounts[i].name
  {
    match FindFirst(accounts, AccountKey, id)
    case Some(a) => a.name
    case None => ""
  }

  /** The selected BU owner's name, or "" when the id is not among the loaded owners. */
  function SelectedBuOwnerName(buOwners: seq<BuOwner>, id: string): (name: string)
    ensures (forall i :: 0 <= i < |buOwners| ==> buOwners[i].id != id) ==> name == ""
    ensures forall i :: FirstBuOwnerWith(buOwners, id, i) ==> name == buOwners[i].name
  {
    match FindFirst(buOwners, BuOwnerKey, id)
    case Some(b) => b.name
    case None => ""
  }

  /**
   * `handleSubmit`'s record: nothing without a logged-in portfolio; otherwise
   * a project under the fresh id, with the account and BU names looked up
   * in the loaded lists (the first entry with the selected id wins).
   */
  function BuildNewProject(portfolio: Option<Portfolio>, generatedId: string, now: string,
                           accounts: seq<Account>, buOwners: seq<BuOwner>, d: DetailsData): (r: Option<Project>)
    ensures r.None? <==> portfolio.None?
    ensures r.Some? ==> r.value.id == generatedId && r.value.account.portfolio == portfolio.value && HardCodedAccount(r.value.account)
    ensures r.Some? ==> r.value.account.id == d.accountId && r.value.account.buOwner.id == d.buOwnerId
    ensures r.Some? ==> r.value.name == d.pursuitName && r.value.status == d.status && CopiesFormFields(r.value, d)
    ensures r.Some? && (forall i :: 0 <= i < |accounts| ==> accounts[i].id != d.accountId) ==>
              r.value.account.name == ""
    ensures r.Some? ==> forall i :: FirstAccountWith(accounts, d.accountId, i) ==>
              r.value.account.name == accounts[i].name
    ensures r.Some? && (forall i :: 0 <= i < |buOwners| ==> buOwners[i].id != d.buOwnerId) ==>
              r.value.account.buOwner.name == ""
    ensures r.Some? ==> forall i :: FirstBuOwnerWith(buOwners, d.buOwnerId, i) ==>
              r.value.account.buOwner.name == buOwners[i].name
  {
    match portfolio
    case None => None
    case Some(pf) =>
      Some(AssembleProject(generatedId, SelectedAccountName(accounts, d.accountId), SelectedBuOwnerName(buOwners, d.buOwnerId), pf, now, d))
  }

  // The two tag fields: `TagInput` reads `field`'s decoded list and writes back through `setTags`.

  /** The `tags` prop: the field's stored string, decoded. */
  function FieldTags(d: DetailsData, field: DetailsField): seq<string> {
    Decode(FieldValue(d, field))
  }

  /** The `setTags` callback: `handleChange(field, tags.join(", "))`. */
  function SetFieldTags(d: DetailsData, field: DetailsField, tags: seq<string>): (r: DetailsData)
    ensures FieldValue(r, field) == Encode(tags)
    ensures forall g :: g != field ==> FieldValue(r, g) == FieldValue(d, g)
  {
    HandleChange(d, field, Encode(tags))
  }

  /** Writing back the list the widget was given leaves the form state as it was. */
  lemma WriteBackUnchanged(d: DetailsData, field: DetailsField)
    ensures SetFieldTags(d, field, FieldTags(d, field)) == d
  {
    EncodeDecode(FieldValue(d, field));
    HandleChangeSameValue(d, field);
  }

  /**
   * A tag added through the widget is read back after the existing tags,
   * which are unchanged, provided it is non-empty and holds no ", ".
   */
  lemma AddedTagReadBack(d: DetailsData, field: DetailsField, t: string)
    requires t != "" && Clean(t)
    ensures FieldTags(SetFieldTags(d, field, AddTag(FieldTags(d, field), t)), field) == FieldTags(d, field) + [t]
  {
    var tags := FieldTags(d, field);
    DecodedTagsClean(FieldValue(d, field));
    var added := tags + [t];
    assert forall i :: 0 <= i < |added| ==> Clean(added[i]) by {
      forall i | 0 <= i < |added|
        ensures Clean(added[i])
      {
        if i < |tags| {
          assert added[i] == tags[i];
        }
      }
    }
    assert added != [""] by {
      if |added| == 1 {
        assert added[0] == t;
      }
    }
    DecodeEncode(added);
  }

  /** Removing chip `i` through the widget is read back as that removal, unless only an empty tag is left. */
  lemma RemovedTagReadBack(d: DetailsData, field: DetailsField, i: nat)
    requires Removed(FieldTags(d, field), i) != [""]
    ensures FieldTags(SetFieldTags(d, field, Removed(FieldTags(d, field), i)), field) == Removed(FieldTags(d, field), i)
  {
    var tags := FieldTags(d, field);
    DecodedTagsClean(FieldValue(d, field));
    var rest := Removed(tags, i);
    assert forall k :: 0 <= k < |rest| ==> Clean(rest[k]) by {
      forall k | 0 <= k < |rest|
        ensures Clean(rest[k])
      {
        if i < |tags| {
          if k < i {
            assert rest[k] == tags[k];
          } else {
            assert rest[k] == tags[k + 1];
          }
        }
      }
    }
    DecodeEncode(rest);
  }

  /** Typing "a, b" and pressing Enter stores one chip that reads back as two. */
  lemma TypedSeparatorSplitsChip(d: DetailsData, field: DetailsField)
    requires FieldValue(d, field) == ""
    ensures FieldTags(SetFieldTags(d, field, AddTag(FieldTags(d, field), "a, b")), field) == ["a", "b"]
  {
    RoundTripLosses();
    assert AddTag(FieldTags(d, field), "a, b") == ["a, b"];
  }
}

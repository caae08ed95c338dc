/**
 * The records the core exchanges: projects ("pursuits"), accounts and the
 * flat form state `DetailsData`, plus the status strings of the project
 * and dimension status types. Optional TypeScript members (`x?: T`) are
 * `Option<T>`.
 */
module Types {
  import opened Wrappers

  // Project statuses (the `ProjectStatus` enum's string values).
  const Open := "Open"
  const Preanalysis := "Preanalysis"
  const EngineeringReview := "Engineering Review"
  const InValidation := "In Validation"
  const Cancelled := "Cancelled"
  const Execution := "Execution"

  // Dimension statuses.
  const Good := "Good"
  const Warning := "Warning"
  const Bad := "Bad"
  const NotDefined := "Not Defined"

  datatype BuOwner = BuOwner(id: string, name: string)

  datatype Portfolio = Portfolio(id: string, name: string)

  datatype Account = Account(
    id: string,
    name: string,
    buOwner: BuOwner,
    portfolio: Portfolio,
    status: string,
    keyPeople: Option<seq<string>>,
    salesforceLink: Option<string>,
    pcsLink: Option<string>,
    strategy: Option<string>,
    createdAt: Option<string>,
    updatedAt: Option<string>)

  datatype Project = Project(
    id: string,
    account: Account,
    name: string,
    fullTimeEmployees: Option<string>,
    averageBillingRate: Option<string>,
    totalHours: Option<string>,
    closingProbability: Option<string>,
    latamRevenue: Option<string>,
    latamParticipationPercentage: Option<string>,
    activeEmployees: Option<string>,
    gmPercentage: Option<string>,
    totalSOW: Option<string>,
    contractType: Option<string>,
    usaPointOfContact: Option<string>,
    pursuitStartDate: Option<string>,
    pursuitEndDate: Option<string>,
    statusChangeDate: Option<string>,
    responsibleFromLatam: Option<seq<string>>,
    status: string,
    additionalBackground: Option<string>,
    onboardingProcess: Option<string>,
    servicesScope: Option<string>,
    levelOfAccount: Option<string>,
    updatedAt: Option<string>)

  /** The form state shared by the create and edit wizards; every field is a string. */
  datatype DetailsData = DetailsData(
    pursuitName: string,
    gmPercentage: string,
    totalSOW: string,
    primarySalesBU: string,
    accountId: string,
    accountName: string,
    buOwnerId: string,
    buOwnerName: string,
    contractType: string,
    usaPointOfContact: string,
    pursuitStartDate: string,
    pursuitEndDate: string,
    additionalBackground: string,
    onboardingProcess: string,
    servicesScope: string,
    levelOfAccount: string,
    fullTimeEmployees: string,
    averageBillingRate: string,
    totalHours: string,
    responsibleFromLatam: string,
    pursuitKind: string,
    status: string)

  /** `keyof DetailsData`. */
  datatype DetailsField =
    | PursuitName | GmPercentage | TotalSOW | PrimarySalesBU | AccountId | AccountName
    | BuOwnerId | BuOwnerName | ContractType | UsaPointOfContact | PursuitStartDate
    | PursuitEndDate | AdditionalBackground | OnboardingProcess | ServicesScope
    | LevelOfAccount | FullTimeEmployees | AverageBillingRate | TotalHours
    | ResponsibleFromLatam | PursuitKind | Status

  /** `d[field]`. */
  function FieldValue(d: DetailsData, field: DetailsField): string {
    match field
    case PursuitName => d.pursuitName
    case GmPercentage => d.gmPercentage
    case TotalSOW => d.totalSOW
    case PrimarySalesBU => d.primarySalesBU
    case AccountId => d.accountId
    case AccountName => d.accountName
    case BuOwnerId => d.buOwnerId
    case BuOwnerName => d.buOwnerName
    case ContractType => d.contractType
    case UsaPointOfContact => d.usaPointOfContact
    case PursuitStartDate => d.pursuitStartDate
    case PursuitEndDate => d.pursuitEndDate
    case AdditionalBackground => d.additionalBackground
    case OnboardingProcess => d.onboardingProcess
    case ServicesScope => d.servicesScope
    case LevelOfAccount => d.levelOfAccount
    case FullTimeEmployees => d.fullTimeEmployees
    case AverageBillingRate => d.averageBillingRate
    case TotalHours => d.totalHours
    case ResponsibleFromLatam => d.responsibleFromLatam
    case PursuitKind => d.pursuitKind
    case Status => d.status
  }

  /**
   * The forms' `handleChange(field, value)`: `{ ...detailsData, [field]: value }`.
   * Exactly `field` takes the new value; every other field keeps its value.
   */
  function HandleChange(d: DetailsData, field: DetailsField, value: string): (r: DetailsData)
    ensures FieldValue(r, field) == value
    ensures forall g :: g != field ==> FieldValue(r, g) == FieldValue(d, g)
  {
    match field
    case PursuitName => d.(pursuitName := value)
    case GmPercentage => d.(gmPercentage := value)
    case TotalSOW => d.(totalSOW := value)
    case PrimarySalesBU => d.(primarySalesBU := value)
    case AccountId => d.(accountId := value)
    case AccountName => d.(accountName := value)
    case BuOwnerId => d.(buOwnerId := value)
    case BuOwnerName => d.(buOwnerName := value)
    case ContractType => d.(contractType := value)
    case UsaPointOfContact => d.(usaPointOfContact := value)
    case PursuitStartDate => d.(pursuitStartDate := value)
    case PursuitEndDate => d.(pursuitEndDate := value)
    case AdditionalBackground => d.(additionalBackground := value)
    case OnboardingProcess => d.(onboardingProcess := value)
    case ServicesScope => d.(servicesScope := value)
    case LevelOfAccount => d.(levelOfAccount := value)
    case FullTimeEmployees => d.(fullTimeEmployees := value)
    case AverageBillingRate => d.(averageBillingRate := value)
    case TotalHours => d.(totalHours := value)
    case ResponsibleFromLatam => d.(responsibleFromLatam := value)
    case PursuitKind => d.(pursuitKind := value)
    case Status => d.(status := value)
  }

  /** Two form states that agree on every field are the same state. */
  lemma DetailsExtensional(d: DetailsData, e: DetailsData)
    requires forall g :: FieldValue(d, g) == FieldValue(e, g)
    ensures d == e
  {
    assert FieldValue(d, PursuitName) == FieldValue(e, PursuitName);
    assert FieldValue(d, GmPercentage) == FieldValue(e, GmPercentage);
    assert FieldValue(d, TotalSOW) == FieldValue(e, TotalSOW);
    assert FieldValue(d, PrimarySalesBU) == FieldValue(e, PrimarySalesBU);
    assert FieldValue(d, AccountId) == FieldValue(e, AccountId);
    assert FieldValue(d, AccountName) == FieldValue(e, AccountName);
    assert FieldValue(d, BuOwnerId) == FieldValue(e, BuOwnerId);
    assert FieldValue(d, BuOwnerName) == FieldValue(e, BuOwnerName);
    assert FieldValue(d, ContractType) == FieldValue(e, ContractType);
    assert FieldValue(d, UsaPointOfContact) == FieldValue(e, UsaPointOfContact);
    assert FieldValue(d, PursuitStartDate) == FieldValue(e, PursuitStartDate);
    assert FieldValue(d, PursuitEndDate) == FieldValue(e, PursuitEndDate);
    assert FieldValue(d, AdditionalBackground) == FieldValue(e, AdditionalBackground);
    assert FieldValue(d, OnboardingProcess) == FieldValue(e, OnboardingProcess);
    assert FieldValue(d, ServicesScope) == FieldValue(e, ServicesScope);
    assert FieldValue(d, LevelOfAccount) == FieldValue(e, LevelOfAccount);
    assert FieldValue(d, FullTimeEmployees) == FieldValue(e, FullTimeEmployees);
    assert FieldValue(d, AverageBillingRate) == FieldValue(e, AverageBillingRate);
    assert FieldValue(d, TotalHours) == FieldValue(e, TotalHours);
    assert FieldValue(d, ResponsibleFromLatam) == FieldValue(e, ResponsibleFromLatam);
    assert FieldValue(d, PursuitKind) == FieldValue(e, PursuitKind);
    assert FieldValue(d, Status) == FieldValue(e, Status);
  }

  /** Setting a field to the value it already has gives back the same state. */
  lemma HandleChangeSameValue(d: DetailsData, field: DetailsField)
    ensures HandleChange(d, field, FieldValue(d, field)) == d
  {
    DetailsExtensional(HandleChange(d, field, FieldValue(d, field)), d);
  }

  /** The last change to a field wins; earlier changes to it leave no trace. */
  lemma HandleChangeOverwrites(d: DetailsData, field: DetailsField, v: string, w: string)
    ensures HandleChange(HandleChange(d, field, v), field, w) == HandleChange(d, field, w)
  {
    DetailsExtensional(HandleChange(HandleChange(d, field, v), field, w), HandleChange(d, field, w));
  }
}

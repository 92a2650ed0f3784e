/** The record shapes and constant lists of the rent ledger (types.ts). */
module Types {
  import opened Wrappers

  datatype Role = Landlord | Tenant

  datatype PaymentMethod = Cash | Bank | MFS

  /** An account; optional fields are `Option`s (absent means `undefined`). */
  datatype User = User(
    id: string,
    fullName: string,
    propertyName: Option<string>,
    role: Role,
    mobileNumber: string,
    password: Option<string>,
    profilePicture: Option<string>,
    propertyOwnerId: Option<string>)

  /** One payment; `rentAmount` is an integer where the program keeps a JavaScript number. */
  datatype RentRecord = RentRecord(
    id: string,
    userId: string,
    tenantName: string,
    flatNumber: string,
    mobileNumber: string,
    rentMonth: string,
    rentAmount: int,
    paymentDate: string,
    receiptNumber: string,
    paymentMethod: PaymentMethod,
    bankName: Option<string>,
    accountNumber: Option<string>,
    branch: Option<string>,
    mfsNumber: Option<string>)

  /** The `Month` string union. */
  predicate IsMonth(s: string) {
    s == "January" || s == "February" || s == "March" || s == "April" ||
    s == "May" || s == "June" || s == "July" || s == "August" ||
    s == "September" || s == "October" || s == "November" || s == "December"
  }

  const MONTHS: seq<string> := [
    "January", "February", "March", "April",
    "May", "June", "July", "August",
    "September", "October", "November", "December"]

  const BANKS: seq<string> := [
    "Sonali Bank Plc",
    "IFIC Bank Plc",
    "Rupali Bank Plc",
    "Modhumoti bank Plc"]

  const BRANCHES: seq<string> := ["Madaripur", "Shibchar", "Panchar"]

  /** MONTHS lists the twelve months in calendar order, each a member of the union, and the union has no others. */
  lemma MonthsAreTheMonthUnion()
    ensures MONTHS == ["January", "February", "March", "April", "May", "June",
                       "July", "August", "September", "October", "November", "December"]
    ensures |MONTHS| == 12
    ensures forall i, j :: 0 <= i < j < |MONTHS| ==> MONTHS[i] != MONTHS[j]
    ensures forall i :: 0 <= i < |MONTHS| ==> IsMonth(MONTHS[i])
    ensures forall s :: IsMonth(s) <==> s in MONTHS
    ensures MONTHS[0] == "January" && MONTHS[11] == "December"
  {
  }

  /** The month the rent form preselects: `MONTHS[new Date().getMonth()]`, the month index given. */
  function DefaultRentMonth(monthIndex: nat): (m: string)
    requires monthIndex < 12
    ensures IsMonth(m)
  {
    MONTHS[monthIndex]
  }

  lemma BankAndBranchLists()
    ensures |BANKS| == 4 && |BRANCHES| == 3
    ensures forall i, j :: 0 <= i < j < |BANKS| ==> BANKS[i] != BANKS[j]
    ensures forall i, j :: 0 <= i < j < |BRANCHES| ==> BRANCHES[i] != BRANCHES[j]
  {
  }
}

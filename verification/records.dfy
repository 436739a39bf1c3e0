/** The records the expense client keeps in memory (`appData`) and writes to
    JSON files, with the constants the client fixes. */
module Records {

  /** Tenure sentinel an employee gets when no hire date is entered: full subsidy. */
  const FULL_YEAR: string := "滿一年"

  /** Value of `apply` that opts an employee into the subsidy. */
  const APPLY_YES: string := "y"

  /** Default per-person subsidy amount of a new trip. */
  const DEFAULT_SUBSIDY: real := 10000.0

  /** Absolute per-employee ceiling applied on top of `subsidyAmount × ratio`. */
  const SUBSIDY_CEILING: real := 10000.0

  /** The five expense accounts, in the order the reimbursement sheet lists them:
      pass-through receipt, lodging, transport, meals, other. */
  const CATEGORIES: seq<string> := ["代收轉付收據", "住宿費", "交通費", "餐費", "其他費用"]

  /** Trip settings. Dates are the text of a date input (`''` when not set). */
  datatype TripInfo = TripInfo(
    location: string,
    startDate: string,
    endDate: string,
    subsidyAmount: real,
    paymentMethod: string,
    subsidyMethod: string)

  /** The settings of a fresh client. */
  const DEFAULT_TRIP_INFO: TripInfo :=
    TripInfo("", "", "", DEFAULT_SUBSIDY, "統一匯款", "實支實付")

  /** A traveller. `apply` is `'y'` or `'n'`; `startDate` is a hire date or `FULL_YEAR`. */
  datatype Employee = Employee(id: int, name: string, apply: string, startDate: string)

  /** One receipt. `ntd` is the amount in New Taiwan dollars, `amount × rate` at entry.
      `photo` is the compressed image as a data URL (`''` when none is held in memory);
      `hasPhoto` says the image lives in the photo store under this `id`. */
  datatype Expense = Expense(
    id: int,
    category: string,
    date: string,
    description: string,
    currency: string,
    amount: real,
    rate: real,
    ntd: real,
    photo: string,
    hasPhoto: bool,
    timestamp: string)

  /** The whole client state. `tripCode` is `''` while the trip has never been uploaded. */
  datatype AppData = AppData(
    tripCode: string,
    tripInfo: TripInfo,
    employees: seq<Employee>,
    expenses: seq<Expense>)

  /** The state of a client that has nothing saved. */
  const INITIAL: AppData := AppData("", DEFAULT_TRIP_INFO, [], [])

  /** A member's expense file (`type: 'member-expenses'`) as the trip leader holds it after import. */
  datatype MemberFile = MemberFile(
    kind: string,
    tripCode: string,
    memberName: string,
    tripId: string,
    expenses: seq<Expense>,
    exportDate: string)

  /** The `type` tag of a member's expense file. */
  const MEMBER_EXPENSES: string := "member-expenses"

  /** The `type` tag of a trip-configuration file. */
  const TRIP_CONFIG: string := "trip-config"
}

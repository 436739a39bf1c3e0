/** The local expense and employee lists: add, edit by id, delete by id, and
    the trip settings form (app.js:167-298). */
module Store {
  import opened Common
  import opened Records

  /** The fields of the expense form, already parsed. */
  datatype ExpenseForm = ExpenseForm(
    category: string,
    date: string,
    description: string,
    currency: string,
    amount: real,
    rate: real)

  /** Whether an expense still has a receipt somewhere: the image in memory, or
      the marker that it lives in the photo store. This is the test the upload
      applies before fetching an image (app.js:1244). */
  predicate HasAnyPhoto(e: Expense)
  {
    e.photo != "" || e.hasPhoto
  }

  /** The record `saveExpense` builds from the form. Its NTD amount is the
      foreign amount times the exchange rate; it carries no photo-store marker. */
  function NewExpense(id: int, f: ExpenseForm, photo: string, timestamp: string): (r: Expense)
    ensures r.id == id && r.ntd == f.amount * f.rate
    ensures r.category == f.category && r.date == f.date && r.description == f.description
    ensures r.currency == f.currency && r.amount == f.amount && r.rate == f.rate
    ensures r.photo == photo && !r.hasPhoto && r.timestamp == timestamp
  {
    Expense(id, f.category, f.date, f.description, f.currency, f.amount, f.rate,
            f.amount * f.rate, photo, false, timestamp)
  }

  /** `findIndex(e => e.id === id)`: the first position holding `id`, or -1. */
  function FindIndex(s: seq<Expense>, id: int): (i: int)
    ensures -1 <= i < |s|
    ensures i >= 0 ==> s[i].id == id && forall j :: 0 <= j < i ==> s[j].id != id
    ensures i == -1 ==> forall j :: 0 <= j < |s| ==> s[j].id != id
  {
    if |s| == 0 then -1
    else if s[0].id == id then 0
    else
      var k := FindIndex(s[1..], id);
      if k == -1 then -1 else k + 1
  }

  /** Replaces position `i` when it exists; leaves the list alone for -1. */
  function ReplaceAt(s: seq<Expense>, i: int, e: Expense): (r: seq<Expense>)
    requires -1 <= i < |s|
    ensures |r| == |s|
    ensures i >= 0 ==> r[i] == e
    ensures forall j :: 0 <= j < |s| && j != i ==> r[j] == s[j]
  {
    if i < 0 then s else s[i := e]
  }

  /** `saveExpense` exactly as written. `editId` is the parsed edit marker of the
      form, 0 when absent (the source treats a falsy id as "add"); `now` stands
      for `Date.now()`. An edit keeps the photo-store marker only when the old
      record had `hasPhoto` set. */
  function SaveExpenseAsWritten(data: AppData, editId: int, f: ExpenseForm, photo: string, now: int, timestamp: string): (r: AppData)
    ensures r.tripCode == data.tripCode && r.tripInfo == data.tripInfo && r.employees == data.employees
    ensures editId == 0 ==> r.expenses == data.expenses + [NewExpense(now, f, photo, timestamp)]
    ensures editId != 0 ==>
              var i := FindIndex(data.expenses, editId);
              && |r.expenses| == |data.expenses|
              && (forall j :: 0 <= j < |data.expenses| && j != i ==> r.expenses[j] == data.expenses[j])
              && (i >= 0 ==> r.expenses[i].id == editId && r.expenses[i].ntd == f.amount * f.rate
                             && r.expenses[i].photo == photo && r.expenses[i].timestamp == timestamp
                             && r.expenses[i].category == f.category && r.expenses[i].date == f.date
                             && r.expenses[i].description == f.description && r.expenses[i].currency == f.currency
                             && r.expenses[i].amount == f.amount && r.expenses[i].rate == f.rate
                             && (HasAnyPhoto(r.expenses[i]) <==> photo != "" || data.expenses[i].hasPhoto)
                             && (r.expenses[i].hasPhoto <==> photo == "" && data.expenses[i].hasPhoto))
  {
    if editId == 0 then
      data.(expenses := data.expenses + [NewExpense(now, f, photo, timestamp)])
    else
      var i := FindIndex(data.expenses, editId);
      var e := NewExpense(editId, f, photo, timestamp);
      if i >= 0 then
        var kept := e.(hasPhoto := photo == "" && data.expenses[i].hasPhoto);
        data.(expenses := ReplaceAt(data.expenses, i, kept))
      else
        data
  }

  /** An expense added in this session holds its image in `photo` and has no
      `hasPhoto` marker. Editing it without attaching a new image loses the
      receipt: the edited record neither holds the image nor points at the store. */
  lemma EditDropsSessionPhoto()
    ensures var f := ExpenseForm("餐費", "2025-03-01", "dinner", "JPY", 1000.0, 0.21);
            var added := SaveExpenseAsWritten(INITIAL, 0, f, "data:image/jpeg;base64,AAAA", 5, "t0");
            var edited := SaveExpenseAsWritten(added, 5, f, "", 6, "t1");
            HasAnyPhoto(added.expenses[0]) && !HasAnyPhoto(edited.expenses[0])
  {
    var f := ExpenseForm("餐費", "2025-03-01", "dinner", "JPY", 1000.0, 0.21);
    var added := SaveExpenseAsWritten(INITIAL, 0, f, "data:image/jpeg;base64,AAAA", 5, "t0");
    assert added.expenses == [NewExpense(5, f, "data:image/jpeg;base64,AAAA", "t0")];
    assert FindIndex(added.expenses, 5) == 0;
  }

  /** `saveExpense` with the receipt kept across an edit: when no new image is
      given, the edited record points at the photo store whenever the old
      record had a receipt in either form. The image was written to the store
      under the same id when it was first attached. */
  function SaveExpense(data: AppData, editId: int, f: ExpenseForm, photo: string, now: int, timestamp: string): (r: AppData)
    ensures r.tripCode == data.tripCode && r.tripInfo == data.tripInfo && r.employees == data.employees
    ensures editId == 0 ==> r.expenses == data.expenses + [NewExpense(now, f, photo, timestamp)]
    ensures editId != 0 ==>
              var i := FindIndex(data.expenses, editId);
              && |r.expenses| == |data.expenses|
              && (forall j :: 0 <= j < |data.expenses| && j != i ==> r.expenses[j] == data.expenses[j])
              && (i >= 0 ==> r.expenses[i].id == editId && r.expenses[i].ntd == f.amount * f.rate
                             && r.expenses[i].photo == photo && r.expenses[i].timestamp == timestamp
                             && r.expenses[i].category == f.category && r.expenses[i].date == f.date
                             && r.expenses[i].description == f.description && r.expenses[i].currency == f.currency
                             && r.expenses[i].amount == f.amount && r.expenses[i].rate == f.rate
                             && (HasAnyPhoto(r.expenses[i]) <==> photo != "" || HasAnyPhoto(data.expenses[i]))
                             && (r.expenses[i].hasPhoto <==> photo == "" && HasAnyPhoto(data.expenses[i])))
    ensures editId != 0 && (forall j :: 0 <= j < |data.expenses| ==> data.expenses[j].id != editId) ==> r == data
  {
    if editId == 0 then
      data.(expenses := data.expenses + [NewExpense(now, f, photo, timestamp)])
    else
      var i := FindIndex(data.expenses, editId);
      var e := NewExpense(editId, f, photo, timestamp);
      if i >= 0 then
        var kept := e.(hasPhoto := photo == "" && HasAnyPhoto(data.expenses[i]));
        data.(expenses := ReplaceAt(data.expenses, i, kept))
      else
        data
  }

  /** Every id occurs at most once. */
  ghost predicate UniqueIds(s: seq<Expense>)
  {
    forall i, j :: 0 <= i < j < |s| ==> s[i].id != s[j].id
  }

  /** With distinct ids an edit touches only the record carrying that id and
      keeps the ids distinct; an add with a fresh id keeps them distinct too. */
  lemma SaveExpenseKeepsIdsUnique(data: AppData, editId: int, f: ExpenseForm, photo: string, now: int, timestamp: string)
    requires UniqueIds(data.expenses)
    requires editId == 0 ==> forall j :: 0 <= j < |data.expenses| ==> data.expenses[j].id != now
    ensures var r := SaveExpense(data, editId, f, photo, now, timestamp);
            && UniqueIds(r.expenses)
            && (editId != 0 ==> forall j :: 0 <= j < |data.expenses| && data.expenses[j].id != editId ==>
                                  r.expenses[j] == data.expenses[j])
  {
    var r := SaveExpense(data, editId, f, photo, now, timestamp);
    if editId != 0 {
      var i := FindIndex(data.expenses, editId);
      forall a, b | 0 <= a < b < |r.expenses|
        ensures r.expenses[a].id != r.expenses[b].id
      {
        if a == i || b == i {
          assert r.expenses[i].id == data.expenses[i].id;
        }
      }
    }
  }

  /** `deleteExpense`: after the user confirms, every record with `id` goes and
      the others stay in order; without confirmation nothing changes. */
  function DeleteExpense(data: AppData, id: int, confirmed: bool): (r: AppData)
    ensures !confirmed ==> r == data
    ensures r.tripCode == data.tripCode && r.tripInfo == data.tripInfo && r.employees == data.employees
    ensures confirmed ==>
              && (forall i :: 0 <= i < |r.expenses| ==> r.expenses[i].id != id && r.expenses[i] in data.expenses)
              && (forall i :: 0 <= i < |data.expenses| && data.expenses[i].id != id ==> data.expenses[i] in r.expenses)
              && Subseq(r.expenses, data.expenses)
    ensures (forall i :: 0 <= i < |data.expenses| ==> data.expenses[i].id != id) ==> r == data
  {
    if confirmed then data.(expenses := Filter(data.expenses, (e: Expense) => e.id != id)) else data
  }

  /** `addEmployee`: appends one employee; an empty hire date becomes the tenure sentinel. */
  function AddEmployee(data: AppData, now: int, name: string, apply: string, startInput: string): (r: AppData)
    ensures r.tripCode == data.tripCode && r.tripInfo == data.tripInfo && r.expenses == data.expenses
    ensures |r.employees| == |data.employees| + 1 && r.employees[..|data.employees|] == data.employees
    ensures var e := r.employees[|data.employees|];
            && e.id == now && e.name == name && e.apply == apply
            && (startInput == "" ==> e.startDate == FULL_YEAR)
            && (startInput != "" ==> e.startDate == startInput)
  {
    var startDate := if startInput == "" then FULL_YEAR else startInput;
    data.(employees := data.employees + [Employee(now, name, apply, startDate)])
  }

  /** `deleteEmployee`: after confirmation every employee with `id` goes, the
      others stay in order. */
  function DeleteEmployee(data: AppData, id: int, confirmed: bool): (r: AppData)
    ensures !confirmed ==> r == data
    ensures r.tripCode == data.tripCode && r.tripInfo == data.tripInfo && r.expenses == data.expenses
    ensures confirmed ==>
              && (forall i :: 0 <= i < |r.employees| ==> r.employees[i].id != id && r.employees[i] in data.employees)
              && (forall i :: 0 <= i < |data.employees| && data.employees[i].id != id ==> data.employees[i] in r.employees)
              && Subseq(r.employees, data.employees)
  {
    if confirmed then data.(employees := Filter(data.employees, (e: Employee) => e.id != id)) else data
  }

  /** The trip settings form. `subsidyInput` is the parsed subsidy field, `None`
      when it does not parse as a number (an empty field, for one). */
  datatype SettingsForm = SettingsForm(
    location: string,
    startDate: string,
    endDate: string,
    subsidyInput: Option<real>,
    paymentMethod: string,
    subsidyMethod: string)

  /** `saveTripSettings`: replaces the trip settings; a subsidy that is missing or
      zero falls back to 10000 (`parseFloat(...) || 10000`). */
  function SaveTripSettings(data: AppData, f: SettingsForm): (r: AppData)
    ensures r.tripCode == data.tripCode && r.employees == data.employees && r.expenses == data.expenses
    ensures r.tripInfo.location == f.location && r.tripInfo.startDate == f.startDate && r.tripInfo.endDate == f.endDate
    ensures r.tripInfo.paymentMethod == f.paymentMethod && r.tripInfo.subsidyMethod == f.subsidyMethod
    ensures r.tripInfo.subsidyAmount != 0.0
    ensures f.subsidyInput.Some? && f.subsidyInput.value != 0.0 ==> r.tripInfo.subsidyAmount == f.subsidyInput.value
    ensures f.subsidyInput == None || f.subsidyInput == Some(0.0) ==> r.tripInfo.subsidyAmount == DEFAULT_SUBSIDY
  {
    var amount := match f.subsidyInput
      case Some(v) => if v != 0.0 then v else DEFAULT_SUBSIDY
      case None => DEFAULT_SUBSIDY;
    data.(tripInfo := TripInfo(f.location, f.startDate, f.endDate, amount, f.paymentMethod, f.subsidyMethod))
  }
}

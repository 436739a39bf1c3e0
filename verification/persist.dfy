/** What `saveData` writes to local storage and what `loadData` reads back
    (app.js:746-782). Images are kept out of the stored record; the photo store
    itself is not part of this model. */
module Persist {
  import opened Common
  import opened Records
  import opened Store

  /** The stored form of an expense: no image, and a marker that says whether an
      image was held in memory at the time of saving. */
  function Persisted(e: Expense): (r: Expense)
    ensures r.photo == ""
    ensures r.hasPhoto <==> e.photo != ""
    ensures r.(photo := e.photo, hasPhoto := e.hasPhoto) == e
  {
    e.(photo := "", hasPhoto := e.photo != "")
  }

  /** Applies `Persisted` to every expense, keeping order and length. */
  function PersistAll(s: seq<Expense>): (r: seq<Expense>)
    ensures |r| == |s|
    ensures forall i :: 0 <= i < |s| ==> r[i] == Persisted(s[i])
  {
    if |s| == 0 then [] else [Persisted(s[0])] + PersistAll(s[1..])
  }

  /** The stored JSON object. A record written by an older client may lack fields. */
  datatype Saved = Saved(
    tripCode: string,
    tripInfo: Option<TripInfo>,
    employees: Option<seq<Employee>>,
    expenses: Option<seq<Expense>>)

  /** `saveData`: every field is written; expenses lose their image. */
  function Save(data: AppData): (r: Saved)
    ensures r.tripCode == data.tripCode
    ensures r.tripInfo == Some(data.tripInfo) && r.employees == Some(data.employees)
    ensures r.expenses.Some? && |r.expenses.value| == |data.expenses|
    ensures forall i :: 0 <= i < |data.expenses| ==>
              r.expenses.value[i].photo == "" && (r.expenses.value[i].hasPhoto <==> data.expenses[i].photo != "")
  {
    Saved(data.tripCode, Some(data.tripInfo), Some(data.employees), Some(PersistAll(data.expenses)))
  }

  /** `loadData`: nothing saved keeps the current state; otherwise every missing
      field takes its default (the current trip settings, empty lists). */
  function Load(saved: Option<Saved>, current: AppData): (r: AppData)
    ensures saved == None ==> r == current
    ensures saved.Some? ==>
              && r.tripCode == saved.value.tripCode
              && (saved.value.tripInfo == None ==> r.tripInfo == current.tripInfo)
              && (saved.value.employees == None ==> r.employees == [])
              && (saved.value.expenses == None ==> r.expenses == [])
              && (saved.value.tripInfo.Some? ==> r.tripInfo == saved.value.tripInfo.value)
              && (saved.value.employees.Some? ==> r.employees == saved.value.employees.value)
              && (saved.value.expenses.Some? ==> r.expenses == saved.value.expenses.value)
  {
    match saved
    case None => current
    case Some(s) =>
      AppData(
        s.tripCode,
        match s.tripInfo case Some(t) => t case None => current.tripInfo,
        match s.employees case Some(e) => e case None => [],
        match s.expenses case Some(x) => x case None => [])
  }

  /** Saving and loading again gives back the trip, the employees and every
      expense field except the image, which is replaced by the marker. */
  lemma SaveLoadRoundTrip(data: AppData, current: AppData)
    ensures var r := Load(Some(Save(data)), current);
            && r.tripCode == data.tripCode && r.tripInfo == data.tripInfo && r.employees == data.employees
            && |r.expenses| == |data.expenses|
            && forall i :: 0 <= i < |data.expenses| ==>
                 r.expenses[i].(photo := data.expenses[i].photo, hasPhoto := data.expenses[i].hasPhoto) == data.expenses[i]
                 && (r.expenses[i].hasPhoto <==> data.expenses[i].photo != "")
  {
  }

  /** The marker is recomputed from the image alone, so it does not survive a
      second save of a record whose image has not been read back from the photo
      store: after two saves with no image reload, no expense is marked. */
  lemma SecondSaveClearsMarkers(data: AppData, current: AppData)
    ensures var again := Save(Load(Some(Save(data)), current));
            forall i :: 0 <= i < |data.expenses| ==> !again.expenses.value[i].hasPhoto
  {
  }

  /** A record loaded from storage whose image is still only in the photo store,
      edited without a new image: the edit itself keeps the marker in memory, but
      the save that follows writes `hasPhoto = !!e.photo` and so stores the
      record as having no receipt. */
  lemma EditThenSaveDropsMarker()
    ensures var e := Expense(5, "餐費", "2025-03-01", "dinner", "JPY", 1000.0, 0.21, 210.0, "", true, "t0");
            var loaded := INITIAL.(expenses := [e]);
            var f := ExpenseForm("餐費", "2025-03-01", "lunch", "JPY", 1000.0, 0.21);
            var edited := SaveExpenseAsWritten(loaded, 5, f, "", 6, "t1");
            HasAnyPhoto(edited.expenses[0]) && !Save(edited).expenses.value[0].hasPhoto
  {
    var e := Expense(5, "餐費", "2025-03-01", "dinner", "JPY", 1000.0, 0.21, 210.0, "", true, "t0");
    assert FindIndex([e], 5) == 0;
  }

  /** The stored form of an expense that keeps its receipt: no image, and a
      marker set whenever the record has a receipt in either form. */
  function PersistedKeepingMarker(e: Expense): (r: Expense)
    ensures r.photo == ""
    ensures r.hasPhoto <==> HasAnyPhoto(e)
    ensures r.(photo := e.photo, hasPhoto := e.hasPhoto) == e
  {
    e.(photo := "", hasPhoto := HasAnyPhoto(e))
  }

  /** Applies `PersistedKeepingMarker` to every expense, keeping order and length. */
  function PersistAllKeepingMarkers(s: seq<Expense>): (r: seq<Expense>)
    ensures |r| == |s|
    ensures forall i :: 0 <= i < |s| ==> r[i] == PersistedKeepingMarker(s[i])
  {
    if |s| == 0 then [] else [PersistedKeepingMarker(s[0])] + PersistAllKeepingMarkers(s[1..])
  }

  /** `saveData` with the receipt kept: a record is stored as having a receipt
      exactly when it has one in memory or in the photo store. */
  function SaveKeepingMarkers(data: AppData): (r: Saved)
    ensures r.tripCode == data.tripCode
    ensures r.tripInfo == Some(data.tripInfo) && r.employees == Some(data.employees)
    ensures r.expenses.Some? && |r.expenses.value| == |data.expenses|
    ensures forall i :: 0 <= i < |data.expenses| ==>
              r.expenses.value[i].photo == "" && (r.expenses.value[i].hasPhoto <==> HasAnyPhoto(data.expenses[i]))
  {
    Saved(data.tripCode, Some(data.tripInfo), Some(data.employees), Some(PersistAllKeepingMarkers(data.expenses)))
  }

  /** With the corrected save, loading and saving again stores the same record:
      no number of saves without an image reload loses a receipt. */
  lemma SaveKeepingMarkersIsStable(data: AppData, current: AppData)
    ensures var first := SaveKeepingMarkers(data);
            SaveKeepingMarkers(Load(Some(first), current)) == first
  {
    var first := SaveKeepingMarkers(data);
    var loaded := Load(Some(first), current);
    assert loaded.expenses == first.expenses.value;
    var again := PersistAllKeepingMarkers(loaded.expenses);
    assert forall i :: 0 <= i < |again| ==> again[i] == first.expenses.value[i];
    assert again == first.expenses.value;
  }

  /** Editing an existing record without a new image and then saving with the
      corrected functions stores it as having a receipt exactly when the record
      had one before the edit; every other record is stored as before. */
  lemma EditThenSaveKeepsReceipt(data: AppData, editId: int, f: ExpenseForm, now: int, timestamp: string)
    ensures var i := FindIndex(data.expenses, editId);
            var stored := SaveKeepingMarkers(SaveExpense(data, editId, f, "", now, timestamp)).expenses.value;
            editId != 0 ==>
              && |stored| == |data.expenses|
              && (i >= 0 ==> (stored[i].hasPhoto <==> HasAnyPhoto(data.expenses[i])))
              && forall j :: 0 <= j < |data.expenses| && j != i ==>
                   stored[j] == SaveKeepingMarkers(data).expenses.value[j]
  {
  }
}

/** JSON files exchanged between a trip leader and the members: the trip
    configuration a leader hands out and the expense file a member sends back
    (app.js:843-1047), plus the header line of the home screen (app.js:309-323). */
module Transfer {
  import opened Common
  import opened Records

  /** An expense as it appears in an exported JSON file: neither the image nor
      the photo-store marker is written. */
  function Exported(e: Expense): (r: Expense)
    ensures r.photo == "" && !r.hasPhoto
    ensures r.(photo := e.photo, hasPhoto := e.hasPhoto) == e
  {
    e.(photo := "", hasPhoto := false)
  }

  /** `Exported` over a list, keeping order and length. */
  function ExportAll(s: seq<Expense>): (r: seq<Expense>)
    ensures |r| == |s|
    ensures forall i :: 0 <= i < |s| ==> r[i] == Exported(s[i])
  {
    if |s| == 0 then [] else [Exported(s[0])] + ExportAll(s[1..])
  }

  /** `getTripId`: location (or `'未設定'`), start date and end date joined by `_`. */
  function TripId(info: TripInfo): (r: string)
    ensures |r| > 2
  {
    (if info.location == "" then "未設定" else info.location) + "_" + info.startDate + "_" + info.endDate
  }

  /** `a + [c] + b` determines `a` and `b` when `c` does not occur in `a`. */
  lemma SplitAtFirst(a: string, b: string, a': string, b': string, c: char)
    requires c !in a && c !in a'
    requires a + [c] + b == a' + [c] + b'
    ensures a == a' && b == b'
  {
    var s := a + [c] + b;
    assert |a| == |a'| by {
      assert s[|a|] == c && s[|a'|] == c;
      assert forall k :: 0 <= k < |a| ==> s[k] == a[k];
      assert forall k :: 0 <= k < |a'| ==> s[k] == a'[k];
    }
    assert a == s[..|a|] == a';
    assert b == s[|a| + 1..] == b';
  }

  /** Two trips with the same id have the same location label and dates, as
      long as neither the location nor the start date contains `_`. */
  lemma TripIdDeterminesTrip(x: TripInfo, y: TripInfo)
    requires '_' !in x.location && '_' !in y.location && '_' !in x.startDate && '_' !in y.startDate
    requires TripId(x) == TripId(y)
    ensures x.startDate == y.startDate && x.endDate == y.endDate
    ensures x.location == y.location || {x.location, y.location} == {"", "未設定"}
  {
    var lx := if x.location == "" then "未設定" else x.location;
    var ly := if y.location == "" then "未設定" else y.location;
    assert lx + "_" + x.startDate + "_" + x.endDate == lx + ['_'] + (x.startDate + "_" + x.endDate);
    assert ly + "_" + y.startDate + "_" + y.endDate == ly + ['_'] + (y.startDate + "_" + y.endDate);
    SplitAtFirst(lx, x.startDate + "_" + x.endDate, ly, y.startDate + "_" + y.endDate, '_');
    assert x.startDate + "_" + x.endDate == x.startDate + ['_'] + x.endDate;
    assert y.startDate + "_" + y.endDate == y.startDate + ['_'] + y.endDate;
    SplitAtFirst(x.startDate, x.endDate, y.startDate, y.endDate, '_');
  }

  /** `updateTripInfo`: the header line. The placeholder when neither a location
      nor a start date is set; otherwise the location and, when both dates are
      set, the period, joined by `' | '`. */
  function HeaderText(info: TripInfo): (r: string)
    ensures info.location == "" && info.startDate == "" ==> r == "設定旅遊資訊"
    ensures info.location != "" ==> StartsWith(r, info.location)
    ensures r == "" <==> info.location == "" && info.startDate != "" && info.endDate == ""
    ensures info.startDate != "" && info.endDate != "" ==>
              r == (if info.location != "" then info.location + " | " else "") + info.startDate + " ~ " + info.endDate
    ensures info.location != "" && (info.startDate == "" || info.endDate == "") ==> r == info.location
  {
    if info.location != "" || info.startDate != "" then
      var period := if info.startDate != "" && info.endDate != "" then [info.startDate + " ~ " + info.endDate] else [];
      var parts := (if info.location != "" then [info.location] else []) + period;
      assert parts == [] <==> info.location == "" && !(info.startDate != "" && info.endDate != "");
      Join(parts, " | ")
    else
      "設定旅遊資訊"
  }

  /** The placeholder appears only for a trip with neither a location nor a
      start date, or whose location is the placeholder text itself: a shown
      period contains `~`, which the placeholder does not. */
  lemma HeaderPlaceholderMeansUnset(info: TripInfo)
    ensures HeaderText(info) == "設定旅遊資訊" <==>
              || (info.location == "" && info.startDate == "")
              || (info.location == "設定旅遊資訊" && (info.startDate == "" || info.endDate == ""))
  {
    if info.startDate != "" && info.endDate != "" {
      var prefix := if info.location != "" then info.location + " | " else "";
      var r := HeaderText(info);
      var k := |prefix| + |info.startDate| + 1;
      assert r == prefix + info.startDate + " ~ " + info.endDate;
      assert r[k] == '~';
      assert '~' !in "設定旅遊資訊";
    }
  }

  /** `Array.prototype.join`. */
  function Join(parts: seq<string>, sep: string): (r: string)
    ensures parts == [] ==> r == ""
    ensures parts != [] ==> StartsWith(r, parts[0]) && |r| >= |parts[0]|
    ensures parts != [] && parts[0] != "" ==> r != ""
    ensures |parts| == 1 ==> r == parts[0]
    ensures |parts| == 2 ==> r == parts[0] + sep + parts[1]
    ensures |parts| > 1 && sep != "" ==> r != ""
  {
    if |parts| == 0 then ""
    else if |parts| == 1 then parts[0]
    else
      var rest := sep + Join(parts[1..], sep);
      assert (parts[0] + rest)[..|parts[0]|] == parts[0];
      parts[0] + rest
  }

  /** A trip-configuration file (`type: 'trip-config'`). Optional parts are `None`
      when absent; `tripCode` is `''` when the file carries none. */
  datatype ConfigFile = ConfigFile(
    kind: string,
    version: int,
    tripCode: string,
    tripInfo: Option<TripInfo>,
    employees: Option<seq<Employee>>,
    expenses: Option<seq<Expense>>)

  /** `exportTripConfig`: always the trip settings and code; employees and
      expenses only when their boxes are ticked, expenses without images. */
  function ExportTripConfig(data: AppData, withEmployees: bool, withExpenses: bool): (r: ConfigFile)
    ensures r.kind == TRIP_CONFIG && r.version == 2
    ensures r.tripCode == data.tripCode && r.tripInfo == Some(data.tripInfo)
    ensures r.employees.Some? <==> withEmployees
    ensures withEmployees ==> r.employees.value == data.employees
    ensures r.expenses.Some? <==> withExpenses
    ensures withExpenses ==> |r.expenses.value| == |data.expenses|
                             && forall i :: 0 <= i < |data.expenses| ==> r.expenses.value[i] == Exported(data.expenses[i])
  {
    ConfigFile(TRIP_CONFIG, 2, data.tripCode, Some(data.tripInfo),
               if withEmployees then Some(data.employees) else None,
               if withExpenses then Some(ExportAll(data.expenses)) else None)
  }

  /** The list an imported list field yields: the local one unless the file has a
      non-empty list and either the local list is empty or the user agrees to
      overwrite it. */
  function Adopt<T>(local: seq<T>, incoming: Option<seq<T>>, confirmed: bool): (r: seq<T>)
    ensures r == local || (incoming.Some? && r == incoming.value)
    ensures incoming.Some? && |incoming.value| > 0 && (|local| == 0 || confirmed) ==> r == incoming.value
    ensures incoming == None || |incoming.value| == 0 || (|local| > 0 && !confirmed) ==> r == local
  {
    match incoming
    case Some(v) => if |v| > 0 && (|local| == 0 || confirmed) then v else local
    case None => local
  }

  /** `importTripConfig`. `file` is `None` when the text did not parse; the
      two booleans are the answers to the overwrite questions, asked only when
      both the local and the imported list are non-empty. A file of another
      type changes nothing. */
  function ImportTripConfig(data: AppData, file: Option<ConfigFile>, overwriteEmployees: bool, overwriteExpenses: bool): (r: AppData)
    ensures file == None || file.value.kind != TRIP_CONFIG ==> r == data
    ensures file.Some? && file.value.kind == TRIP_CONFIG ==>
              var f := file.value;
              && (f.tripInfo.Some? ==> r.tripInfo == f.tripInfo.value)
              && (f.tripInfo == None ==> r.tripInfo == data.tripInfo)
              && (r.tripCode == if f.tripCode != "" then f.tripCode else data.tripCode)
              && r.employees == Adopt(data.employees, f.employees, overwriteEmployees)
              && r.expenses == Adopt(data.expenses, f.expenses, overwriteExpenses)
  {
    match file
    case None => data
    case Some(f) =>
      if f.kind != TRIP_CONFIG then data
      else
        AppData(
          if f.tripCode != "" then f.tripCode else data.tripCode,
          match f.tripInfo case Some(t) => t case None => data.tripInfo,
          Adopt(data.employees, f.employees, overwriteEmployees),
          Adopt(data.expenses, f.expenses, overwriteExpenses))
  }

  /** A full export read back on a device with nothing recorded reproduces the
      settings, the code, the employees and the expenses (without images). */
  lemma ConfigRoundTrip(data: AppData, empty: AppData)
    requires empty.tripCode == "" && empty.employees == [] && empty.expenses == []
    ensures var r := ImportTripConfig(empty, Some(ExportTripConfig(data, true, true)), false, false);
            && r.tripInfo == data.tripInfo && r.tripCode == data.tripCode && r.employees == data.employees
            && r.expenses == ExportAll(data.expenses)
  {
  }

  /** Why a member's expense export produced no file. */
  datatype MemberExportError =
    | NothingToExport // the alert when there are no expenses
    | NoName          // the name prompt was cancelled or left blank

  /** `exportMemberExpenses`. `nameInput` is the prompt's answer (`''` when
      cancelled), `today` the export date. The member is identified by the trimmed name. */
  function ExportMemberExpenses(data: AppData, nameInput: string, today: string): (r: Result<MemberFile, MemberExportError>)
    ensures |data.expenses| == 0 ==> r == Err(NothingToExport)
    ensures |data.expenses| > 0 && Trim(nameInput) == "" ==> r == Err(NoName)
    ensures r.Ok? ==>
              var f := r.value;
              && f.kind == MEMBER_EXPENSES && f.tripCode == data.tripCode
              && f.memberName == Trim(nameInput) && f.memberName != ""
              && f.tripId == TripId(data.tripInfo) && f.exportDate == today
              && |f.expenses| == |data.expenses|
              && forall i :: 0 <= i < |data.expenses| ==> f.expenses[i] == Exported(data.expenses[i])
  {
    if |data.expenses| == 0 then Err(NothingToExport)
    else
      var name := Trim(nameInput);
      if name == "" then Err(NoName)
      else Ok(MemberFile(MEMBER_EXPENSES, data.tripCode, name, TripId(data.tripInfo), ExportAll(data.expenses), today))
  }

  /** Member names occur at most once in the leader's merged list. */
  ghost predicate UniqueNames(merged: seq<MemberFile>)
  {
    forall i, j :: 0 <= i < j < |merged| ==> merged[i].memberName != merged[j].memberName
  }

  /** `findIndex(m => m.memberName === name)`: the first position with that name, or -1. */
  function FindMember(merged: seq<MemberFile>, name: string): (i: int)
    ensures -1 <= i < |merged|
    ensures i >= 0 ==> merged[i].memberName == name && forall j :: 0 <= j < i ==> merged[j].memberName != name
    ensures i == -1 ==> forall j :: 0 <= j < |merged| ==> merged[j].memberName != name
  {
    if |merged| == 0 then -1
    else if merged[0].memberName == name then 0
    else
      var k := FindMember(merged[1..], name);
      if k == -1 then -1 else k + 1
  }

  /** Replaces the first file with the same member name, or appends. */
  function Upsert(merged: seq<MemberFile>, f: MemberFile): (r: seq<MemberFile>)
    ensures f in r
    ensures FindMember(merged, f.memberName) >= 0 ==>
              && |r| == |merged| && r[FindMember(merged, f.memberName)] == f
              && forall j :: 0 <= j < |merged| && j != FindMember(merged, f.memberName) ==> r[j] == merged[j]
    ensures FindMember(merged, f.memberName) == -1 ==> r == merged + [f]
    ensures forall j :: 0 <= j < |merged| && merged[j].memberName != f.memberName ==> merged[j] in r
    ensures forall j :: 0 <= j < |r| ==> r[j] == f || r[j] in merged
    ensures UniqueNames(merged) ==> UniqueNames(r)
  {
    var i := FindMember(merged, f.memberName);
    if i >= 0 then
      var r := merged[i := f];
      assert r[i] == f;
      assert forall j :: 0 <= j < |merged| && j != i ==> r[j] == merged[j];
      r
    else
      merged + [f]
  }

  /** What the leader's import touches: the local state (for the trip code) and
      the list of imported member files. */
  datatype LeaderState = LeaderState(data: AppData, merged: seq<MemberFile>)

  /** One file of `importMemberExpenses`, `None` when it did not parse. A file of
      another type is skipped. Otherwise its trip code is adopted only when none
      is held locally, and the member is added or replaced by name. */
  function ImportMemberFile(s: LeaderState, file: Option<MemberFile>): (r: LeaderState)
    ensures file == None || file.value.kind != MEMBER_EXPENSES ==> r == s
    ensures file.Some? && file.value.kind == MEMBER_EXPENSES ==>
              && file.value in r.merged
              && r.data.tripInfo == s.data.tripInfo && r.data.employees == s.data.employees
              && r.data.expenses == s.data.expenses
              && (s.data.tripCode != "" ==> r.data.tripCode == s.data.tripCode)
              && (s.data.tripCode == "" ==> r.data.tripCode == file.value.tripCode)
    ensures UniqueNames(s.merged) ==> UniqueNames(r.merged)
  {
    match file
    case None => s
    case Some(f) =>
      if f.kind != MEMBER_EXPENSES then s
      else
        var data := if f.tripCode != "" && s.data.tripCode == "" then s.data.(tripCode := f.tripCode) else s.data;
        LeaderState(data, Upsert(s.merged, f))
  }

  /** Member files processed one after the other. */
  function ImportMemberFiles(s: LeaderState, files: seq<Option<MemberFile>>): (r: LeaderState)
    ensures UniqueNames(s.merged) ==> UniqueNames(r.merged)
    ensures s.data.tripCode != "" ==> r.data.tripCode == s.data.tripCode
    ensures r.data.tripInfo == s.data.tripInfo && r.data.employees == s.data.employees && r.data.expenses == s.data.expenses
    decreases |files|
  {
    if |files| == 0 then s else ImportMemberFiles(ImportMemberFile(s, files[0]), files[1..])
  }

  /** Number of files that were imported rather than skipped. */
  function ImportedCount(files: seq<Option<MemberFile>>): (n: nat)
    ensures n <= |files|
  {
    if |files| == 0 then 0
    else (if files[0].Some? && files[0].value.kind == MEMBER_EXPENSES then 1 else 0) + ImportedCount(files[1..])
  }

  /** The last accepted file of a member wins: after an import, every member name
      from an accepted file is in the list, and the entry for the last file of
      the batch is that file itself. */
  lemma {:induction false} LastFileWins(s: LeaderState, files: seq<Option<MemberFile>>)
    requires |files| > 0
    requires files[|files| - 1].Some? && files[|files| - 1].value.kind == MEMBER_EXPENSES
    ensures files[|files| - 1].value in ImportMemberFiles(s, files).merged
    decreases |files|
  {
    if |files| == 1 {
      assert ImportMemberFiles(s, files) == ImportMemberFiles(ImportMemberFile(s, files[0]), []);
    } else {
      LastFileWins(ImportMemberFile(s, files[0]), files[1..]);
    }
  }

  /** A member's export, imported by the leader, lands in the leader's list
      under the member's trimmed name with the member's expenses. */
  lemma MemberRoundTrip(member: AppData, nameInput: string, today: string, leader: LeaderState)
    requires |member.expenses| > 0 && Trim(nameInput) != ""
    ensures var f := ExportMemberExpenses(member, nameInput, today);
            && f.Ok?
            && var r := ImportMemberFile(leader, Some(f.value));
            exists j :: 0 <= j < |r.merged| && r.merged[j].memberName == Trim(nameInput)
                        && r.merged[j].expenses == ExportAll(member.expenses)
  {
    var f := ExportMemberExpenses(member, nameInput, today).value;
    assert f.kind == MEMBER_EXPENSES && f.memberName == Trim(nameInput) && f.expenses == ExportAll(member.expenses);
    var r := ImportMemberFile(leader, Some(f));
    assert f in r.merged;
    var j :| 0 <= j < |r.merged| && r.merged[j] == f;
  }

  /** `removeMergedMember(index)`: `splice(index, 1)`, where a negative index
      counts from the end and an index past the end removes nothing. */
  function RemoveMergedMember(merged: seq<MemberFile>, index: int): (r: seq<MemberFile>)
    ensures 0 <= index < |merged| ==> r == merged[..index] + merged[index + 1..]
    ensures index >= |merged| ==> r == merged
    ensures -|merged| <= index < 0 ==> r == merged[..|merged| + index] + merged[|merged| + index + 1..]
    ensures index < -|merged| && |merged| > 0 ==> r == merged[1..]
    ensures |r| == |merged| || |r| == |merged| - 1
  {
    var start := if index < 0 then (if |merged| + index < 0 then 0 else |merged| + index) else index;
    if start < |merged| then merged[..start] + merged[start + 1..] else merged
  }
}

/** Submission of the local trip to the cloud back end, the status query, and
    the trip-code lifecycle on the client: a first upload creates a trip code,
    later uploads carry it so the back end replaces that submission, and the
    user may load a code to revise or clear it to start a new application
    (app.js:1194-1426). The back end call is a parameter: its reply is given. */
module Upload {
  import opened Common
  import opened Records

  /** Why an upload did not start. */
  datatype UploadError =
    | NoUrl        // no back-end URL configured
    | NoSubmitter  // the submitter name is blank
    | NoExpenses   // nothing recorded yet

  /** One expense as sent: `photo` is `""` when the key is absent. */
  datatype WireExpense = WireExpense(
    employeeName: string,
    date: string,
    category: string,
    description: string,
    currency: string,
    amount: real,
    exchangeRate: real,
    amountNTD: real,
    photo: string)

  /** The submitted body: `tripCode` is `""` when the key is absent. */
  datatype Payload = Payload(
    tripInfo: TripInfo,
    employees: seq<Employee>,
    expenses: seq<WireExpense>,
    submittedBy: string,
    tripCode: string)

  /** The image sent for an expense. A record with a receipt sends the image in
      memory if any, else the one stored under its (non-zero) id; a failed or
      empty lookup sends none. A record with neither marker sends none. */
  function PhotoFor(e: Expense, store: map<int, string>): (r: string)
    ensures !e.hasPhoto && e.photo == "" ==> r == ""
    ensures e.photo != "" ==> r == e.photo
    ensures e.photo == "" && e.hasPhoto ==> r == (if e.id != 0 && e.id in store then store[e.id] else "")
  {
    if e.hasPhoto || e.photo != "" then
      var photoData := e.photo;
      if photoData == "" && e.id != 0 then
        if e.id in store then store[e.id] else ""
      else photoData
    else ""
  }

  /** The wire form of one expense. */
  function ToWire(e: Expense, submitter: string, store: map<int, string>): (w: WireExpense)
    ensures w.employeeName == submitter && w.date == e.date && w.category == e.category
    ensures w.description == e.description && w.currency == e.currency
    ensures w.amount == e.amount && w.exchangeRate == e.rate && w.amountNTD == e.ntd
    ensures w.photo == PhotoFor(e, store)
  {
    WireExpense(submitter, e.date, e.category, e.description, e.currency, e.amount, e.rate, e.ntd, PhotoFor(e, store))
  }

  /** `submitToCloud` up to the request: the checks in the source's order, then
      the payload. `store` stands for the photo store. */
  function PrepareUpload(gasUrl: string, nameInput: string, data: AppData, store: map<int, string>): (r: Result<Payload, UploadError>)
    ensures gasUrl == "" ==> r == Err(NoUrl)
    ensures gasUrl != "" && Trim(nameInput) == "" ==> r == Err(NoSubmitter)
    ensures gasUrl != "" && Trim(nameInput) != "" && |data.expenses| == 0 ==> r == Err(NoExpenses)
    ensures r.Ok? <==> gasUrl != "" && Trim(nameInput) != "" && |data.expenses| > 0
    ensures r.Ok? ==>
              var p := r.value;
              && p.tripInfo == data.tripInfo && p.employees == data.employees
              && p.submittedBy == Trim(nameInput) && p.tripCode == data.tripCode
              && |p.expenses| == |data.expenses|
              && forall i :: 0 <= i < |p.expenses| ==> p.expenses[i] == ToWire(data.expenses[i], p.submittedBy, store)
  {
    var submitter := Trim(nameInput);
    if gasUrl == "" then Err(NoUrl)
    else if submitter == "" then Err(NoSubmitter)
    else if |data.expenses| == 0 then Err(NoExpenses)
    else
      var wire := seq(|data.expenses|, i requires 0 <= i < |data.expenses| => ToWire(data.expenses[i], submitter, store));
      Ok(Payload(data.tripInfo, data.employees, wire, submitter, data.tripCode))
  }

  /** What came back from `submitTrip`. */
  datatype SubmitReply =
    | Accepted(tripCode: string)  // `success: true`
    | Refused(error: string)      // `success: false`, `error` may be empty
    | Thrown(message: string)     // the request itself failed

  /** The outcome shown to the user. */
  datatype UploadOutcome =
    | Uploaded(tripCode: string, reupload: bool)
    | Failed(message: string)

  /** The message prefix of a failed upload. */
  const UPLOAD_FAILED := "上傳失敗"

  /** The end of `submitToCloud`: on success the returned code becomes the
      local trip code, and the toast says whether this was a re-upload; on
      failure the local data is untouched and the message names the back end's
      error or a generic one. */
  function FinishUpload(data: AppData, p: Payload, reply: SubmitReply): (r: (AppData, UploadOutcome))
    ensures reply.Accepted? ==>
              && r.0 == data.(tripCode := reply.tripCode)
              && r.1 == Uploaded(reply.tripCode, p.tripCode != "")
    ensures !reply.Accepted? ==> r.0 == data && r.1.Failed?
    ensures reply.Refused? && reply.error != "" ==> r.1 == Failed(UPLOAD_FAILED + "：" + reply.error)
    ensures reply.Refused? && reply.error == "" ==> r.1 == Failed(UPLOAD_FAILED + "：" + UPLOAD_FAILED)
    ensures reply.Thrown? ==> r.1 == Failed(UPLOAD_FAILED + "：" + reply.message)
  {
    match reply
    case Accepted(code) => (data.(tripCode := code), Uploaded(code, p.tripCode != ""))
    case Refused(err) => (data, Failed(UPLOAD_FAILED + "：" + (if err != "" then err else UPLOAD_FAILED)))
    case Thrown(msg) => (data, Failed(UPLOAD_FAILED + "：" + msg))
  }

  /** After an accepted upload the next upload of the same client carries the
      returned code, so the back end treats it as an update of that trip; it is
      announced as a re-upload. */
  lemma {:induction false} UploadThenResubmit(gasUrl: string, nameInput: string, data: AppData, store: map<int, string>, code: string)
    requires PrepareUpload(gasUrl, nameInput, data, store).Ok?
    requires code != ""
    ensures var p := PrepareUpload(gasUrl, nameInput, data, store).value;
            var after := FinishUpload(data, p, Accepted(code)).0;
            && PrepareUpload(gasUrl, nameInput, after, store).Ok?
            && PrepareUpload(gasUrl, nameInput, after, store).value == p.(tripCode := code)
            && FinishUpload(after, p.(tripCode := code), Accepted(code)).1 == Uploaded(code, true)
  {
    var p := PrepareUpload(gasUrl, nameInput, data, store).value;
    var after := FinishUpload(data, p, Accepted(code)).0;
    var q := PrepareUpload(gasUrl, nameInput, after, store).value;
    assert q.expenses == p.expenses;
  }

  /** `prepareReupload`: adopt the code of the trip the user is revising. */
  function PrepareReupload(data: AppData, tripCode: string): (r: AppData)
    ensures r.tripCode == tripCode
    ensures r.(tripCode := data.tripCode) == data
  {
    data.(tripCode := tripCode)
  }

  /** `clearTripCode`: forget the code, so the next upload is a new application. */
  function ClearTripCode(data: AppData): (r: AppData)
    ensures r.tripCode == ""
    ensures r.(tripCode := data.tripCode) == data
  {
    data.(tripCode := "")
  }

  /** After clearing, an upload carries no trip code and is announced as a first upload. */
  lemma ClearedUploadIsNew(gasUrl: string, nameInput: string, data: AppData, store: map<int, string>, code: string)
    requires PrepareUpload(gasUrl, nameInput, data, store).Ok?
    ensures var r := PrepareUpload(gasUrl, nameInput, ClearTripCode(data), store);
            && r.Ok? && r.value.tripCode == ""
            && FinishUpload(ClearTripCode(data), r.value, Accepted(code)).1 == Uploaded(code, false)
  {
  }

  /** After loading a code for revision, the next upload carries that code. */
  lemma ReuploadCarriesCode(gasUrl: string, nameInput: string, data: AppData, store: map<int, string>, code: string)
    requires PrepareUpload(gasUrl, nameInput, data, store).Ok?
    ensures var r := PrepareUpload(gasUrl, nameInput, PrepareReupload(data, code), store);
            r.Ok? && r.value.tripCode == code
  {
  }

  /** Why a status query did not start. */
  datatype QueryError = QueryNoUrl | QueryNoCode

  /** `checkTripStatus` up to the request: the code queried is the trimmed input. */
  function StatusQuery(gasUrl: string, codeInput: string): (r: Result<string, QueryError>)
    ensures gasUrl == "" ==> r == Err(QueryNoUrl)
    ensures gasUrl != "" && Trim(codeInput) == "" ==> r == Err(QueryNoCode)
    ensures r.Ok? <==> gasUrl != "" && Trim(codeInput) != ""
    ensures r.Ok? ==> r.value == Trim(codeInput) && r.value != "" && Trim(r.value) == r.value
  {
    var code := Trim(codeInput);
    TrimIdempotent(codeInput);
    if gasUrl == "" then Err(QueryNoUrl)
    else if code == "" then Err(QueryNoCode)
    else Ok(code)
  }

  /** A status badge: caption, colour name and icon. */
  datatype Badge = Badge(caption: string, color: string, icon: string)

  /** The four review states the back end uses. */
  predicate KnownStatus(status: string)
  {
    status == "pending" || status == "approved" || status == "rejected" || status == "needs_revision"
  }

  /** The badge of a trip's overall status (`statusMap[trip.status] || {...}`):
      an unknown status is shown as itself, in gray with a question mark. A
      status naming an inherited object member skips that fallback, and every
      field of its badge renders as "undefined". */
  function TripBadge(status: string): (b: Badge)
    ensures !KnownStatus(status) && !InheritedKey(status) ==> b == Badge(status, "gray", "❓")
    ensures InheritedKey(status) ==> b == Badge(UNDEFINED, UNDEFINED, UNDEFINED)
    ensures KnownStatus(status) ==> b.color != "gray" && b.caption != status
  {
    if status == "pending" then Badge("待審核", "yellow", "⏳")
    else if status == "approved" then Badge("已通過", "green", "✅")
    else if status == "rejected" then Badge("已退回", "red", "❌")
    else if status == "needs_revision" then Badge("需補件", "orange", "📝")
    else if InheritedKey(status) then Badge(UNDEFINED, UNDEFINED, UNDEFINED)
    else Badge(status, "gray", "❓")
  }

  /** The per-expense badge (label and style class,
      `expStatusMap[s] || expStatusMap['pending']`): an unknown or missing status
      is shown as pending, except one naming an inherited object member, whose
      label and class render as "undefined". */
  function ExpenseBadge(status: string): (r: (string, string))
    ensures (!KnownStatus(status) && !InheritedKey(status)) || status == "pending" ==>
              r == ("待審", "bg-yellow-100 text-yellow-700")
    ensures InheritedKey(status) ==> r == (UNDEFINED, UNDEFINED)
  {
    if status == "approved" then ("通過", "bg-green-100 text-green-700")
    else if status == "rejected" then ("退回", "bg-red-100 text-red-700")
    else if status == "needs_revision" then ("補件", "bg-orange-100 text-orange-700")
    else if status != "pending" && InheritedKey(status) then (UNDEFINED, UNDEFINED)
    else ("待審", "bg-yellow-100 text-yellow-700")
  }

  /** The four review states get four different captions, on the trip badge and
      on the expense badge alike. */
  lemma BadgesTellStatesApart(s: string, t: string)
    requires KnownStatus(s) && KnownStatus(t) && s != t
    ensures TripBadge(s).caption != TripBadge(t).caption
    ensures ExpenseBadge(s).0 != ExpenseBadge(t).0
  {
  }

  /** An expense is badged exactly as a pending one when its status is pending,
      or unknown and not an inherited object member's name. */
  lemma UnknownExpenseStatusReadsPending(s: string)
    ensures ExpenseBadge(s) == ExpenseBadge("pending") <==> s == "pending" || (!KnownStatus(s) && !InheritedKey(s))
  {
  }

  /** One expense as the status reply lists it (only the review fields matter here). */
  datatype ReviewedExpense = ReviewedExpense(expenseStatus: string, expenseReviewNote: string)

  /** Whether the result offers "revise and re-upload": some expense was
      rejected or needs revision. The trip's own status plays no part. */
  function ReuploadOffered(expenses: seq<ReviewedExpense>): (b: bool)
    ensures b <==> exists i :: 0 <= i < |expenses|
                     && (expenses[i].expenseStatus == "rejected" || expenses[i].expenseStatus == "needs_revision")
  {
    if |expenses| == 0 then false
    else
      var s := expenses[0].expenseStatus;
      if s == "rejected" || s == "needs_revision" then true
      else
        var rest := ReuploadOffered(expenses[1..]);
        assert rest ==> exists i :: 0 <= i < |expenses| && (expenses[i].expenseStatus == "rejected" || expenses[i].expenseStatus == "needs_revision") by {
          if rest {
            var j :| 0 <= j < |expenses[1..]| && (expenses[1..][j].expenseStatus == "rejected" || expenses[1..][j].expenseStatus == "needs_revision");
            assert expenses[j + 1] == expenses[1..][j];
          }
        }
        rest
  }
}

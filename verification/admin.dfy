/** The review console (admin/admin.js): hash routing guarded by the session
    token, login and logout, the rule that an authentication error from any
    back-end call ends the session, the status filter of the trip list, the
    status badge and the NTD total of the detail page. Pages, modals and toasts
    are reduced to the state they leave behind. */
module Admin {
  import opened Common
  import Upload

  /** A trip as listed on the dashboard (only the fields the model reads). */
  datatype TripSummary = TripSummary(tripCode: string, status: string, location: string, submittedBy: string)

  /** The page shown. */
  datatype Page = LoginPage | DashboardPage | DetailPage

  /** The console's state. Strings are `""` when the source's value is null or
      absent: `token` is the session token, `api` the URL of the open client,
      `savedUrl` the remembered back-end URL, `notice` the error text on show. */
  datatype AdminState = AdminState(
    token: string,
    api: string,
    savedUrl: string,
    hash: string,
    page: Page,
    trips: seq<TripSummary>,
    filter: string,
    currentTripCode: string,
    notice: string)

  const LOGIN := "#login"
  const DASHBOARD := "#dashboard"
  const DETAIL := "#detail/"

  /** What `handleRoute` does for the current location. */
  datatype RouteAction =
    | Redirect(to: string)      // sets the hash; the hash change routes again
    | ShowLogin
    | ShowDashboard
    | ShowDetail(tripCode: string)
    | Ignore                    // an unknown hash with a session: nothing happens

  /** `handleRoute`: an empty hash counts as the login page; without a token every
      other page sends the browser to the login page; otherwise the hash picks
      the page, `#detail/<code>` carrying the trip code. */
  function HandleRoute(hash: string, token: string): (r: RouteAction)
    ensures token == "" && hash != "" && hash != LOGIN ==> r == Redirect(LOGIN)
    ensures hash == "" || hash == LOGIN ==> r == ShowLogin
    ensures r.Redirect? ==> r.to == LOGIN && token == ""
    ensures r == ShowDashboard <==> token != "" && hash == DASHBOARD
    ensures r.ShowDetail? <==> token != "" && StartsWith(hash, DETAIL)
    ensures r.ShowDetail? ==> DETAIL + r.tripCode == hash
  {
    var h := if hash == "" then LOGIN else hash;
    if token == "" && h != LOGIN then Redirect(LOGIN)
    else if h == LOGIN then ShowLogin
    else if h == DASHBOARD then
      assert DASHBOARD[2] != DETAIL[2];
      ShowDashboard
    else if StartsWith(h, DETAIL) then
      assert DETAIL + h[|DETAIL|..] == h;
      ShowDetail(h[|DETAIL|..])
    else Ignore
  }

  /** Without a session no page but the login page is ever shown: a redirect
      lands on a location that routes to the login page. */
  lemma NoSessionOnlyLogin(hash: string)
    ensures HandleRoute(hash, "") == ShowLogin || HandleRoute(hash, "") == Redirect(LOGIN)
    ensures HandleRoute(LOGIN, "") == ShowLogin
  {
  }

  /** The detail page of a trip is reached from the link the list builds for it. */
  lemma DetailLinkRoundTrip(tripCode: string, token: string)
    requires token != ""
    ensures HandleRoute(DETAIL + tripCode, token) == ShowDetail(tripCode)
  {
    assert (DETAIL + tripCode)[..|DETAIL|] == DETAIL;
    assert (DETAIL + tripCode)[|DETAIL|..] == tripCode;
  }

  /** Applies a route action to the state. Showing the detail page remembers
      its trip code; a redirect only moves the hash. */
  function Route(s: AdminState): (r: AdminState)
    ensures r.token == s.token && r.api == s.api && r.savedUrl == s.savedUrl && r.trips == s.trips
    ensures s.token == "" ==> r.page == LoginPage || r.hash == LOGIN
    ensures HandleRoute(s.hash, s.token).ShowDetail? ==>
              r.page == DetailPage && r.currentTripCode == HandleRoute(s.hash, s.token).tripCode
  {
    match HandleRoute(s.hash, s.token)
    case Redirect(to) => s.(hash := to)
    case ShowLogin => s.(page := LoginPage)
    case ShowDashboard => s.(page := DashboardPage)
    case ShowDetail(code) => s.(page := DetailPage, currentTripCode := code)
    case Ignore => s
  }

  /** Start-up: a client is opened only when both a session token and a saved
      URL exist; then routing decides the page. */
  function Boot(savedUrl: string, token: string, hash: string): (r: AdminState)
    ensures r.api != "" <==> token != "" && savedUrl != ""
    ensures r.api != "" ==> r.api == savedUrl
    ensures r.token == token && r.savedUrl == savedUrl
    ensures r.filter == "all" && r.trips == []
  {
    var api := if token != "" && savedUrl != "" then savedUrl else "";
    var page := if api != "" then DashboardPage else LoginPage;
    Route(AdminState(token, api, savedUrl, hash, page, [], "all", "", ""))
  }

  /** A back-end reply to a call made with the session token. */
  datatype Reply<T> =
    | Reply(authError: bool, success: bool, value: T, error: string)
    | Thrown(message: string)

  /** The reply to `adminLogin`. */
  datatype LoginReply =
    | LoginOk(token: string)
    | LoginRefused(error: string)
    | LoginThrown(message: string)

  /** The URL the login request goes to, or why none is sent: a blank URL field
      (after trimming) or an empty password field (not trimmed). */
  function LoginRequest(urlInput: string, password: string): (r: Result<string, string>)
    ensures Trim(urlInput) == "" ==> r == Err("請輸入 GAS Web App URL")
    ensures Trim(urlInput) != "" && password == "" ==> r == Err("請輸入密碼")
    ensures r.Ok? <==> Trim(urlInput) != "" && password != ""
    ensures r.Ok? ==> r.value == Trim(urlInput)
  {
    var url := Trim(urlInput);
    if url == "" then Err("請輸入 GAS Web App URL")
    else if password == "" then Err("請輸入密碼")
    else Ok(url)
  }

  /** `login`. With valid inputs the client is opened on the URL whatever the
      reply; only a successful reply stores the token and the URL and moves to
      the dashboard. */
  function Login(s: AdminState, urlInput: string, password: string, reply: LoginReply): (r: AdminState)
    ensures LoginRequest(urlInput, password).Err? ==> r == s.(notice := LoginRequest(urlInput, password).error)
    ensures LoginRequest(urlInput, password).Ok? ==> r.api == Trim(urlInput)
    ensures r.token != s.token ==> reply.LoginOk? && LoginRequest(urlInput, password).Ok?
    ensures LoginRequest(urlInput, password).Ok? && reply.LoginOk? ==>
              r.token == reply.token && r.savedUrl == Trim(urlInput) && r.hash == DASHBOARD && r.notice == ""
    ensures LoginRequest(urlInput, password).Ok? && reply.LoginRefused? ==>
              r == s.(api := Trim(urlInput), notice := if reply.error != "" then reply.error else "登入失敗")
    ensures LoginRequest(urlInput, password).Ok? && reply.LoginThrown? ==>
              r == s.(api := Trim(urlInput), notice := "連線失敗：" + reply.message)
  {
    match LoginRequest(urlInput, password)
    case Err(msg) => s.(notice := msg)
    case Ok(url) =>
      var withClient := s.(api := url, notice := "");
      match reply
      case LoginOk(t) => withClient.(savedUrl := url, token := t, hash := DASHBOARD)
      case LoginRefused(err) => withClient.(notice := if err != "" then err else "登入失敗")
      case LoginThrown(msg) => withClient.(notice := "連線失敗：" + msg)
  }

  /** `logout`: drop the token and the client and go to the login page. */
  function Logout(s: AdminState): (r: AdminState)
    ensures r.token == "" && r.api == "" && r.hash == LOGIN
    ensures r.(token := s.token, api := s.api, hash := s.hash) == s
  {
    s.(token := "", api := "", hash := LOGIN)
  }

  /** After logging out, routing shows the login page whatever the hash was. */
  lemma LogoutLeadsToLogin(s: AdminState)
    ensures Route(Logout(s)).page == LoginPage
  {
  }

  /** `loadTrips`: an authentication error ends the session before anything
      else is looked at; success replaces the list. */
  function LoadTrips(s: AdminState, reply: Reply<seq<TripSummary>>): (r: AdminState)
    ensures reply.Reply? && reply.authError ==> r == Logout(s)
    ensures reply.Reply? && !reply.authError && reply.success ==> r == s.(trips := reply.value)
    ensures reply.Reply? && !reply.authError && !reply.success ==> r == s.(notice := reply.error)
    ensures reply.Thrown? ==> r == s.(notice := "載入失敗：" + reply.message)
  {
    match reply
    case Reply(authError, success, v, err) =>
      if authError then Logout(s) else if success then s.(trips := v) else s.(notice := err)
    case Thrown(msg) => s.(notice := "載入失敗：" + msg)
  }

  /** An expense amount as the detail page sees it after `Number(...)`. */
  datatype Amount = Numeric(v: real) | NotANumber

  /** The detail page's NTD total: `Number(e.amountNTD) || 0` for each expense,
      so an amount that is not a number adds nothing. */
  function DetailTotal(amounts: seq<Amount>): (t: real)
    ensures (forall i :: 0 <= i < |amounts| ==> amounts[i].Numeric? ==> amounts[i].v >= 0.0) ==> t >= 0.0
    ensures |amounts| == 0 ==> t == 0.0
    ensures |amounts| == 1 ==> t == (if amounts[0].Numeric? then amounts[0].v else 0.0)
  {
    if |amounts| == 0 then 0.0
    else
      var last := amounts[|amounts| - 1];
      DetailTotal(amounts[..|amounts| - 1]) + (if last.Numeric? then last.v else 0.0)
  }

  /** The total is additive over concatenation: with the one-amount case of
      `DetailTotal`, the total is the sum of the numeric amounts. */
  lemma {:induction false} DetailTotalAppend(a: seq<Amount>, b: seq<Amount>)
    ensures DetailTotal(a + b) == DetailTotal(a) + DetailTotal(b)
    decreases |b|
  {
    if |b| == 0 {
      assert a + b == a;
    } else {
      assert (a + b)[..|a + b| - 1] == a + b[..|b| - 1];
      DetailTotalAppend(a, b[..|b| - 1]);
    }
  }

  /** Amounts that are not numbers can be dropped without changing the total. */
  lemma {:induction false} DetailTotalIgnoresNaN(amounts: seq<Amount>)
    ensures DetailTotal(Filter(amounts, (x: Amount) => x.Numeric?)) == DetailTotal(amounts)
  {
    if |amounts| > 0 {
      var init := amounts[..|amounts| - 1];
      DetailTotalIgnoresNaN(init);
      var f := Filter(init, (x: Amount) => x.Numeric?);
      if amounts[|amounts| - 1].Numeric? {
        assert (f + [amounts[|amounts| - 1]])[..|f|] == f;
      }
    }
  }

  /** `loadTripDetail`: as for the list, an authentication error ends the
      session first; success shows the detail. */
  function LoadTripDetail(s: AdminState, reply: Reply<seq<Amount>>): (r: (AdminState, Option<real>))
    ensures reply.Reply? && reply.authError ==> r == (Logout(s), None)
    ensures reply.Reply? && !reply.authError && reply.success ==> r == (s, Some(DetailTotal(reply.value)))
    ensures reply.Reply? && !reply.authError && !reply.success ==> r == (s.(notice := reply.error), None)
    ensures reply.Thrown? ==> r == (s.(notice := "載入失敗：" + reply.message), None)
  {
    match reply
    case Reply(authError, success, v, err) =>
      if authError then (Logout(s), None)
      else if success then (s, Some(DetailTotal(v)))
      else (s.(notice := err), None)
    case Thrown(msg) => (s.(notice := "載入失敗：" + msg), None)
  }

  /** `viewPhoto`: the image shown on success, `None` otherwise. */
  function ViewPhoto(s: AdminState, reply: Reply<string>): (r: (AdminState, Option<string>))
    ensures reply.Reply? && reply.authError ==> r == (Logout(s), None)
    ensures reply.Reply? && !reply.authError && reply.success ==> r == (s, Some(reply.value))
    ensures reply.Reply? && !reply.authError && !reply.success ==> r == (s.(notice := "載入失敗：" + reply.error), None)
    ensures reply.Thrown? ==> r == (s.(notice := "載入失敗：" + reply.message), None)
  {
    match reply
    case Reply(authError, success, v, err) =>
      if authError then (Logout(s), None)
      else if success then (s, Some(v))
      else (s.(notice := "載入失敗：" + err), None)
    case Thrown(msg) => (s.(notice := "載入失敗：" + msg), None)
  }

  /** The review request: the note is sent trimmed; nothing requires a note. */
  datatype ReviewRequest = ReviewRequest(token: string, tripCode: string, action: string, note: string)

  function MakeReviewRequest(s: AdminState, tripCode: string, action: string, noteInput: string): (q: ReviewRequest)
    ensures q.token == s.token && q.tripCode == tripCode && q.action == action
    ensures q.note == Trim(noteInput) && Trim(q.note) == q.note
    ensures q.note == "" <==> Blank(noteInput)
  {
    TrimIdempotent(noteInput);
    TrimEmptyIffBlank(noteInput);
    ReviewRequest(s.token, tripCode, action, Trim(noteInput))
  }

  /** `submitReview`: on success the detail of the reviewed trip is reloaded
      (`Some(tripCode)`); failures raise an alert with the reason. */
  function SubmitReview(s: AdminState, tripCode: string, reply: Reply<bool>): (r: (AdminState, Option<string>))
    ensures reply.Reply? && reply.authError ==> r == (Logout(s), None)
    ensures reply.Reply? && !reply.authError && reply.success ==> r == (s, Some(tripCode))
    ensures reply.Reply? && !reply.authError && !reply.success ==> r == (s.(notice := "審核失敗：" + reply.error), None)
    ensures reply.Thrown? ==> r == (s.(notice := "審核失敗：" + reply.message), None)
  {
    match reply
    case Reply(authError, success, _, err) =>
      if authError then (Logout(s), None)
      else if success then (s, Some(tripCode))
      else (s.(notice := "審核失敗：" + err), None)
    case Thrown(msg) => (s.(notice := "審核失敗：" + msg), None)
  }

  /** Whatever the call, an authentication error leaves no session behind and
      routes to the login page, even when the reply also claims success. */
  lemma AuthErrorAlwaysLogsOut<T>(s: AdminState, success: bool, trips: seq<TripSummary>, amounts: seq<Amount>,
                                  photo: string, err: string)
    ensures var a := LoadTrips(s, Reply(true, success, trips, err));
            a.token == "" && a.api == "" && Route(a).page == LoginPage
    ensures LoadTripDetail(s, Reply(true, success, amounts, err)).0.token == ""
    ensures ViewPhoto(s, Reply(true, success, photo, err)).0.token == ""
    ensures SubmitReview(s, s.currentTripCode, Reply(true, success, success, err)).0.token == ""
  {
  }

  /** `filterTrips` followed by `renderTrips`: the trips shown under a filter.
      `'all'` shows everything; any other filter shows exactly the trips with
      that status, in list order. The subtitle shows `|r|`. */
  function Visible(trips: seq<TripSummary>, filter: string): (r: seq<TripSummary>)
    ensures filter == "all" ==> r == trips
    ensures filter != "all" ==>
              && (forall i :: 0 <= i < |r| ==> r[i].status == filter && r[i] in trips)
              && (forall i :: 0 <= i < |trips| && trips[i].status == filter ==> trips[i] in r)
    ensures Subseq(r, trips)
  {
    if filter == "all" then SubseqRefl(trips); trips else Filter(trips, (t: TripSummary) => t.status == filter)
  }

  /** `filterTrips`: records the filter. */
  function FilterTrips(s: AdminState, filter: string): (r: AdminState)
    ensures r.filter == filter && Visible(r.trips, r.filter) == Visible(s.trips, filter)
    ensures r.(filter := s.filter) == s
  {
    s.(filter := filter)
  }

  /** Number of trips with the given status. */
  function CountStatus(trips: seq<TripSummary>, status: string): nat
  {
    if |trips| == 0 then 0
    else CountStatus(trips[..|trips| - 1], status) + (if trips[|trips| - 1].status == status then 1 else 0)
  }

  /** The filtered list has exactly as many entries as trips in that state. */
  lemma {:induction false} VisibleCount(trips: seq<TripSummary>, filter: string)
    requires filter != "all"
    ensures |Visible(trips, filter)| == CountStatus(trips, filter)
  {
    if |trips| > 0 {
      VisibleCount(trips[..|trips| - 1], filter);
    }
  }

  /** When every trip is in one of the four review states, the four filter
      tabs together list every trip exactly once. */
  lemma {:induction false} FiltersPartition(trips: seq<TripSummary>)
    requires forall i :: 0 <= i < |trips| ==> Upload.KnownStatus(trips[i].status)
    ensures |Visible(trips, "pending")| + |Visible(trips, "approved")|
            + |Visible(trips, "rejected")| + |Visible(trips, "needs_revision")| == |trips|
  {
    VisibleCount(trips, "pending");
    VisibleCount(trips, "approved");
    VisibleCount(trips, "rejected");
    VisibleCount(trips, "needs_revision");
    CountsPartition(trips);
  }

  lemma {:induction false} CountsPartition(trips: seq<TripSummary>)
    requires forall i :: 0 <= i < |trips| ==> Upload.KnownStatus(trips[i].status)
    ensures CountStatus(trips, "pending") + CountStatus(trips, "approved")
            + CountStatus(trips, "rejected") + CountStatus(trips, "needs_revision") == |trips|
  {
    if |trips| > 0 {
      CountsPartition(trips[..|trips| - 1]);
    }
  }

  /** `getStatusInfo`: the four review states have their own badge; any other
      status is shown gray with a question mark, labelled with the status
      itself or `'未知'` when there is none. A status naming an inherited object
      member skips that fallback, and every field renders as "undefined". */
  function GetStatusInfo(status: string): (b: Upload.Badge)
    ensures !Upload.KnownStatus(status) && !InheritedKey(status) ==> b.color == "gray" && b.icon == "❓"
    ensures !Upload.KnownStatus(status) && !InheritedKey(status) && status != "" ==> b.caption == status
    ensures status == "" ==> b.caption == "未知"
    ensures InheritedKey(status) ==> b == Upload.Badge(UNDEFINED, UNDEFINED, UNDEFINED)
    ensures Upload.KnownStatus(status) ==> b.color != "gray"
  {
    if status == "pending" then Upload.Badge("待審核", "yellow", "⏳")
    else if status == "approved" then Upload.Badge("已通過", "green", "✅")
    else if status == "rejected" then Upload.Badge("已退回", "red", "❌")
    else if status == "needs_revision" then Upload.Badge("需補件", "orange", "📝")
    else if InheritedKey(status) then Upload.Badge(UNDEFINED, UNDEFINED, UNDEFINED)
    else Upload.Badge(if status != "" then status else "未知", "gray", "❓")
  }

  /** The console and the traveller's status query show the same badge for
      every status except the missing one, which only the console names. */
  lemma StatusBadgesAgree(status: string)
    ensures status != "" ==> GetStatusInfo(status) == Upload.TripBadge(status)
    ensures GetStatusInfo("").caption != Upload.TripBadge("").caption
  {
  }
}

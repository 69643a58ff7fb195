/** public/js/profile.js: the values the profile page displays, the
    two-phase load (user info first, then seven metric queries together,
    all or nothing) and the page's entry guards, logout and graph rendering. */
module Profile {
  import opened Wrappers
  import opened Config
  import opened Numeric
  import opened Transport
  import opened Ranking
  import opened Queries
  import Session
  import Timeline
  import AuditChart

  /* ---------- display values ---------- */

  /** displayUserInfo: the login, or "Student" when it is empty. */
  function DisplayUserInfo(user: User): (name: string)
    ensures name != ""
    ensures user.login != "" ==> name == user.login
    ensures user.login == "" ==> name == "Student"
  {
    if user.login != "" then user.login else "Student"
  }

  /** The length of the level ring (radius 90). */
  const CIRCUMFERENCE: real := 2.0 * PI * 90.0

  /** The level's text and the ring's stroke-dashoffset: the part of the
      ring left undrawn. */
  datatype LevelView = LevelView(text: int, dashOffset: real)

  /** displayUserLevel: the whole level, and a ring drawn in proportion to
      the progress towards the next one. Level 0 writes the literal 565,
      within half a unit of the empty ring. */
  function DisplayUserLevel(level: real): (v: LevelView)
    ensures level == 0.0 ==> v == LevelView(0, 565.0)
    ensures level == 0.0 ==> CIRCUMFERENCE - 0.5 < v.dashOffset < CIRCUMFERENCE
    ensures level != 0.0 ==> v.text as real <= level < v.text as real + 1.0
    ensures level != 0.0 ==> 0.0 < v.dashOffset <= CIRCUMFERENCE
    ensures level != 0.0 ==> CIRCUMFERENCE - v.dashOffset == (level - v.text as real) * CIRCUMFERENCE
  {
    if level == 0.0 then LevelView(0, 565.0)
    else
      var wholeLevel := level.Floor;
      var progress := level - wholeLevel as real;
      LevelView(wholeLevel, CIRCUMFERENCE - progress * CIRCUMFERENCE)
  }

  /** Within one whole level, more progress leaves less of the ring undrawn. */
  lemma LevelRingFills(a: real, b: real)
    requires a != 0.0 && b != 0.0 && a.Floor == b.Floor && a <= b
    ensures DisplayUserLevel(b).dashOffset <= DisplayUserLevel(a).dashOffset
  {
    var w := a.Floor as real;
    assert (a - w) * CIRCUMFERENCE <= (b - w) * CIRCUMFERENCE;
  }

  /** Levels 3.25 and 7.75 show 3 with a quarter of the ring drawn and 7
      with three quarters. */
  lemma DisplayUserLevelExamples()
    ensures DisplayUserLevel(3.25) == LevelView(3, 0.75 * CIRCUMFERENCE)
    ensures DisplayUserLevel(7.75) == LevelView(7, 0.25 * CIRCUMFERENCE)
  {
    assert 3.25.Floor == 3;
    assert 7.75.Floor == 7;
  }

  /** displayTotalXP: " MB" with two decimals, " kB" with one, else the
      amount and " B". */
  function DisplayTotalXP(totalXP: int): (l: Label)
    ensures totalXP >= 1000000 ==> l == Fixed(totalXP as real / 1000000.0, 2, " MB")
    ensures 1000 <= totalXP < 1000000 ==> l == Fixed(totalXP as real / 1000.0, 1, " kB")
    ensures totalXP < 1000 ==> l == Plain(totalXP as real, " B")
  {
    Tiered(totalXP as real, 2, 1, " MB", " kB", " B")
  }

  /** The formatBytes inside displayAuditRatio: one decimal for both upper
      tiers, and a space before the unit. */
  function FormatAmount(bytes: real): (l: Label)
    ensures bytes >= 1000000.0 ==> l == Fixed(bytes / 1000000.0, 1, " MB")
    ensures 1000.0 <= bytes < 1000000.0 ==> l == Fixed(bytes / 1000.0, 1, " kB")
    ensures bytes < 1000.0 ==> l == Plain(bytes, " B")
  {
    Tiered(bytes, 1, 1, " MB", " kB", " B")
  }

  /** The audit panel: ratio text, the two amounts and the two bar widths
      (percent). */
  datatype AuditPanel = AuditPanel(ratioText: Label, doneText: Label, receivedText: Label, doneBar: real, receivedBar: real)

  /** "0.0", "0 B", "0 B" and empty bars. */
  const ZERO_PANEL: AuditPanel := AuditPanel(Fixed(0.0, 1, ""), Plain(0.0, " B"), Plain(0.0, " B"), 0.0, 0.0)

  /** displayAuditRatio. The ratio is written with one decimal. */
  function DisplayAuditRatio(auditData: Option<AuditStats>): (p: AuditPanel)
    ensures auditData.None? || auditData.value.ratio == 0.0 ==> p == ZERO_PANEL
    ensures auditData.Some? && auditData.value.ratio != 0.0 ==>
      var a := auditData.value;
      var total := (a.done + a.received) as real;
      && p.ratioText == Fixed(a.ratio, 1, "")
      && p.doneText == FormatAmount(a.done as real) && p.receivedText == FormatAmount(a.received as real)
      && (total == 0.0 ==> p.doneBar == 0.0 && p.receivedBar == 0.0)
      && (total > 0.0 ==>
            && p.doneBar + p.receivedBar == 100.0
            && p.doneBar * total == a.done as real * 100.0
            && p.receivedBar * total == a.received as real * 100.0)
  {
    if auditData.None? || auditData.value.ratio == 0.0 then ZERO_PANEL
    else
      var a := auditData.value;
      var total := (a.done + a.received) as real;
      var donePercent := if total > 0.0 then (a.done as real / total) * 100.0 else 0.0;
      var receivedPercent := if total > 0.0 then (a.received as real / total) * 100.0 else 0.0;
      if total > 0.0 then
        AuditChart.SharesComplete(a.done as real, a.received as real);
        AuditPanel(Fixed(a.ratio, 1, ""), FormatAmount(a.done as real), FormatAmount(a.received as real),
                   donePercent, receivedPercent)
      else
        AuditPanel(Fixed(a.ratio, 1, ""), FormatAmount(a.done as real), FormatAmount(a.received as real),
                   donePercent, receivedPercent)
  }

  /** The `userData` record. */
  datatype UserData = UserData(
    userInfo: Option<User>, totalXP: int, userLevel: real, projects: seq<ProgressRow>,
    ranking: Option<Standing>, auditsDone: nat, xpTimeline: seq<Transaction>, auditRatio: Option<AuditStats>)

  /** Its value when the page starts. */
  const INITIAL_USER_DATA: UserData := UserData(None, 0, 0.0, [], None, 0, [], None)

  /** Everything the display functions write. The ranking is loaded but not
      displayed. */
  datatype ProfileView = ProfileView(
    username: string, level: LevelView, totalXP: Label, projects: nat, auditsDone: nat, audit: AuditPanel)

  /** The six display calls on loaded data. */
  function Display(d: UserData): (v: ProfileView)
    requires d.userInfo.Some?
    ensures v.username != "" && (d.userInfo.value.login != "" ==> v.username == d.userInfo.value.login)
    ensures v.projects == |d.projects| && v.auditsDone == d.auditsDone
    ensures v.level == DisplayUserLevel(d.userLevel) && v.totalXP == DisplayTotalXP(d.totalXP)
    ensures v.audit == DisplayAuditRatio(d.auditRatio)
  {
    ProfileView(DisplayUserInfo(d.userInfo.value), DisplayUserLevel(d.userLevel), DisplayTotalXP(d.totalXP),
                |d.projects|, d.auditsDone, DisplayAuditRatio(d.auditRatio))
  }

  /* ---------- the load ---------- */

  /** The eight queries, named by the fetch that issues them. */
  datatype QueryKind =
    | UserInfoQuery | TotalXPQuery | LevelQuery | ProjectsQuery
    | RankingQuery | AuditsDoneQuery | TimelineQuery | AuditRatioQuery

  /** What the server answers to each query. */
  datatype Server = Server(
    userInfo: Response<UserInfoData>, totalXP: Response<XPSumData>, level: Response<LevelData>,
    projects: Response<ProgressData>, ranking: Response<RankingData>, auditsDone: Response<AuditCountData>,
    timeline: Response<TimelineData>, auditRatio: Response<AuditUsersData>)

  /** The seven settled fetches of the `Promise.all`. */
  datatype Batch = Batch(
    totalXP: Fetched<int>, level: Fetched<real>, projects: Fetched<seq<ProgressRow>>, ranking: Fetched<Standing>,
    auditsDone: Fetched<nat>, timeline: Fetched<seq<Transaction>>, auditRatio: Fetched<AuditStats>)

  /** The seven fetches, each reading the same stored event id and token. */
  function FanOut(eventId: Option<string>, token: Option<string>, s: Server): (b: Batch)
    ensures b.level.result.Success? && b.ranking.result.Success? && b.auditsDone.result.Success?
    ensures b.ranking.result.value.rank <= b.ranking.result.value.total
    ensures b.projects.sent == b.auditsDone.sent == b.auditRatio.sent == Truthy(token)
  {
    Batch(FetchTotalXP(eventId, token, s.totalXP), FetchUserLevel(eventId, token, s.level),
          FetchProjectsCompleted(token, s.projects), FetchUserRanking(eventId, token, s.ranking),
          FetchAuditsDone(token, s.auditsDone), FetchXPTimeline(eventId, token, s.timeline),
          FetchAuditRatio(token, s.auditRatio))
  }

  /** `Promise.all` resolves only when every fetch does. */
  predicate BatchSucceeded(b: Batch) {
    && b.totalXP.result.Success? && b.level.result.Success? && b.projects.result.Success?
    && b.ranking.result.Success? && b.auditsDone.result.Success? && b.timeline.result.Success?
    && b.auditRatio.result.Success?
  }

  function SentIf(sent: bool, q: QueryKind): seq<QueryKind> {
    if sent then [q] else []
  }

  /** The requests the batch puts on the network, in the array's order. */
  function BatchRequests(b: Batch): (r: seq<QueryKind>)
    ensures |r| <= 7
    ensures UserInfoQuery !in r
  {
    var r1 := SentIf(b.totalXP.sent, TotalXPQuery);
    SentIfShape(b.totalXP.sent, TotalXPQuery);
    var r2 := r1 + SentIf(b.level.sent, LevelQuery);
    AppendSentIf(r1, b.level.sent, LevelQuery, 1);
    var r3 := r2 + SentIf(b.projects.sent, ProjectsQuery);
    AppendSentIf(r2, b.projects.sent, ProjectsQuery, 2);
    var r4 := r3 + SentIf(b.ranking.sent, RankingQuery);
    AppendSentIf(r3, b.ranking.sent, RankingQuery, 3);
    var r5 := r4 + SentIf(b.auditsDone.sent, AuditsDoneQuery);
    AppendSentIf(r4, b.auditsDone.sent, AuditsDoneQuery, 4);
    var r6 := r5 + SentIf(b.timeline.sent, TimelineQuery);
    AppendSentIf(r5, b.timeline.sent, TimelineQuery, 5);
    AppendSentIf(r6, b.auditRatio.sent, AuditRatioQuery, 6);
    r6 + SentIf(b.auditRatio.sent, AuditRatioQuery)
  }

  /** Only the four fetches without a try/catch can fail the batch, and the
      two of them that need an event id only when one is stored. */
  lemma FanOutSucceeds(eventId: Option<string>, token: Option<string>, s: Server)
    ensures BatchSucceeded(FanOut(eventId, token, s)) <==>
      && (Truthy(eventId) ==> ExecuteGraphQLQuery(token, s.totalXP).result.Success?)
      && ExecuteGraphQLQuery(token, s.projects).result.Success?
      && (Truthy(eventId) ==> ExecuteGraphQLQuery(token, s.timeline).result.Success?)
      && ExecuteGraphQLQuery(token, s.auditRatio).result.Success?
  {
  }

  /** With a token, all seven requests go out in the array's order when an
      event id is stored, and only the three that do not need one when none
      is; without a token, none goes out. */
  lemma FanOutRequests(eventId: Option<string>, token: Option<string>, s: Server)
    ensures var r := BatchRequests(FanOut(eventId, token, s));
      && (Truthy(token) && Truthy(eventId) ==>
            r == [TotalXPQuery, LevelQuery, ProjectsQuery, RankingQuery, AuditsDoneQuery, TimelineQuery, AuditRatioQuery])
      && (Truthy(token) && !Truthy(eventId) ==> r == [ProjectsQuery, AuditsDoneQuery, AuditRatioQuery])
      && (!Truthy(token) ==> r == [])
  {
  }

  /** The record assembled from the user row and a resolved batch. */
  function Loaded(user: User, b: Batch): (d: UserData)
    requires BatchSucceeded(b)
    ensures d.userInfo == Some(user)
  {
    UserData(Some(user), b.totalXP.result.value, b.level.result.value, b.projects.result.value,
             Some(b.ranking.result.value), b.auditsDone.result.value, b.timeline.result.value,
             Some(b.auditRatio.result.value))
  }

  /** What a load leaves behind: the storage, the requests issued in order,
      and the loaded record, or None when the load was caught. */
  datatype Outcome = Outcome(items: map<string, string>, requests: seq<QueryKind>, loaded: Option<UserData>)

  /** loadUserData from the storage it starts with: user info first; then,
      from the storage that fetch left, the seven fetches; any rejection
      clears the session. */
  function Load(items: map<string, string>, s: Server): (o: Outcome)
    ensures o.loaded.Some? ==> o.loaded.value.userInfo.Some?
  {
    var info := UserInfoResult(Session.Lookup(items, TOKEN_KEY), s.userInfo);
    var first := SentIf(info.sent, UserInfoQuery);
    if info.result.Failure? then
      Outcome(items - {TOKEN_KEY, USER_ID_KEY}, first, None)
    else
      var mid := AfterUserInfo(items, info);
      var b := FanOut(Session.Lookup(mid, EVENT_ID_KEY), Session.Lookup(mid, TOKEN_KEY), s);
      var requests := first + BatchRequests(b);
      if BatchSucceeded(b) then Outcome(mid, requests, Some(Loaded(info.result.value, b)))
      else Outcome(mid - {TOKEN_KEY, USER_ID_KEY}, requests, None)
  }

  /** Load, step by step: the outcome of each of its two phases. */
  lemma LoadSteps(items: map<string, string>, s: Server, info: Fetched<User>, mid: map<string, string>, b: Batch)
    requires info == UserInfoResult(Session.Lookup(items, TOKEN_KEY), s.userInfo)
    requires mid == AfterUserInfo(items, info)
    requires b == FanOut(Session.Lookup(mid, EVENT_ID_KEY), Session.Lookup(mid, TOKEN_KEY), s)
    ensures info.result.Failure? ==>
      Load(items, s) == Outcome(items - {TOKEN_KEY, USER_ID_KEY}, SentIf(info.sent, UserInfoQuery), None)
    ensures info.result.Success? && !BatchSucceeded(b) ==>
      Load(items, s) == Outcome(mid - {TOKEN_KEY, USER_ID_KEY}, SentIf(info.sent, UserInfoQuery) + BatchRequests(b), None)
    ensures info.result.Success? && BatchSucceeded(b) ==>
      Load(items, s) == Outcome(mid, SentIf(info.sent, UserInfoQuery) + BatchRequests(b), Some(Loaded(info.result.value, b)))
  {
  }

  /** The user-info request is the first request and the only one issued
      before that fetch has succeeded; at most eight go out. */
  lemma LoadUserInfoFirst(items: map<string, string>, s: Server)
    ensures var o := Load(items, s);
      && |o.requests| <= 8
      && (o.requests != [] ==> o.requests[0] == UserInfoQuery)
      && (forall i :: 0 < i < |o.requests| ==> o.requests[i] != UserInfoQuery)
      && (|o.requests| > 1 ==> UserInfoResult(Session.Lookup(items, TOKEN_KEY), s.userInfo).result.Success?)
  {
    var info := UserInfoResult(Session.Lookup(items, TOKEN_KEY), s.userInfo);
    var first := SentIf(info.sent, UserInfoQuery);
    if info.result.Success? {
      var mid := AfterUserInfo(items, info);
      var b := FanOut(Session.Lookup(mid, EVENT_ID_KEY), Session.Lookup(mid, TOKEN_KEY), s);
      var r := BatchRequests(b);
      assert Load(items, s).requests == first + r;
      forall i | 0 < i < |first + r|
        ensures (first + r)[i] != UserInfoQuery
      {
        assert (first + r)[i] == r[i - |first|];
      }
    }
  }

  /** One more request that may go out, after at most n others. */
  lemma AppendSentIf(r: seq<QueryKind>, sent: bool, q: QueryKind, n: nat)
    requires |r| <= n && UserInfoQuery !in r && q != UserInfoQuery
    ensures |r + SentIf(sent, q)| <= n + 1 && UserInfoQuery !in r + SentIf(sent, q)
  {
    SentIfShape(sent, q);
  }

  lemma SentIfShape(sent: bool, q: QueryKind)
    ensures |SentIf(sent, q)| <= 1
    ensures forall k :: k in SentIf(sent, q) ==> k == q
  {
  }

  /** Without a stored token nothing is requested and the load is caught. */
  lemma LoadWithoutToken(items: map<string, string>, s: Server)
    requires !Truthy(Session.Lookup(items, TOKEN_KEY))
    ensures Load(items, s) == Outcome(items - {TOKEN_KEY, USER_ID_KEY}, [], None)
  {
  }

  /** A caught load removes the token and user id; a successful one keeps
      them, and writes nothing but the event id. */
  lemma LoadSession(items: map<string, string>, s: Server)
    ensures var o := Load(items, s);
      && (o.loaded.None? ==> TOKEN_KEY !in o.items && USER_ID_KEY !in o.items)
      && (o.loaded.Some? ==>
            && (forall k :: k != EVENT_ID_KEY ==> (k in o.items <==> k in items))
            && (forall k :: k != EVENT_ID_KEY && k in items ==> o.items[k] == items[k]))
  {
    var info := UserInfoResult(Session.Lookup(items, TOKEN_KEY), s.userInfo);
  }

  /** The load fails exactly when the user-info fetch does or one of the
      four fetches without a try/catch does; the level, ranking and
      audits-done answers cannot make it fail. */
  lemma LoadFailsExactly(items: map<string, string>, s: Server)
    ensures var token := Session.Lookup(items, TOKEN_KEY);
      var info := UserInfoResult(token, s.userInfo);
      Load(items, s).loaded.None? <==>
        || info.result.Failure?
        || (var eventId := Session.Lookup(AfterUserInfo(items, info), EVENT_ID_KEY);
            || (Truthy(eventId) && ExecuteGraphQLQuery(token, s.totalXP).result.Failure?)
            || ExecuteGraphQLQuery(token, s.projects).result.Failure?
            || (Truthy(eventId) && ExecuteGraphQLQuery(token, s.timeline).result.Failure?)
            || ExecuteGraphQLQuery(token, s.auditRatio).result.Failure?)
  {
    var token := Session.Lookup(items, TOKEN_KEY);
    var info := UserInfoResult(token, s.userInfo);
    if info.result.Success? {
      var mid := AfterUserInfo(items, info);
      assert Session.Lookup(mid, TOKEN_KEY) == token;
      FanOutSucceeds(Session.Lookup(mid, EVENT_ID_KEY), token, s);
    }
  }

  /** Whatever the server answers to the three caught queries, the load
      succeeds or fails alike. */
  lemma CaughtQueriesCannotFailLoad(items: map<string, string>, s: Server,
                                    level: Response<LevelData>, ranking: Response<RankingData>,
                                    auditsDone: Response<AuditCountData>)
    ensures Load(items, s).loaded.Some? <==>
      Load(items, s.(level := level, ranking := ranking, auditsDone := auditsDone)).loaded.Some?
  {
    LoadFailsExactly(items, s);
    LoadFailsExactly(items, s.(level := level, ranking := ranking, auditsDone := auditsDone));
  }

  /** On success the record holds the user row and the seven results under
      their names, with a standing whose rank is at most its total and only
      project rows. */
  lemma LoadedRecord(items: map<string, string>, s: Server)
    requires Load(items, s).loaded.Some?
    ensures var d := Load(items, s).loaded.value;
      var token := Session.Lookup(items, TOKEN_KEY);
      var info := UserInfoResult(token, s.userInfo);
      var eventId := Session.Lookup(AfterUserInfo(items, info), EVENT_ID_KEY);
      && info.result.Success? && d.userInfo == Some(info.result.value)
      && d.totalXP == FetchTotalXP(eventId, token, s.totalXP).result.value
      && d.userLevel == FetchUserLevel(eventId, token, s.level).result.value
      && d.projects == FetchProjectsCompleted(token, s.projects).result.value
      && d.ranking == Some(FetchUserRanking(eventId, token, s.ranking).result.value)
      && d.auditsDone == FetchAuditsDone(token, s.auditsDone).result.value
      && d.xpTimeline == FetchXPTimeline(eventId, token, s.timeline).result.value
      && d.auditRatio == Some(FetchAuditRatio(token, s.auditRatio).result.value)
      && d.ranking.value.rank <= d.ranking.value.total
      && (forall p :: p in d.projects ==> IsProject(p))
  {
    var token := Session.Lookup(items, TOKEN_KEY);
    var info := UserInfoResult(token, s.userInfo);
    assert Session.Lookup(AfterUserInfo(items, info), TOKEN_KEY) == token;
  }

  /** clearAuthData leaves the event id in storage: when the next user's
      row resolves no event id, the dependent fetches use the one stored
      before, and query it. */
  lemma StaleEventIdIsUsed(items: map<string, string>, s: Server, stale: string)
    requires TOKEN_KEY in items && items[TOKEN_KEY] != ""
    requires items[EVENT_ID_KEY := stale] == items && stale != ""
    requires UserInfoResult(Session.Lookup(items, TOKEN_KEY), s.userInfo).result.Success?
    requires ResolveEventId(UserInfoResult(Session.Lookup(items, TOKEN_KEY), s.userInfo).result.value).None?
    ensures Load(items, s).requests ==
      [UserInfoQuery, TotalXPQuery, LevelQuery, ProjectsQuery, RankingQuery, AuditsDoneQuery, TimelineQuery, AuditRatioQuery]
  {
    assert EVENT_ID_KEY in items && items[EVENT_ID_KEY] == stale by {
      assert EVENT_ID_KEY in items[EVENT_ID_KEY := stale];
    }
    var info := UserInfoResult(Session.Lookup(items, TOKEN_KEY), s.userInfo);
    assert AfterUserInfo(items, info) == items;
    FanOutRequests(Some(stale), Some(items[TOKEN_KEY]), s);
  }

  /* ---------- the page ---------- */

  /** What the page shows: nothing yet, the loading texts, or the loaded
      values. */
  datatype Screen = Blank | Loading | Shown(view: ProfileView)

  /** Where `window.location` points. */
  datatype Location = OnProfile | ToLogin

  /** The two rendered graphs. */
  datatype Graphs = Graphs(xp: Timeline.TimelineGraph, audit: AuditChart.AuditGraph)

  /** The profile page: the session store, the global `userData`, and what
      the page has done so far. */
  class ProfilePage {
    const store: Session.Storage
    var userData: UserData
    var screen: Screen
    var alerted: bool
    var location: Location
    var logoutBound: bool
    var requests: seq<QueryKind>
    var graphs: Option<Graphs>

    constructor (store: Session.Storage)
      ensures this.store == store && userData == INITIAL_USER_DATA && screen == Blank
      ensures !alerted && location == OnProfile && !logoutBound && requests == [] && graphs == None
    {
      this.store := store;
      userData := INITIAL_USER_DATA;
      screen := Blank;
      alerted := false;
      location := OnProfile;
      logoutBound := false;
      requests := [];
      graphs := None;
    }

    /** How loadUserData settles: a resolved load assigns `userData` and
        shows its values; a rejected one runs the catch block, which alerts,
        clears the session and goes to the login page. */
    method Settle(loaded: Option<UserData>)
      requires loaded.Some? ==> loaded.value.userInfo.Some?
      modifies this, store
      ensures loaded.Some? ==>
        && store.items == old(store.items) && userData == loaded.value && screen == Shown(Display(loaded.value))
        && alerted == old(alerted) && location == old(location)
      ensures loaded.None? ==>
        && store.items == old(store.items) - {TOKEN_KEY, USER_ID_KEY} && userData == old(userData)
        && screen == old(screen) && alerted && location == ToLogin
      ensures logoutBound == old(logoutBound) && requests == old(requests) && graphs == old(graphs)
    {
      if loaded.Some? {
        userData := loaded.value;
        screen := Shown(Display(userData));
      } else {
        alerted := true;
        store.ClearAuthData();
        location := ToLogin;
      }
    }

    /** loadUserData. */
    method LoadUserData(server: Server)
      modifies this, store
      ensures var o := Load(old(store.items), server);
        && store.items == o.items
        && requests == old(requests) + o.requests
        && (o.loaded.Some? ==>
              && userData == o.loaded.value && screen == Shown(Display(o.loaded.value))
              && alerted == old(alerted) && location == old(location))
        && (o.loaded.None? ==> userData == old(userData) && screen == Loading && alerted && location == ToLogin)
      ensures logoutBound == old(logoutBound) && graphs == old(graphs)
    {
      ghost var items0 := store.items;
      screen := Loading;
      var info := FetchUserInfo(store, server.userInfo);
      ghost var mid := store.items;
      var first := SentIf(info.sent, UserInfoQuery);
      if info.result.Failure? {
        LoadSteps(items0, server, info, mid, FanOut(Session.Lookup(mid, EVENT_ID_KEY), Session.Lookup(mid, TOKEN_KEY), server));
        ghost var o := Load(items0, server);
        assert o.items == items0 - {TOKEN_KEY, USER_ID_KEY} && o.requests == first && o.loaded.None?;
        requests := requests + first;
        Settle(None);
      } else {
        var eventId := store.GetItem(EVENT_ID_KEY);
        var token := store.RetrieveAuthToken();
        var batch := FanOut(eventId, token, server);
        LoadSteps(items0, server, info, mid, batch);
        ghost var o := Load(items0, server);
        assert o.requests == first + BatchRequests(batch);
        requests := requests + (first + BatchRequests(batch));
        if BatchSucceeded(batch) {
          Settle(Some(Loaded(info.result.value, batch)));
        } else {
          Settle(None);
        }
      }
    }

    /** displayAllGraphs, with its timer fired: both graphs from the current
        `userData`. */
    method DisplayAllGraphs()
      modifies this
      ensures graphs.Some? && Timeline.Renders(Some(userData.xpTimeline), graphs.value.xp)
      ensures graphs.value.audit == AuditChart.RenderAuditRatioGraph(userData.auditRatio)
      ensures userData == old(userData) && screen == old(screen) && alerted == old(alerted)
      ensures location == old(location) && logoutBound == old(logoutBound) && requests == old(requests)
    {
      var xp := Timeline.RenderXPTimelineGraph(Some(userData.xpTimeline));
      graphs := Some(Graphs(xp, AuditChart.RenderAuditRatioGraph(userData.auditRatio)));
    }

    /** The logout button's handler. */
    method Logout()
      requires logoutBound
      modifies this, store
      ensures store.items == old(store.items) - {TOKEN_KEY, USER_ID_KEY}
      ensures location == ToLogin
      ensures userData == old(userData) && screen == old(screen) && alerted == old(alerted)
      ensures logoutBound && requests == old(requests) && graphs == old(graphs)
    {
      store.ClearAuthData();
      location := ToLogin;
    }

    /** The DOMContentLoaded handler: without a token, redirect; with a token
        but no user id, clear the session and redirect; otherwise bind
        logout, load, then render the graphs, even after a caught load. */
    method OnPageLoaded(server: Server)
      modifies this, store
      ensures !old(store.CheckIfAuthenticated()) ==>
        && store.items == old(store.items) && location == ToLogin
        && userData == old(userData) && screen == old(screen) && alerted == old(alerted)
        && logoutBound == old(logoutBound) && requests == old(requests) && graphs == old(graphs)
      ensures old(store.CheckIfAuthenticated()) && !Truthy(old(store.RetrieveUserID())) ==>
        && store.items == old(store.items) - {TOKEN_KEY, USER_ID_KEY} && location == ToLogin
        && userData == old(userData) && screen == old(screen) && alerted == old(alerted)
        && logoutBound == old(logoutBound) && requests == old(requests) && graphs == old(graphs)
      ensures old(store.CheckIfAuthenticated()) && Truthy(old(store.RetrieveUserID())) ==>
        var o := Load(old(store.items), server);
        && logoutBound
        && store.items == o.items
        && requests == old(requests) + o.requests
        && (o.loaded.Some? ==>
              && userData == o.loaded.value && screen == Shown(Display(o.loaded.value))
              && alerted == old(alerted) && location == old(location))
        && (o.loaded.None? ==> userData == old(userData) && screen == Loading && alerted && location == ToLogin)
        && graphs.Some? && Timeline.Renders(Some(userData.xpTimeline), graphs.value.xp)
        && graphs.value.audit == AuditChart.RenderAuditRatioGraph(userData.auditRatio)
    {
      if !store.CheckIfAuthenticated() {
        location := ToLogin;
        return;
      }
      var userId := store.RetrieveUserID();
      if !Truthy(userId) {
        store.ClearAuthData();
        location := ToLogin;
        return;
      }
      logoutBound := true;
      LoadUserData(server);
      DisplayAllGraphs();
    }
  }

  /** A caught load on a fresh page renders both placeholders. */
  lemma CaughtLoadShowsPlaceholders(g: Timeline.TimelineGraph)
    requires Timeline.Renders(Some(INITIAL_USER_DATA.xpTimeline), g)
    ensures g == Timeline.NoXPData
    ensures AuditChart.RenderAuditRatioGraph(INITIAL_USER_DATA.auditRatio) == AuditChart.NoAuditData
  {
  }
}

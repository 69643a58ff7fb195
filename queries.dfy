/** The metric queries of graphql/public/js/graphql.js. Each fetch is a
    function of the stored event id, the stored token and the server's
    abstract response; fetchUserInfo, which writes the event id to
    localStorage, is a method on the session store. */
module Queries {
  import opened Wrappers
  import opened Transport
  import opened Config
  import opened Numeric
  import opened Ranking
  import Session

  /* ---------- the rows the queries select ---------- */

  datatype Cohort = Cohort(eventId: Option<int>)
  datatype Event = Event(cohorts: seq<Cohort>)
  datatype User = User(id: int, login: string, email: string, events: seq<Event>)
  datatype UserInfoData = UserInfoData(user: seq<User>)

  /** `transaction_aggregate.aggregate.sum.amount`, null when no row matches. */
  datatype XPSumData = XPSumData(amount: Option<int>)

  /** A progress row; `kind` is the object's `type` field. */
  datatype ProgressObject = ProgressObject(id: int, name: string, kind: string)
  datatype ProgressRow = ProgressRow(id: int, grade: int, obj: ProgressObject)
  datatype ProgressData = ProgressData(progress: seq<ProgressRow>)

  /** An XP transaction; `createdAt` is its time in milliseconds, the value
      `new Date(createdAt)` stands for (the text's parsing is not modelled). */
  datatype Transaction = Transaction(amount: int, createdAt: int, path: string)
  datatype TimelineData = TimelineData(transaction: seq<Transaction>)

  datatype AuditUser = AuditUser(auditRatio: Option<real>, totalUp: Option<nat>, totalDown: Option<nat>)
  datatype AuditUsersData = AuditUsersData(user: seq<AuditUser>)

  /** The `{ratio, done, received}` record. */
  datatype AuditStats = AuditStats(ratio: real, done: nat, received: nat)

  datatype LevelRow = LevelRow(amount: Option<real>)
  datatype LevelData = LevelData(transaction: seq<LevelRow>)

  datatype AuditCountData = AuditCountData(count: Option<nat>)

  /* ---------- the two failure policies ---------- */

  /** A fetch without try/catch: the query's rejection is the fetch's. */
  function Propagating<D, T>(token: Option<string>, response: Response<D>, extract: D -> T): (f: Fetched<T>)
    ensures f.sent <==> Truthy(token)
    ensures f.result.Success? <==> ExecuteGraphQLQuery(token, response).result.Success?
    ensures f.result.Success? ==> response.Delivered? && f.result.value == extract(response.data)
    ensures f.result.Failure? ==> f.result.error == ExecuteGraphQLQuery(token, response).result.error
  {
    var e := ExecuteGraphQLQuery(token, response);
    match e.result
    case Success(data) => Fetched(Success(extract(data)), e.sent)
    case Failure(err) => Fetched(Failure(err), e.sent)
  }

  /** A fetch whose try/catch turns any rejection into a default value. */
  function Caught<D, T>(token: Option<string>, response: Response<D>, extract: D -> T, default: T): (f: Fetched<T>)
    ensures f.sent <==> Truthy(token)
    ensures f.result.Success?
    ensures ExecuteGraphQLQuery(token, response).result.Success? ==>
      response.Delivered? && f.result.value == extract(response.data)
    ensures ExecuteGraphQLQuery(token, response).result.Failure? ==> f.result.value == default
  {
    var e := ExecuteGraphQLQuery(token, response);
    match e.result
    case Success(data) => Fetched(Success(extract(data)), e.sent)
    case Failure(_) => Fetched(Success(default), e.sent)
  }

  /* ---------- QUERY 1: user info and the current event id ---------- */

  /** `events.flatMap(e => e.cohorts).map(c => c.eventId)`. */
  function CohortEventIds(events: seq<Event>): (ids: seq<Option<int>>)
    ensures forall ev, c :: ev in events && c in ev.cohorts ==> c.eventId in ids
    ensures (forall ev, c :: ev in events && c in ev.cohorts ==> c.eventId.None?) ==>
      forall e :: e in ids ==> e.None?
  {
    if events == [] then [] else CohortIds(events[0].cohorts) + CohortEventIds(events[1..])
  }

  /** `.map(c => c.eventId)` over one event's cohorts. */
  function CohortIds(cohorts: seq<Cohort>): (ids: seq<Option<int>>)
    ensures |ids| == |cohorts|
    ensures forall c :: c in cohorts ==> c.eventId in ids
    ensures (forall c :: c in cohorts ==> c.eventId.None?) ==> forall e :: e in ids ==> e.None?
  {
    if cohorts == [] then [] else [cohorts[0].eventId] + CohortIds(cohorts[1..])
  }

  /** The flattening keeps event order and, within an event, cohort order. */
  lemma {:induction false} CohortEventIdsConcat(a: seq<Event>, b: seq<Event>)
    ensures CohortEventIds(a + b) == CohortEventIds(a) + CohortEventIds(b)
  {
    if a == [] {
      assert a + b == b;
    } else {
      assert (a + b)[1..] == a[1..] + b;
      CohortEventIdsConcat(a[1..], b);
    }
  }

  lemma {:induction false} CohortIdsAt(cohorts: seq<Cohort>, i: nat)
    requires i < |cohorts|
    ensures CohortIds(cohorts)[i] == cohorts[i].eventId
  {
    if i > 0 {
      CohortIdsAt(cohorts[1..], i - 1);
    }
  }

  /** `.find(id => id !== null && id !== undefined)`, as an index: the first
      position holding an id, or the length when there is none. */
  function FirstPresentIndex(ids: seq<Option<int>>): (k: nat)
    ensures k <= |ids|
    ensures forall j :: 0 <= j < k ==> ids[j].None?
    ensures k < |ids| ==> ids[k].Some?
  {
    if ids == [] then 0 else if ids[0].Some? then 0 else 1 + FirstPresentIndex(ids[1..])
  }

  /** The id `.find` returns: the first present one, or undefined. */
  function FirstPresent(ids: seq<Option<int>>): (e: Option<int>)
    ensures e.None? <==> forall i :: 0 <= i < |ids| ==> ids[i].None?
    ensures e.Some? ==> exists k :: 0 <= k < |ids| && ids[k] == e && forall j :: 0 <= j < k ==> ids[j].None?
  {
    var k := FirstPresentIndex(ids);
    if k < |ids| then ids[k] else None
  }

  /** The current event id: the first cohort event id that is neither null
      nor undefined, events in order and cohorts in order within each. */
  function ResolveEventId(user: User): (id: Option<int>)
    ensures id.None? <==> forall ev, c :: ev in user.events && c in ev.cohorts ==> c.eventId.None?
  {
    FirstPresent(CohortEventIds(user.events))
  }

  /** An event whose first cohort carries an id fixes the result when every
      earlier event has no id at all. */
  lemma ResolveSkipsEmptyEvents(earlier: seq<Event>, cohorts: seq<Cohort>, later: seq<Event>, id: int, login: string, email: string, uid: int)
    requires forall i :: 0 <= i < |CohortEventIds(earlier)| ==> CohortEventIds(earlier)[i].None?
    requires cohorts != [] && cohorts[0].eventId == Some(id)
    ensures ResolveEventId(User(uid, login, email, earlier + [Event(cohorts)] + later)) == Some(id)
  {
    var a, b, c := CohortEventIds(earlier), CohortIds(cohorts), CohortEventIds(later);
    CohortEventIdsConcat(earlier + [Event(cohorts)], later);
    CohortEventIdsConcat(earlier, [Event(cohorts)]);
    assert CohortEventIds([Event(cohorts)]) == b by {
      assert [Event(cohorts)][1..] == [];
    }
    CohortIdsAt(cohorts, 0);
    FirstPresentAfterNulls(a, b, c, id);
  }

  /** Nulls before an id do not hide it from `.find`. */
  lemma FirstPresentAfterNulls(a: seq<Option<int>>, b: seq<Option<int>>, c: seq<Option<int>>, id: int)
    requires forall i :: 0 <= i < |a| ==> a[i].None?
    requires b != [] && b[0] == Some(id)
    ensures FirstPresent(a + b + c) == Some(id)
  {
    var ids := a + b + c;
    var n := |a|;
    assert ids[n] == Some(id);
    forall j | 0 <= j < n ensures ids[j].None? {
      assert ids[j] == a[j];
    }
    assert FirstPresentIndex(ids) == n;
  }

  /** What fetchUserInfo writes: String(id), and only for a truthy id (an
      id of 0 is falsy and is not stored). */
  function StoredEventId(e: Option<int>): (s: Option<string>)
    ensures Truthy(s) <==> e.Some? && e.value != 0
    ensures s.Some? ==> e.Some? && s.value == IntToString(e.value)
  {
    if e.Some? && e.value != 0 then Some(IntToString(e.value)) else None
  }

  /** The user row fetchUserInfo returns: `data.user[0]`; a missing row makes
      `user.events` throw a TypeError. Failures propagate. */
  function UserInfoResult(token: Option<string>, response: Response<UserInfoData>): (f: Fetched<User>)
    ensures f.sent <==> Truthy(token)
    ensures f.result.Success? <==>
      ExecuteGraphQLQuery(token, response).result.Success? && |response.data.user| > 0
    ensures f.result.Success? ==> f.result.value == response.data.user[0]
  {
    var e := ExecuteGraphQLQuery(token, response);
    match e.result
    case Failure(err) => Fetched(Failure(err), e.sent)
    case Success(data) =>
      if |data.user| > 0 then Fetched(Success(data.user[0]), e.sent) else Fetched(Failure(TypeError), e.sent)
  }

  /** The storage after fetchUserInfo settles: no key but EVENT_ID_KEY is
      written, and it is written, with `String(id)`, exactly when the user
      row resolved a truthy id; the text read back is then truthy. */
  function AfterUserInfo(items: map<string, string>, f: Fetched<User>): (after: map<string, string>)
    ensures forall k :: k != EVENT_ID_KEY ==> (k in after <==> k in items) && (k in items ==> after[k] == items[k])
    ensures (f.result.Success? && ResolveEventId(f.result.value).Some? && ResolveEventId(f.result.value).value != 0) ==>
      EVENT_ID_KEY in after && after[EVENT_ID_KEY] == IntToString(ResolveEventId(f.result.value).value)
      && after[EVENT_ID_KEY] != ""
    ensures !(f.result.Success? && ResolveEventId(f.result.value).Some? && ResolveEventId(f.result.value).value != 0) ==>
      after == items
  {
    if f.result.Success? then
      match StoredEventId(ResolveEventId(f.result.value))
      case Some(s) => items[EVENT_ID_KEY := s]
      case None => items
    else items
  }

  /** fetchUserInfo: run the query with the stored token, take the user row
      and store its current event id. */
  method FetchUserInfo(store: Session.Storage, response: Response<UserInfoData>) returns (f: Fetched<User>)
    modifies store
    ensures f == UserInfoResult(Session.Lookup(old(store.items), TOKEN_KEY), response)
    ensures store.items == AfterUserInfo(old(store.items), f)
  {
    var token := store.RetrieveAuthToken();
    f := UserInfoResult(token, response);
    if f.result.Success? {
      var eventId := ResolveEventId(f.result.value);
      if eventId.Some? && eventId.value != 0 {
        store.SetItem(EVENT_ID_KEY, IntToString(eventId.value));
      }
    }
  }

  /* ---------- QUERY 2: total XP ---------- */

  /** fetchTotalXP: 0 without a query when no event id is stored; otherwise
      the aggregate sum with null read as 0. Query failures propagate. */
  function FetchTotalXP(eventId: Option<string>, token: Option<string>, response: Response<XPSumData>): (f: Fetched<int>)
    ensures !Truthy(eventId) ==> f == Fetched(Success(0), false)
    ensures Truthy(eventId) ==> f.sent == Truthy(token)
    ensures Truthy(eventId) ==>
      (f.result.Success? <==> ExecuteGraphQLQuery(token, response).result.Success?)
    ensures Truthy(eventId) && f.result.Success? ==>
      response.Delivered? && f.result.value == (if response.data.amount.Some? then response.data.amount.value else 0)
  {
    if !Truthy(eventId) then Fetched(Success(0), false)
    else Propagating(token, response, (d: XPSumData) => d.amount.GetOr(0))
  }

  /* ---------- QUERY 3: projects completed ---------- */

  predicate IsProject(p: ProgressRow) {
    p.obj.kind == "project"
  }

  /** `progress.filter(p => p.object.type === 'project')`. */
  function ProjectsOnly(rows: seq<ProgressRow>): (r: seq<ProgressRow>)
    ensures |r| <= |rows|
    ensures forall p :: p in r ==> IsProject(p) && p in rows
    ensures forall p :: p in rows && IsProject(p) ==> p in r
  {
    if rows == [] then []
    else (if IsProject(rows[0]) then [rows[0]] else []) + ProjectsOnly(rows[1..])
  }

  /** The filter keeps the rows' order: it distributes over concatenation. */
  lemma {:induction false} ProjectsOnlyConcat(a: seq<ProgressRow>, b: seq<ProgressRow>)
    ensures ProjectsOnly(a + b) == ProjectsOnly(a) + ProjectsOnly(b)
  {
    if a == [] {
      assert a + b == b;
    } else {
      assert (a + b)[1..] == a[1..] + b;
      ProjectsOnlyConcat(a[1..], b);
    }
  }

  /** fetchProjectsCompleted: the project rows, in order. Failures propagate. */
  function FetchProjectsCompleted(token: Option<string>, response: Response<ProgressData>): (f: Fetched<seq<ProgressRow>>)
    ensures f.sent <==> Truthy(token)
    ensures f.result.Success? <==> ExecuteGraphQLQuery(token, response).result.Success?
    ensures f.result.Success? ==> response.Delivered? && f.result.value == ProjectsOnly(response.data.progress)
    ensures f.result.Success? ==> forall p :: p in f.result.value ==> IsProject(p)
  {
    Propagating(token, response, (d: ProgressData) => ProjectsOnly(d.progress))
  }

  /* ---------- QUERY 4: XP timeline ---------- */

  /** fetchXPTimeline: [] without a query when no event id is stored;
      otherwise the transaction rows unchanged. Failures propagate. */
  function FetchXPTimeline(eventId: Option<string>, token: Option<string>, response: Response<TimelineData>): (f: Fetched<seq<Transaction>>)
    ensures !Truthy(eventId) ==> f == Fetched(Success([]), false)
    ensures Truthy(eventId) ==> f.sent == Truthy(token)
    ensures Truthy(eventId) ==>
      (f.result.Success? <==> ExecuteGraphQLQuery(token, response).result.Success?)
    ensures Truthy(eventId) && f.result.Success? ==>
      response.Delivered? && f.result.value == response.data.transaction
  {
    if !Truthy(eventId) then Fetched(Success([]), false)
    else Propagating(token, response, (d: TimelineData) => d.transaction)
  }

  /* ---------- QUERY 5: audit ratio ---------- */

  /** The record built from the first user row, missing fields read as 0;
      all zeros when there is no row. */
  function AuditFromUsers(d: AuditUsersData): (a: AuditStats)
    ensures |d.user| == 0 ==> a == AuditStats(0.0, 0, 0)
    ensures |d.user| > 0 ==>
      && (d.user[0].auditRatio.Some? ==> a.ratio == d.user[0].auditRatio.value)
      && (d.user[0].auditRatio.None? ==> a.ratio == 0.0)
      && (d.user[0].totalUp.Some? ==> a.done == d.user[0].totalUp.value)
      && (d.user[0].totalUp.None? ==> a.done == 0)
      && (d.user[0].totalDown.Some? ==> a.received == d.user[0].totalDown.value)
      && (d.user[0].totalDown.None? ==> a.received == 0)
  {
    if |d.user| > 0 then
      var u := d.user[0];
      AuditStats(u.auditRatio.GetOr(0.0), u.totalUp.GetOr(0), u.totalDown.GetOr(0))
    else AuditStats(0.0, 0, 0)
  }

  /** fetchAuditRatio has no try/catch: a failed query rejects it. */
  function FetchAuditRatio(token: Option<string>, response: Response<AuditUsersData>): (f: Fetched<AuditStats>)
    ensures f.sent <==> Truthy(token)
    ensures f.result.Failure? <==> ExecuteGraphQLQuery(token, response).result.Failure?
    ensures f.result.Failure? ==> f.result.error == ExecuteGraphQLQuery(token, response).result.error
    ensures f.result.Success? ==> response.Delivered? && f.result.value == AuditFromUsers(response.data)
  {
    Propagating(token, response, AuditFromUsers)
  }

  /* ---------- QUERY 6: level ---------- */

  /** `data.transaction[0]?.amount || 0`: the first row's amount when there
      is a row with an amount, and 0 when the list is empty or the amount is
      null. */
  function LevelOf(d: LevelData): (level: real)
    ensures |d.transaction| > 0 && d.transaction[0].amount.Some? ==> level == d.transaction[0].amount.value
    ensures (|d.transaction| == 0 || d.transaction[0].amount.None?) ==> level == 0.0
  {
    if |d.transaction| > 0 then d.transaction[0].amount.GetOr(0.0) else 0.0
  }

  /** fetchUserLevel never rejects: 0 without a query when no event id is
      stored, 0 when the query fails, else the first row's amount or 0. */
  function FetchUserLevel(eventId: Option<string>, token: Option<string>, response: Response<LevelData>): (f: Fetched<real>)
    ensures f.result.Success?
    ensures !Truthy(eventId) ==> f == Fetched(Success(0.0), false)
    ensures Truthy(eventId) ==> f.sent == Truthy(token)
    ensures ExecuteGraphQLQuery(token, response).result.Failure? ==> f.result.value == 0.0
    ensures Truthy(eventId) && ExecuteGraphQLQuery(token, response).result.Success? ==>
      f.result.value == LevelOf(response.data)
    ensures f.result.value != 0.0 ==>
      && Truthy(eventId) && ExecuteGraphQLQuery(token, response).result.Success?
      && |response.data.transaction| > 0 && response.data.transaction[0].amount == Some(f.result.value)
  {
    if !Truthy(eventId) then Fetched(Success(0.0), false)
    else Caught(token, response, LevelOf, 0.0)
  }

  /* ---------- QUERY 7: ranking ---------- */

  /** fetchUserRanking never rejects: {0, 0} without a query when no event id
      is stored and when the query fails, else the computed standing. */
  function FetchUserRanking(eventId: Option<string>, token: Option<string>, response: Response<RankingData>): (f: Fetched<Standing>)
    ensures f.result.Success?
    ensures !Truthy(eventId) ==> f == Fetched(Success(Standing(0, 0)), false)
    ensures Truthy(eventId) ==> f.sent == Truthy(token)
    ensures ExecuteGraphQLQuery(token, response).result.Failure? ==> f.result.value == Standing(0, 0)
    ensures Truthy(eventId) && ExecuteGraphQLQuery(token, response).result.Success? ==>
      f.result.value == ComputeRanking(response.data)
    ensures f.result.value.rank <= f.result.value.total
  {
    if !Truthy(eventId) then Fetched(Success(Standing(0, 0)), false)
    else
      var f := Caught(token, response, ComputeRanking, Standing(0, 0));
      if ExecuteGraphQLQuery(token, response).result.Success? then
        RankingCharacterization(response.data);
        f
      else f
  }

  /* ---------- QUERY 8: audits done ---------- */

  /** fetchAuditsDone never rejects: the count (null read as 0), or 0 when
      the query fails. */
  function FetchAuditsDone(token: Option<string>, response: Response<AuditCountData>): (f: Fetched<nat>)
    ensures f.result.Success?
    ensures f.sent <==> Truthy(token)
    ensures ExecuteGraphQLQuery(token, response).result.Failure? ==> f.result.value == 0
    ensures ExecuteGraphQLQuery(token, response).result.Success? ==>
      f.result.value == (if response.data.count.Some? then response.data.count.value else 0)
  {
    Caught(token, response, (d: AuditCountData) => d.count.GetOr(0), 0)
  }
}

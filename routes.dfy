/** The HTTP routes (server/routes.ts) over one `DatabaseStorage`: the quota
    middleware in front of session generation, the owner-scoped session
    routes and the usage statistics. A request is a method call; the signed-in
    user is `reqUser` (None when the request is not authenticated), the clock
    is one `now` per request, and the live generator's outcome is a parameter
    (None when it throws). */
module Routes {
  import opened Wrappers
  import opened JsValues
  import opened Calendar
  import opened Schema
  import opened Storage
  import MockData

  /** The JSON bodies the routes send. */
  datatype Body =
    | Message(message: string)
    | LimitReached(message: string, upgradeRequired: bool)
    | InvalidParameters(message: string, errors: seq<Issue>)
    | Generated(session: Json)
    | OneSession(row: SessionRow)
    | SessionList(rows: seq<SessionRow>)
    | Stats(totalSessions: nat, monthlyGenerations: nat, remainingGenerations: int,
            planType: string, resetDate: DateTime)
    | NoBody

  datatype Response = Response(status: int, body: Body)

  const AuthenticationRequired := Response(401, Message("Authentication required"))
  const LimitReachedResponse :=
    Response(403, LimitReached("Generation limit reached. Upgrade to Pro for unlimited sessions.", true))
  const SessionNotFound := Response(404, Message("Session not found"))
  const GenerationFailed := Response(500, Message("Failed to generate session"))
  const SaveFailed := Response(500, Message("Failed to save session"))

  // ---------------------------------------------------------------------
  // The quota middleware

  /** What `checkQuota` decides: go on to the handler with `req.user` as it
      now is, or answer at once. */
  datatype Verdict = Pass(current: Option<User>) | Stop(response: Response)

  /** The limit test, applied to the user snapshot taken when the request
      arrived: a free user whose counter has reached the limit. */
  predicate OverLimit(u: User) {
    u.planType == FreePlan && u.generationsUsed >= u.generationsLimit
  }

  /** `checkQuota`: 401 without a user; a reset (persisted, then re-read into
      `req.user`) when the reset date has come; then the limit test on the
      snapshot taken before the reset. */
  function Quota(users: map<string, User>, reqUser: Option<User>, now: DateTime): (map<string, User>, Verdict)
    requires Calendar.Valid(now)
  {
    match reqUser
    case None => (users, Stop(AuthenticationRequired))
    case Some(user) =>
      var (users1, current) :=
        if AtOrAfter(now, user.resetDate) then
          var reset := ResetGenerations(users, user.id, now);
          (reset, if user.id in reset then Some(reset[user.id]) else None)
        else (users, reqUser);
      if OverLimit(user) then (users1, Stop(LimitReachedResponse)) else (users1, Pass(current))
  }

  method CheckQuota(db: DatabaseStorage, reqUser: Option<User>, now: DateTime) returns (v: Verdict)
    requires db.Valid() && Calendar.Valid(now)
    modifies db
    ensures db.Valid() && db.sessions == old(db.sessions)
    ensures (db.users, v) == Quota(old(db.users), reqUser, now)
  {
    if reqUser.None? {
      return Stop(AuthenticationRequired);
    }
    var user := reqUser.value;
    var current := reqUser;
    if AtOrAfter(now, user.resetDate) {
      var _ := db.ResetUserGenerations(user.id, now);
      current := db.GetUser(user.id);
    }
    if user.planType == FreePlan && user.generationsUsed >= user.generationsLimit {
      return Stop(LimitReachedResponse);
    }
    return Pass(current);
  }

  // ---------------------------------------------------------------------
  // Session generation

  /** Mock documents are served in development unless `?mock=false`. */
  function UseMockData(development: bool, mockQuery: Option<string>): bool {
    development && mockQuery != Some("false")
  }

  /** `POST /api/sessions/generate`: the quota middleware, then the handler. */
  function Generate(users: map<string, User>, reqUser: Option<User>, now: DateTime,
                    body: Json, useMock: bool, live: Option<Json>): (r: (map<string, User>, Response))
    requires Calendar.Valid(now)
    ensures r.1.status in {200, 400, 401, 403, 500}
    ensures r.1.status == 401 <==> reqUser.None?
    ensures r.1.status == 403 <==> reqUser.Some? && OverLimit(reqUser.value)
    ensures r.0.Keys == users.Keys
  {
    var (users1, verdict) := Quota(users, reqUser, now);
    match verdict
    case Stop(response) => (users1, response)
    case Pass(current) => Handle(users1, current, now, body, useMock, live)
  }

  /** The handler behind the middleware: validation, then generation, then
      (for a free `req.user`) the counter write, then the document. A
      generator that throws, or a `req.user` the middleware could not
      re-read, ends in 500 before any counter write. */
  function Handle(users: map<string, User>, current: Option<User>, now: DateTime,
                  body: Json, useMock: bool, live: Option<Json>): (r: (map<string, User>, Response))
    ensures r.1.status in {200, 400, 500}
    ensures r.1.status == 400 <==> ParseGenerationRequest(body).Err?
    ensures r.1.status == 200 ==> current.Some? && r.1.body.Generated?
    ensures r.1.status != 200 || current.value.planType != FreePlan ==> r.0 == users
    ensures r.0.Keys == users.Keys
  {
    match ParseGenerationRequest(body)
    case Err(issues) => (users, Response(400, InvalidParameters("Invalid request parameters", issues)))
    case Ok(params) =>
      var generated := if useMock then Some(MockData.GetMockSessionAsWritten(params)) else live;
      if generated.None? || current.None? then (users, GenerationFailed)
      else
        var u := current.value;
        var users1 := if u.planType == FreePlan then SetGenerations(users, u.id, u.generationsUsed + 1, now) else users;
        (users1, Response(200, Generated(generated.value)))
  }

  method GenerateSession(db: DatabaseStorage, reqUser: Option<User>, now: DateTime, body: Json,
                         development: bool, mockQuery: Option<string>, live: Option<Json>)
    returns (resp: Response)
    requires db.Valid() && Calendar.Valid(now)
    modifies db
    ensures db.Valid() && db.sessions == old(db.sessions)
    ensures (db.users, resp) == Generate(old(db.users), reqUser, now, body, UseMockData(development, mockQuery), live)
  {
    var verdict := CheckQuota(db, reqUser, now);
    if verdict.Stop? {
      return verdict.response;
    }
    resp := HandleGenerate(db, verdict.current, now, body, UseMockData(development, mockQuery), live);
  }

  method HandleGenerate(db: DatabaseStorage, current: Option<User>, now: DateTime, body: Json,
                        useMock: bool, live: Option<Json>)
    returns (resp: Response)
    requires db.Valid()
    modifies db
    ensures db.Valid() && db.sessions == old(db.sessions)
    ensures (db.users, resp) == Handle(old(db.users), current, now, body, useMock, live)
  {
    var parsed := ParseGenerationRequest(body);
    if parsed.Err? {
      return Response(400, InvalidParameters("Invalid request parameters", parsed.error));
    }
    var generated := Produce(parsed.value, useMock, live);
    if generated.None? || current.None? {
      return GenerationFailed;
    }
    var u := current.value;
    if u.planType == FreePlan {
      var _ := db.UpdateUserGenerations(u.id, u.generationsUsed + 1, now);
    }
    return Response(200, Generated(generated.value));
  }

  /** The document: the mock one, or whatever the live generator returned
      (`None` when it threw). */
  method Produce(params: GenerationRequest, useMock: bool, live: Option<Json>) returns (generated: Option<Json>)
    requires IsSessionType(params.sessionType)
    ensures generated == if useMock then Some(MockData.GetMockSessionAsWritten(params)) else live
  {
    if useMock {
      generated := Some(MockData.GetMockSessionAsWritten(params));
    } else {
      generated := live;
    }
  }

  // ---------------------------------------------------------------------
  // Owner-scoped session routes

  /** `POST /api/sessions`: the body's columns with the owner taken from the
      signed-in user. `content` is None when the body lacks a column the
      table requires, and the insert then fails like any other. */
  method SaveSession(db: DatabaseStorage, reqUser: Option<User>, newId: string,
                     content: Option<InsertSession>, now: DateTime)
    returns (resp: Response)
    requires db.Valid()
    modifies db
    ensures db.Valid() && db.users == old(db.users)
    ensures reqUser.None? ==> resp == AuthenticationRequired && db.sessions == old(db.sessions)
    ensures resp.status == 201 <==>
      && reqUser.Some? && content.Some?
      && FindById(old(db.sessions), newId).None? && reqUser.value.id in old(db.users)
    ensures resp.status == 201 ==>
      && resp.body == OneSession(SessionRow(newId, reqUser.value.id, content.value, now, now))
      && db.sessions == old(db.sessions) + [resp.body.row]
    ensures resp.status != 201 ==> db.sessions == old(db.sessions)
    ensures reqUser.Some? && resp.status != 201 ==> resp == SaveFailed
  {
    if reqUser.None? {
      return AuthenticationRequired;
    }
    if content.None? {
      return SaveFailed;
    }
    var row := db.CreateSession(newId, reqUser.value.id, content.value, now);
    if row.None? {
      return SaveFailed;
    }
    return Response(201, OneSession(row.value));
  }

  /** `GET /api/sessions`: the signed-in user's sessions, newest first. */
  method ListSessions(db: DatabaseStorage, reqUser: Option<User>) returns (resp: Response)
    requires db.Valid()
    ensures reqUser.None? ==> resp == AuthenticationRequired
    ensures reqUser.Some? ==>
      && resp.status == 200 && resp.body.SessionList?
      && multiset(resp.body.rows) == multiset(OwnedBy(db.sessions, reqUser.value.id))
      && NewestFirst(resp.body.rows)
  {
    if reqUser.None? {
      return AuthenticationRequired;
    }
    var rows := db.GetUserSessions(reqUser.value.id);
    return Response(200, SessionList(rows));
  }

  /** The answer of `GET /api/sessions/:id` once the row has been looked up:
      a session that is absent and one owned by someone else both read as
      "Session not found". */
  function SessionResponse(reqUser: Option<User>, found: Option<SessionRow>): (r: Response)
    ensures reqUser.None? ==> r == AuthenticationRequired
    ensures reqUser.Some? ==>
      (r.status == 200 <==> found.Some? && found.value.userId == reqUser.value.id)
    ensures reqUser.Some? && r.status == 200 ==> r.body == OneSession(found.value)
    ensures reqUser.Some? && r.status != 200 ==> r == SessionNotFound
  {
    if reqUser.None? then AuthenticationRequired
    else if found.None? || found.value.userId != reqUser.value.id then SessionNotFound
    else Response(200, OneSession(found.value))
  }

  method GetSessionRoute(db: DatabaseStorage, reqUser: Option<User>, id: string) returns (resp: Response)
    requires db.Valid()
    ensures resp == SessionResponse(reqUser, FindById(db.sessions, id))
  {
    if reqUser.None? {
      return AuthenticationRequired;
    }
    var found := db.GetSession(id);
    return SessionResponse(reqUser, found);
  }

  /** `DELETE /api/sessions/:id`: 204 when a row of the caller's with that id
      was removed, 404 otherwise. */
  method DeleteSessionRoute(db: DatabaseStorage, reqUser: Option<User>, id: string) returns (resp: Response)
    requires db.Valid()
    modifies db
    ensures db.Valid() && db.users == old(db.users)
    ensures reqUser.None? ==> resp == AuthenticationRequired && db.sessions == old(db.sessions)
    ensures reqUser.Some? ==> db.sessions == Without(old(db.sessions), id, reqUser.value.id)
    ensures reqUser.Some? ==>
      (resp == Response(204, NoBody) <==>
         exists i | 0 <= i < |old(db.sessions)| ::
           old(db.sessions)[i].id == id && old(db.sessions)[i].userId == reqUser.value.id)
    ensures reqUser.Some? && resp.status != 204 ==> resp == SessionNotFound
  {
    if reqUser.None? {
      return AuthenticationRequired;
    }
    var deleted := db.DeleteSession(id, reqUser.value.id);
    if !deleted {
      return SessionNotFound;
    }
    return Response(204, NoBody);
  }

  // ---------------------------------------------------------------------
  // Usage statistics

  /** `remainingGenerations`: -1 for pro, otherwise what is left of the
      limit, never below zero. */
  function Remaining(u: User): (r: int)
    ensures u.planType == ProPlan ==> r == -1
    ensures u.planType != ProPlan ==> r >= 0 && (r > 0 <==> u.generationsUsed < u.generationsLimit)
    ensures u.planType != ProPlan && u.generationsUsed <= u.generationsLimit ==>
      r == u.generationsLimit - u.generationsUsed
  {
    if u.planType == ProPlan then -1
    else if u.generationsLimit - u.generationsUsed > 0 then u.generationsLimit - u.generationsUsed
    else 0
  }

  /** How many rows were created at or after `start`. */
  function CountSince(rows: seq<SessionRow>, start: DateTime): (n: nat)
    ensures n <= |rows|
    ensures n == 0 <==> forall i | 0 <= i < |rows| :: Before(rows[i].createdAt, start)
  {
    if rows == [] then 0
    else CountSince(rows[1..], start) + (if AtOrAfter(rows[0].createdAt, start) then 1 else 0)
  }

  /** The statistics for a user and that user's rows. */
  function StatsFor(u: User, rows: seq<SessionRow>, now: DateTime): (r: Response)
    requires Calendar.Valid(now)
    ensures r.status == 200 && r.body.Stats?
    ensures r.body.totalSessions == |rows| && r.body.monthlyGenerations <= |rows|
    ensures r.body.monthlyGenerations == 0 <==> forall i | 0 <= i < |rows| :: Before(rows[i].createdAt, MonthStart(now.year, now.month))
    ensures r.body.remainingGenerations == Remaining(u) && r.body.planType == u.planType && r.body.resetDate == u.resetDate
  {
    Response(200, Stats(|rows|, CountSince(rows, MonthStart(now.year, now.month)), Remaining(u), u.planType, u.resetDate))
  }

  /** `GET /api/user/stats`. The totals are over the caller's rows whatever
      their order, so they agree with the rows of `OwnedBy`. */
  method UserStats(db: DatabaseStorage, reqUser: Option<User>, now: DateTime) returns (resp: Response)
    requires db.Valid() && Calendar.Valid(now)
    ensures reqUser.None? ==> resp == AuthenticationRequired
    ensures reqUser.Some? ==> resp == StatsFor(reqUser.value, OwnedBy(db.sessions, reqUser.value.id), now)
  {
    if reqUser.None? {
      return AuthenticationRequired;
    }
    var rows := db.GetUserSessions(reqUser.value.id);
    var user := reqUser.value;
    var startOfMonth := MonthStart(now.year, now.month);
    CountSincePermutation(rows, OwnedBy(db.sessions, user.id), startOfMonth);
    assert |rows| == |OwnedBy(db.sessions, user.id)| by {
      assert |multiset(rows)| == |multiset(OwnedBy(db.sessions, user.id))|;
    }
    return Response(200, Stats(|rows|, CountSince(rows, startOfMonth), Remaining(user), user.planType, user.resetDate));
  }

  lemma {:induction false} CountSinceConcat(a: seq<SessionRow>, b: seq<SessionRow>, start: DateTime)
    ensures CountSince(a + b, start) == CountSince(a, start) + CountSince(b, start)
    decreases |a|
  {
    if a != [] {
      assert (a + b)[1..] == a[1..] + b;
      CountSinceConcat(a[1..], b, start);
    } else {
      assert a + b == b;
    }
  }

  /** Taking one row out of the table takes its contribution out of the count. */
  lemma CountSinceRemove(b: seq<SessionRow>, k: nat, start: DateTime)
    requires k < |b|
    ensures CountSince(b, start) ==
      CountSince(b[..k] + b[k + 1..], start) + (if AtOrAfter(b[k].createdAt, start) then 1 else 0)
  {
    assert b == b[..k] + ([b[k]] + b[k + 1..]);
    CountSinceConcat(b[..k], [b[k]] + b[k + 1..], start);
    CountSinceConcat([b[k]], b[k + 1..], start);
    CountSinceConcat(b[..k], b[k + 1..], start);
  }

  lemma MultisetRemove(b: seq<SessionRow>, k: nat)
    requires k < |b|
    ensures multiset(b[..k] + b[k + 1..]) == multiset(b) - multiset{b[k]}
  {
    assert b == b[..k] + [b[k]] + b[k + 1..];
  }

  /** The count does not depend on the order of the rows. */
  lemma {:induction false} CountSincePermutation(a: seq<SessionRow>, b: seq<SessionRow>, start: DateTime)
    requires multiset(a) == multiset(b)
    ensures CountSince(a, start) == CountSince(b, start)
    decreases |a|
  {
    if a != [] {
      assert a[0] in multiset(b);
      var k :| 0 <= k < |b| && b[k] == a[0];
      MultisetRemove(b, k);
      assert a == [a[0]] + a[1..];
      assert multiset(a[1..]) == multiset(a) - multiset{a[0]};
      CountSincePermutation(a[1..], b[..k] + b[k + 1..], start);
      CountSinceRemove(b, k, start);
    } else {
      assert |multiset(b)| == 0;
    }
  }

  // ---------------------------------------------------------------------
  // Properties of the routes

  /** Without a signed-in user the generation route answers 401 and writes
      nothing. */
  lemma UnauthenticatedGenerateWritesNothing(users: map<string, User>, now: DateTime, body: Json,
                                             useMock: bool, live: Option<Json>)
    requires Calendar.Valid(now)
    ensures Generate(users, None, now, body, useMock, live) == (users, AuthenticationRequired)
  {
  }

  /** When the reset date has come, the reset is persisted and `req.user` is
      replaced by the re-read row before the limit test. */
  lemma QuotaResetsFirst(users: map<string, User>, user: User, now: DateTime)
    requires Calendar.Valid(now) && AtOrAfter(now, user.resetDate) && user.id in users
    ensures var (users1, v) := Quota(users, Some(user), now);
      && users1 == ResetGenerations(users, user.id, now)
      && users1[user.id].generationsUsed == 0
      && Before(now, users1[user.id].resetDate)
      && (v.Pass? ==> v.current == Some(users1[user.id]))
  {
    NextResetDateIsLater(now);
  }

  /** The quota verdict: 401 without a user, otherwise 403 exactly when the
      snapshot is a free user at or over the limit; a pro user always passes.
      Before the reset date nothing is written and `req.user` passes on as it
      arrived. */
  lemma QuotaVerdict(users: map<string, User>, reqUser: Option<User>, now: DateTime)
    requires Calendar.Valid(now)
    ensures var v := Quota(users, reqUser, now).1;
      && (reqUser.None? ==> v == Stop(AuthenticationRequired))
      && (reqUser.Some? ==> (v.Stop? <==> OverLimit(reqUser.value)))
      && (reqUser.Some? && v.Stop? ==> v.response == LimitReachedResponse)
      && (reqUser.Some? && reqUser.value.planType == ProPlan ==> v.Pass?)
      && (reqUser.Some? && Before(now, reqUser.value.resetDate) ==>
            Quota(users, reqUser, now).0 == users && (v.Pass? ==> v.current == reqUser))
  {
  }

  /** The stale snapshot: a free user at the limit whose reset is due is
      refused with 403 and `upgradeRequired`, although the reset to zero was
      already written. */
  lemma StaleSnapshotRefusesAfterReset(users: map<string, User>, user: User, now: DateTime)
    requires Calendar.Valid(now) && user.id in users
    requires AtOrAfter(now, user.resetDate) && OverLimit(user)
    ensures var (users1, v) := Quota(users, Some(user), now);
      && v == Stop(LimitReachedResponse)
      && v.response.body.upgradeRequired
      && users1 == ResetGenerations(users, user.id, now)
      && users1[user.id].generationsUsed == 0
  {
  }

  /** After that refusal, the next request in the same instant carrying the
      re-read row passes, provided the limit is positive. */
  lemma NextRequestAfterStaleRefusalPasses(users: map<string, User>, user: User, now: DateTime)
    requires Calendar.Valid(now) && user.id in users && users[user.id].id == user.id
    requires AtOrAfter(now, user.resetDate) && OverLimit(user)
    requires users[user.id].generationsLimit > 0
    ensures var users1 := Quota(users, Some(user), now).0;
      var (users2, v) := Quota(users1, Some(users1[user.id]), now);
      v.Pass? && users2 == users1
  {
    NextResetDateIsLater(now);
    var users1 := Quota(users, Some(user), now).0;
    assert !AtOrAfter(now, users1[user.id].resetDate);
  }

  /** The quota runs before validation: an exhausted free user with a bad
      body gets 403, a user within the quota gets 400, and in neither case
      is a counter written beyond what the middleware did. */
  lemma QuotaBeforeValidation(users: map<string, User>, user: User, now: DateTime,
                              body: Json, useMock: bool, live: Option<Json>)
    requires Calendar.Valid(now) && ParseGenerationRequest(body).Err?
    ensures var (users2, resp) := Generate(users, Some(user), now, body, useMock, live);
      && users2 == Quota(users, Some(user), now).0
      && (OverLimit(user) ==> resp == LimitReachedResponse)
      && (!OverLimit(user) ==> resp.status == 400 && resp.body.errors == ParseGenerationRequest(body).error)
  {
  }

  /** The counter is written only after a successful generation, only for a
      free `req.user`, and becomes that row's counter plus one. */
  lemma IncrementOnlyOnSuccess(users: map<string, User>, reqUser: Option<User>, now: DateTime,
                               body: Json, useMock: bool, live: Option<Json>)
    requires Calendar.Valid(now)
    ensures var (users1, v) := Quota(users, reqUser, now);
      var (users2, resp) := Generate(users, reqUser, now, body, useMock, live);
      && (resp.status != 200 ==> users2 == users1)
      && (resp.status == 200 ==> v.Pass? && v.current.Some? && resp.body.Generated?)
      && (resp.status == 200 && v.current.value.planType != FreePlan ==> users2 == users1)
      && (resp.status == 200 && v.current.value.planType == FreePlan ==>
            users2 == SetGenerations(users1, v.current.value.id, v.current.value.generationsUsed + 1, now))
  {
  }

  /** A generator that throws yields 500 and no counter write. */
  lemma GeneratorFailureWritesNothing(users: map<string, User>, reqUser: Option<User>, now: DateTime, body: Json)
    requires Calendar.Valid(now)
    requires Quota(users, reqUser, now).1.Pass? && ParseGenerationRequest(body).Ok?
    ensures Generate(users, reqUser, now, body, false, None) == (Quota(users, reqUser, now).0, GenerationFailed)
  {
  }

  /** Past the quota and validation, the document is the mock one exactly in
      development without `?mock=false`, and the live generator's otherwise.
      The mock is `getMockSession` as written; outside the inherited member
      names it is the intended document. */
  lemma MockServedInDevelopment(users: map<string, User>, reqUser: Option<User>, now: DateTime, body: Json,
                                development: bool, mockQuery: Option<string>, live: Option<Json>)
    requires Calendar.Valid(now)
    requires Quota(users, reqUser, now).1.Pass? && Quota(users, reqUser, now).1.current.Some?
    requires ParseGenerationRequest(body).Ok?
    ensures var params := ParseGenerationRequest(body).value;
      var resp := Generate(users, reqUser, now, body, UseMockData(development, mockQuery), live).1;
      && (development && mockQuery != Some("false") ==>
            resp == Response(200, Generated(MockData.GetMockSessionAsWritten(params))))
      && (development && mockQuery != Some("false") && params.sessionFocus !in MockData.InheritedNames ==>
            resp == Response(200, Generated(MockData.GetMockSession(params))))
      && (!(development && mockQuery != Some("false")) ==>
            resp == if live.Some? then Response(200, Generated(live.value)) else GenerationFailed)
  {
    var params := ParseGenerationRequest(body).value;
    if params.sessionFocus !in MockData.InheritedNames {
      MockData.AsWrittenAgreesOnOrdinaryFocus(params);
    }
  }

  /** A pro user whose row is current never has the counter written: the
      table changes at most by the monthly reset. */
  lemma ProCounterNeverWritten(users: map<string, User>, id: string, now: DateTime,
                               body: Json, useMock: bool, live: Option<Json>)
    requires Calendar.Valid(now) && id in users && users[id].id == id && users[id].planType == ProPlan
    ensures Generate(users, Some(users[id]), now, body, useMock, live).0 == Quota(users, Some(users[id]), now).0
  {
  }

  /** After the payment upgrade a user passes the quota whatever the
      counters say. */
  lemma UpgradedUserPasses(users: map<string, User>, id: string, customerId: string,
                           subscriptionId: string, now: DateTime)
    requires Calendar.Valid(now) && id in users && subscriptionId != ""
    ensures var upgraded := SetStripeInfo(users, id, customerId, Some(subscriptionId), now);
      Quota(upgraded, Some(upgraded[id]), now).1.Pass?
  {
    StripeInfoWithSubscription(users[id], customerId, subscriptionId, now);
  }

  /** For a free user whose reset is not due, the stats show generations
      remaining exactly when the quota lets the next request through. */
  lemma RemainingAgreesWithQuota(users: map<string, User>, u: User, now: DateTime)
    requires Calendar.Valid(now) && u.planType == FreePlan && Before(now, u.resetDate)
    ensures Remaining(u) > 0 <==> Quota(users, Some(u), now).1.Pass?
  {
  }

  /** A session saved by its owner is what that owner's lookup returns, and
      any other user is told it does not exist. */
  lemma SavedSessionRoundTrip(rows: seq<SessionRow>, row: SessionRow, owner: User, other: User)
    requires FindById(rows, row.id).None? && row.userId == owner.id && other.id != owner.id
    ensures SessionResponse(Some(owner), FindById(rows + [row], row.id)) == Response(200, OneSession(row))
    ensures SessionResponse(Some(other), FindById(rows + [row], row.id)) == SessionNotFound
  {
    FindAppended(rows, row);
  }

  // ---------------------------------------------------------------------
  // A month of requests

  /** One generation request: its body and how it would be generated. */
  datatype Attempt = Attempt(body: Json, useMock: bool, live: Option<Json>)

  /** Generation requests from one user in turn, each carrying the user's
      row as stored when it arrives: the final table and how many requests
      got a document. */
  function Replay(users: map<string, User>, id: string, now: DateTime, attempts: seq<Attempt>): (map<string, User>, nat)
    requires Calendar.Valid(now)
    decreases |attempts|
  {
    if attempts == [] then (users, 0)
    else
      var reqUser := if id in users then Some(users[id]) else None;
      var (users1, resp) := Generate(users, reqUser, now, attempts[0].body, attempts[0].useMock, attempts[0].live);
      var (users2, n) := Replay(users1, id, now, attempts[1..]);
      (users2, n + if resp.status == 200 then 1 else 0)
  }

  /** One request from a free user whose reset is not due: a document costs
      one generation, anything else costs nothing. */
  lemma GenerateStepFree(users: map<string, User>, id: string, now: DateTime, a: Attempt)
    requires Calendar.Valid(now) && id in users && users[id].id == id
    requires users[id].planType == FreePlan && Before(now, users[id].resetDate)
    ensures var (users1, resp) := Generate(users, Some(users[id]), now, a.body, a.useMock, a.live);
      && id in users1
      && users1[id] == (if resp.status == 200 then users[id].(generationsUsed := users[id].generationsUsed + 1, updatedAt := now) else users[id])
      && (resp.status == 200 ==> users[id].generationsUsed < users[id].generationsLimit)
  {
  }

  /** Within one month a free user gets at most what is left of the limit. */
  lemma {:induction false} ReplayWithinQuota(users: map<string, User>, id: string, now: DateTime, attempts: seq<Attempt>)
    requires Calendar.Valid(now) && id in users && users[id].id == id
    requires users[id].planType == FreePlan && Before(now, users[id].resetDate)
    requires users[id].generationsUsed <= users[id].generationsLimit
    ensures Replay(users, id, now, attempts).1 <= users[id].generationsLimit - users[id].generationsUsed
    decreases |attempts|
  {
    if attempts != [] {
      var a := attempts[0];
      GenerateStepFree(users, id, now, a);
      var (users1, resp) := Generate(users, Some(users[id]), now, a.body, a.useMock, a.live);
      ReplayWithinQuota(users1, id, now, attempts[1..]);
    }
  }
}

/** The shared data model (shared/schema.ts): the `users` and `sessions`
    tables with their column defaults, the insert payloads that leave out the
    server-owned columns, and the validation of a generation request. */
module Schema {
  import opened Wrappers
  import opened JsValues
  import Calendar

  const FreePlan := "free"
  const ProPlan := "pro"
  const DefaultGenerationsLimit := 5

  /** A row of the `users` table. `planType` is free text in the database
      ("free" or "pro" by convention); `generationsLimit` is -1 for pro. */
  datatype User = User(
    id: string,
    username: string,
    email: string,
    password: string,
    planType: string,
    stripeCustomerId: Option<string>,
    stripeSubscriptionId: Option<string>,
    generationsUsed: int,
    generationsLimit: int,
    resetDate: Calendar.DateTime,
    createdAt: Calendar.DateTime,
    updatedAt: Calendar.DateTime)

  /** A registration payload as `insertUserSchema` admits it: the table's
      columns without `id`, the timestamps and the three quota columns, so
      a client cannot choose its own counter, limit or reset date. The plan
      column has a default and is therefore optional. */
  datatype InsertUser = InsertUser(
    username: string,
    email: string,
    password: string,
    planType: Option<string>,
    stripeCustomerId: Option<string>,
    stripeSubscriptionId: Option<string>)

  /** The row the database builds from a registration payload: every omitted
      column takes its default. */
  function NewUser(id: string, ins: InsertUser, now: Calendar.DateTime): (u: User)
    requires Calendar.Valid(now)
    ensures u.id == id && u.username == ins.username && u.email == ins.email
    ensures u.generationsUsed == 0 && u.generationsLimit == DefaultGenerationsLimit
    ensures u.password == ins.password
    ensures u.stripeCustomerId == ins.stripeCustomerId && u.stripeSubscriptionId == ins.stripeSubscriptionId
    ensures ins.planType.None? ==> u.planType == FreePlan
    ensures ins.planType.Some? ==> u.planType == ins.planType.value
    ensures Calendar.Before(now, u.resetDate) && u.resetDate.day == 1 && u.resetDate.ms == 0
    ensures u.resetDate.year * 12 + u.resetDate.month == now.year * 12 + now.month + 1
    ensures u.createdAt == now && u.updatedAt == now
  {
    User(id, ins.username, ins.email, ins.password, ins.planType.GetOr(FreePlan),
         ins.stripeCustomerId, ins.stripeSubscriptionId,
         0, DefaultGenerationsLimit, Calendar.NextMonthStart(now), now, now)
  }

  /** A session document as `insertSessionSchema` admits it: the columns of
      `sessions` without `id`, `userId` and the timestamps, so the owner is
      never taken from the client's body. The structured parts are JSON. */
  datatype InsertSession = InsertSession(
    title: string,
    sessionType: string,
    sessionFocus: string,
    durationMinutes: int,
    participants: int,
    level: Option<string>,
    objectives: seq<string>,
    equipment: seq<string>,
    safetyNotes: seq<string>,
    warmup: Json,
    practices: Json,
    smallSidedGame: Json,
    cooldown: Json,
    diagrams: Json)

  /** A row of the `sessions` table: the stored document plus the columns
      the server fills in. */
  datatype SessionRow = SessionRow(
    id: string,
    userId: string,
    content: InsertSession,
    createdAt: Calendar.DateTime,
    updatedAt: Calendar.DateTime)

  /** A generation request once `sessionGenerationSchema` has accepted it.
      The two counts are plain numbers: the schema checks their range only. */
  datatype GenerationRequest = GenerationRequest(
    sessionType: string,
    sessionFocus: string,
    durationMinutes: real,
    participants: real,
    level: Option<string>)

  /** A validation issue: the body is not an object, or one field fails. */
  datatype Issue = ExpectedObject | InvalidField(path: string)

  predicate IsSessionType(s: string) {
    s == "outfield" || s == "goalkeeping"
  }

  predicate SessionTypeOk(v: Json) {
    v.Str? && IsSessionType(v.s)
  }

  predicate FocusOk(v: Json) {
    v.Str? && |v.s| >= 1
  }

  predicate InRange(v: Json, lo: real, hi: real) {
    v.Num? && lo <= v.n <= hi
  }

  predicate OptionalStringOk(v: Json) {
    v.Undefined? || v.Str?
  }

  /** The issues zod reports for an object body, in field order. */
  function FieldIssues(fields: map<string, Json>): (issues: seq<Issue>)
    ensures issues == [] <==>
      && SessionTypeOk(Get(fields, "sessionType"))
      && FocusOk(Get(fields, "sessionFocus"))
      && InRange(Get(fields, "durationMinutes"), 15.0, 90.0)
      && InRange(Get(fields, "participants"), 1.0, 30.0)
      && OptionalStringOk(Get(fields, "level"))
  {
    (if SessionTypeOk(Get(fields, "sessionType")) then [] else [InvalidField("sessionType")])
    + (if FocusOk(Get(fields, "sessionFocus")) then [] else [InvalidField("sessionFocus")])
    + (if InRange(Get(fields, "durationMinutes"), 15.0, 90.0) then [] else [InvalidField("durationMinutes")])
    + (if InRange(Get(fields, "participants"), 1.0, 30.0) then [] else [InvalidField("participants")])
    + (if OptionalStringOk(Get(fields, "level")) then [] else [InvalidField("level")])
  }

  /** `sessionGenerationSchema.safeParse(body)`: accept an object whose five
      fields pass, keeping only those fields; otherwise report every issue. */
  function ParseGenerationRequest(body: Json): (r: Result<GenerationRequest, seq<Issue>>)
    ensures r.Ok? ==> body.Obj?
    ensures r.Ok? ==>
      && IsSessionType(r.value.sessionType)
      && |r.value.sessionFocus| >= 1
      && 15.0 <= r.value.durationMinutes <= 90.0
      && 1.0 <= r.value.participants <= 30.0
    ensures r.Ok? ==> RequestJson(r.value) == Obj(Project(body.fields))
    ensures r.Err? ==> |r.error| > 0
  {
    if !body.Obj? then Err([ExpectedObject])
    else
      var f := body.fields;
      var issues := FieldIssues(f);
      if issues != [] then Err(issues)
      else
        var level := Get(f, "level");
        var req := GenerationRequest(
          Get(f, "sessionType").s, Get(f, "sessionFocus").s,
          Get(f, "durationMinutes").n, Get(f, "participants").n,
          if level.Str? then Some(level.s) else None);
        assert RequestJson(req).fields == Project(f);
        Ok(req)
  }

  /** The five fields the schema reads, with `level` only when present. */
  function Project(f: map<string, Json>): map<string, Json> {
    var base := map[
      "sessionType" := Get(f, "sessionType"),
      "sessionFocus" := Get(f, "sessionFocus"),
      "durationMinutes" := Get(f, "durationMinutes"),
      "participants" := Get(f, "participants")];
    if "level" in f && !f["level"].Undefined? then base["level" := f["level"]] else base
  }

  /** The JSON body a client sends for a request. */
  function RequestJson(req: GenerationRequest): (j: Json)
    ensures j.Obj?
  {
    var base := map[
      "sessionType" := Str(req.sessionType),
      "sessionFocus" := Str(req.sessionFocus),
      "durationMinutes" := Num(req.durationMinutes),
      "participants" := Num(req.participants)];
    Obj(match req.level
        case None => base
        case Some(l) => base["level" := Str(l)])
  }

  predicate WellFormedRequest(req: GenerationRequest) {
    && IsSessionType(req.sessionType)
    && |req.sessionFocus| >= 1
    && 15.0 <= req.durationMinutes <= 90.0
    && 1.0 <= req.participants <= 30.0
  }

  /** Every request inside the schema's bounds, sent as JSON, is accepted
      and read back unchanged. */
  lemma AcceptsEveryWellFormedRequest(req: GenerationRequest)
    requires WellFormedRequest(req)
    ensures ParseGenerationRequest(RequestJson(req)) == Ok(req)
  {
    var f := RequestJson(req).fields;
    assert Get(f, "sessionType") == Str(req.sessionType);
    assert Get(f, "sessionFocus") == Str(req.sessionFocus);
    assert Get(f, "durationMinutes") == Num(req.durationMinutes);
    assert Get(f, "participants") == Num(req.participants);
    assert Get(f, "level") == if req.level.Some? then Str(req.level.value) else Undefined;
  }

  /** Keys other than the five schema fields never change the verdict. */
  lemma IgnoresUnknownKeys(fields: map<string, Json>, key: string, v: Json)
    requires key !in {"sessionType", "sessionFocus", "durationMinutes", "participants", "level"}
    ensures ParseGenerationRequest(Obj(fields[key := v])) == ParseGenerationRequest(Obj(fields))
  {
    var g := fields[key := v];
    assert forall k | k != key :: Get(g, k) == Get(fields, k);
    assert Project(g) == Project(fields);
  }
}

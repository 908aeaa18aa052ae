/** The save button of a generated session
    (client/src/components/session/session-results.tsx): the generator's
    snake_case document is mapped onto the camelCase columns of the
    `sessions` table before it is posted. */
module SessionResults {
  import opened JsValues
  import opened Schema
  import MockData

  /** The object `handleSave` posts: one field per column of the
      `sessions` table it fills. */
  datatype SavePayload = SavePayload(
    title: Json, sessionType: Json, sessionFocus: Json, durationMinutes: Json,
    participants: Json, level: Json, objectives: Json, equipment: Json,
    safetyNotes: Json, warmup: Json, practices: Json, smallSidedGame: Json,
    cooldown: Json, diagrams: Json)

  /** `sessionToSave` in `handleSave`: each column from the snake_case field
      when it is truthy, else the camelCase one, else (for the structured
      columns) an empty array or object. */
  function SessionToSave(session: map<string, Json>): (r: SavePayload)
    ensures r.sessionType in {Get(session, "session_type"), Get(session, "sessionType")}
    ensures r.sessionFocus in {Get(session, "session_focus"), Get(session, "sessionFocus")}
    ensures r.durationMinutes in {Get(session, "duration_minutes"), Get(session, "durationMinutes")}
    ensures r.safetyNotes in {Get(session, "safety_notes"), Get(session, "safetyNotes"), Arr([])}
    ensures r.smallSidedGame in {Get(session, "small_sided_game"), Get(session, "smallSidedGame"), Obj(map[])}
    ensures r.objectives in {Get(session, "objectives"), Arr([])} && r.equipment in {Get(session, "equipment"), Arr([])}
    ensures r.practices in {Get(session, "practices"), Arr([])}
    ensures r.warmup in {Get(session, "warmup"), Obj(map[])} && r.cooldown in {Get(session, "cooldown"), Obj(map[])}
    ensures r.diagrams in {Get(session, "diagrams"), Obj(map[])}
  {
    SavePayload(
      Get(session, "title"),
      Or(Get(session, "session_type"), Get(session, "sessionType")),
      Or(Get(session, "session_focus"), Get(session, "sessionFocus")),
      Or(Get(session, "duration_minutes"), Get(session, "durationMinutes")),
      Get(session, "participants"),
      Get(session, "level"),
      Or(Get(session, "objectives"), Arr([])),
      Or(Get(session, "equipment"), Arr([])),
      Or(Or(Get(session, "safety_notes"), Get(session, "safetyNotes")), Arr([])),
      Or(Get(session, "warmup"), Obj(map[])),
      Or(Get(session, "practices"), Arr([])),
      Or(Or(Get(session, "small_sided_game"), Get(session, "smallSidedGame")), Obj(map[])),
      Or(Get(session, "cooldown"), Obj(map[])),
      Or(Get(session, "diagrams"), Obj(map[])))
  }

  /** The keys `SessionToSave` reads. */
  const ReadKeys: set<string> := {
    "title", "session_type", "sessionType", "session_focus", "sessionFocus",
    "duration_minutes", "durationMinutes", "participants", "level", "objectives",
    "equipment", "safety_notes", "safetyNotes", "warmup", "practices",
    "small_sided_game", "smallSidedGame", "cooldown", "diagrams"}

  /** The snake_case field wins when truthy; a falsy one (absent, `0`, `""`)
      falls through to the camelCase field. */
  lemma SnakeCaseFirst(session: map<string, Json>)
    ensures var r := SessionToSave(session);
      && (Truthy(Get(session, "session_type")) ==> r.sessionType == session["session_type"])
      && (!Truthy(Get(session, "session_type")) ==> r.sessionType == Get(session, "sessionType"))
      && (Truthy(Get(session, "session_focus")) ==> r.sessionFocus == session["session_focus"])
      && (!Truthy(Get(session, "session_focus")) ==> r.sessionFocus == Get(session, "sessionFocus"))
      && (Truthy(Get(session, "duration_minutes")) ==> r.durationMinutes == session["duration_minutes"])
      && (!Truthy(Get(session, "duration_minutes")) ==> r.durationMinutes == Get(session, "durationMinutes"))
      && (Truthy(Get(session, "small_sided_game")) ==> r.smallSidedGame == session["small_sided_game"])
      && (!Truthy(Get(session, "small_sided_game")) && Truthy(Get(session, "smallSidedGame")) ==>
            r.smallSidedGame == session["smallSidedGame"])
      && (Truthy(Get(session, "safety_notes")) ==> r.safetyNotes == session["safety_notes"])
      && (!Truthy(Get(session, "safety_notes")) && Truthy(Get(session, "safetyNotes")) ==>
            r.safetyNotes == session["safetyNotes"])
  {
  }

  /** A zero duration under the snake_case key is lost: the camelCase key
      (usually absent) is sent instead. */
  lemma ZeroDurationFallsThrough(session: map<string, Json>)
    requires "duration_minutes" in session && session["duration_minutes"] == Num(0.0)
    requires "durationMinutes" !in session
    ensures SessionToSave(session).durationMinutes == Undefined
  {
  }

  /** The structured columns are never falsy: a missing list becomes `[]`, a
      missing block `{}`, and a missing `diagrams` the object `{}` rather
      than an array. */
  lemma StructuredColumnsDefault(session: map<string, Json>)
    ensures var r := SessionToSave(session);
      && Truthy(r.objectives) && Truthy(r.equipment) && Truthy(r.safetyNotes)
      && Truthy(r.warmup) && Truthy(r.practices) && Truthy(r.smallSidedGame)
      && Truthy(r.cooldown) && Truthy(r.diagrams)
      && (!Truthy(Get(session, "objectives")) ==> r.objectives == Arr([]))
      && (!Truthy(Get(session, "equipment")) ==> r.equipment == Arr([]))
      && (!Truthy(Get(session, "practices")) ==> r.practices == Arr([]))
      && (!Truthy(Get(session, "safety_notes")) && !Truthy(Get(session, "safetyNotes")) ==> r.safetyNotes == Arr([]))
      && (!Truthy(Get(session, "warmup")) ==> r.warmup == Obj(map[]))
      && (!Truthy(Get(session, "cooldown")) ==> r.cooldown == Obj(map[]))
      && (!Truthy(Get(session, "small_sided_game")) && !Truthy(Get(session, "smallSidedGame")) ==>
            r.smallSidedGame == Obj(map[]))
      && (!Truthy(Get(session, "diagrams")) ==> r.diagrams == Obj(map[]))
  {
  }

  /** A truthy value under a structured column's own key is sent as it is. */
  lemma StructuredColumnsKept(session: map<string, Json>)
    ensures var r := SessionToSave(session);
      && (Truthy(Get(session, "objectives")) ==> r.objectives == session["objectives"])
      && (Truthy(Get(session, "equipment")) ==> r.equipment == session["equipment"])
      && (Truthy(Get(session, "practices")) ==> r.practices == session["practices"])
      && (Truthy(Get(session, "warmup")) ==> r.warmup == session["warmup"])
      && (Truthy(Get(session, "cooldown")) ==> r.cooldown == session["cooldown"])
      && (Truthy(Get(session, "diagrams")) ==> r.diagrams == session["diagrams"])
  {
  }

  /** Title, participants and level are copied as they are, even when absent. */
  lemma CopiedUnchanged(session: map<string, Json>)
    ensures var r := SessionToSave(session);
      r.title == Get(session, "title") && r.participants == Get(session, "participants")
      && r.level == Get(session, "level")
  {
  }

  /** No other field is carried over: the payload is the same whatever the
      session holds under keys the mapping does not read, such as `id` or
      `createdAt`. */
  lemma OtherKeysIgnored(session: map<string, Json>, key: string, v: Json)
    requires key !in ReadKeys
    ensures SessionToSave(session[key := v]) == SessionToSave(session)
  {
    var s2 := session[key := v];
    forall k | k in ReadKeys ensures Get(s2, k) == Get(session, k) {
    }
  }

  /** A mock document saved from the page keeps the request's type,
      duration and player count: the snake_case fields the mock writes
      are truthy, so they win over the (absent) camelCase ones. */
  lemma SavingAMockSession(req: GenerationRequest)
    requires IsSessionType(req.sessionType) && 15.0 <= req.durationMinutes
    ensures var r := SessionToSave(MockData.GetMockSessionAsWritten(req).fields);
      && r.sessionType == Str(req.sessionType)
      && r.durationMinutes == Num(req.durationMinutes)
      && r.participants == Num(req.participants)
  {
    var f := MockData.GetMockSessionAsWritten(req).fields;
    assert Get(f, "session_type") == Str(req.sessionType) && Truthy(Get(f, "session_type"));
    assert Get(f, "duration_minutes") == Num(req.durationMinutes) && Truthy(Get(f, "duration_minutes"));
    SnakeCaseFirst(f);
    CopiedUnchanged(f);
  }
}

/** The development-mode session generator (server/mock-data.ts): a table of
    two fixture documents keyed by session type and focus, a lookup with a
    fallback, and the overriding of the request's own fields. */
module MockData {
  import opened Wrappers
  import opened JsValues
  import opened Schema

  /** The session document every generator produces (the fixed JSON shape
      the live model is instructed to follow), field names in camelCase
      here and snake_case once serialised by `DocJson`. */
  datatype Warmup = Warmup(name: string, durationMinutes: real, description: string)

  datatype Practice = Practice(
    name: string,
    durationMinutes: real,
    playersRequired: real,
    areaMeters: (real, real),
    setupDescription: string,
    steps: seq<string>,
    coachingPoints: seq<string>,
    aims: seq<string>,
    difficultyLevel: int,
    diagramSvg: string)

  datatype Block = Block(durationMinutes: real, description: string)

  datatype Diagram = Diagram(practiceName: string, svg: string)

  datatype SessionDoc = SessionDoc(
    title: string,
    level: string,
    sessionType: string,
    sessionFocus: string,
    durationMinutes: real,
    participants: real,
    objectives: seq<string>,
    equipment: seq<string>,
    warmup: Warmup,
    practices: seq<Practice>,
    smallSidedGame: Block,
    cooldown: Block,
    safetyNotes: seq<string>,
    diagrams: seq<Diagram>)

  /** The `outfield`/`passing` fixture, also the fallback for any other pair. */
  const OutfieldPassing: SessionDoc := SessionDoc(
    title := "Passing & Receiving Workshop",
    level := "Youth U12",
    sessionType := "outfield",
    sessionFocus := "passing",
    durationMinutes := 60.0,
    participants := 14.0,
    objectives := [
      "Improve passing accuracy under pressure",
      "Develop first touch and ball control",
      "Build confidence in possession"],
    equipment := [
      "20 x Footballs",
      "16 x Cones",
      "4 x Training goals",
      "8 x Mannequins",
      "Bibs (3 colors)"],
    warmup := Warmup("Dynamic Movement", 10.0,
      "Light jogging followed by dynamic stretches including leg swings, high knees, and ball touches. Players work in pairs with simple passing while moving."),
    practices := [
      Practice(
        name := "Short Passing Accuracy",
        durationMinutes := 15.0,
        playersRequired := 14.0,
        areaMeters := (20.0, 15.0),
        setupDescription := "Set up 4 stations with cones 10 meters apart. Players work in pairs, focusing on accurate ground passes.",
        steps := [
          "Players face each other 10m apart",
          "Pass with inside of foot, receive with first touch",
          "Progress to one-touch passing",
          "Add pressure with passive defender"],
        coachingPoints := [
          "Keep head up before passing",
          "Use inside of foot for accuracy",
          "Receive across your body",
          "Communicate with your partner"],
        aims := [
          "Improve passing accuracy to 85%",
          "Develop consistent first touch",
          "Build passing confidence under pressure"],
        difficultyLevel := 2,
        diagramSvg := "<svg viewBox=\"0 0 200 150\" xmlns=\"http://www.w3.org/2000/svg\">\n            <rect x=\"10\" y=\"10\" width=\"180\" height=\"130\" fill=\"none\" stroke=\"#2c3e50\" stroke-width=\"2\"/>\n            <circle cx=\"50\" cy=\"75\" r=\"8\" fill=\"#3498db\"/>\n            <circle cx=\"150\" cy=\"75\" r=\"8\" fill=\"#e74c3c\"/>\n            <path d=\"M 58 75 L 142 75\" stroke=\"#2c3e50\" stroke-width=\"2\" marker-end=\"url(#arrowhead)\"/>\n            <defs>\n              <marker id=\"arrowhead\" markerWidth=\"10\" markerHeight=\"7\" refX=\"9\" refY=\"3.5\" orient=\"auto\">\n                <polygon points=\"0 0, 10 3.5, 0 7\" fill=\"#2c3e50\"/>\n              </marker>\n            </defs>\n            <text x=\"100\" y=\"95\" text-anchor=\"middle\" font-size=\"12\" fill=\"#2c3e50\">10m</text>\n          </svg>"),
      Practice(
        name := "Triangle Passing",
        durationMinutes := 20.0,
        playersRequired := 12.0,
        areaMeters := (15.0, 15.0),
        setupDescription := "Create triangles with 3 players, 5 meters apart. Focus on quick, accurate passing and movement.",
        steps := [
          "Form triangles of 3 players",
          "Pass clockwise, then counter-clockwise",
          "Add movement after each pass",
          "Introduce two-ball exercise"],
        coachingPoints := [
          "Pass and move to create angles",
          "Receive on back foot when possible",
          "Keep the tempo high",
          "Support your teammates"],
        aims := [
          "Develop quick passing rhythm",
          "Improve off-ball movement",
          "Build team passing patterns"],
        difficultyLevel := 3,
        diagramSvg := "<svg viewBox=\"0 0 200 150\" xmlns=\"http://www.w3.org/2000/svg\">\n            <polygon points=\"100,30 50,120 150,120\" fill=\"none\" stroke=\"#2c3e50\" stroke-width=\"2\"/>\n            <circle cx=\"100\" cy=\"30\" r=\"8\" fill=\"#3498db\"/>\n            <circle cx=\"50\" cy=\"120\" r=\"8\" fill=\"#e74c3c\"/>\n            <circle cx=\"150\" cy=\"120\" r=\"8\" fill=\"#f39c12\"/>\n            <path d=\"M 100 38 L 58 112\" stroke=\"#2c3e50\" stroke-width=\"2\" marker-end=\"url(#arrowhead)\"/>\n            <path d=\"M 58 120 L 142 120\" stroke=\"#2c3e50\" stroke-width=\"2\" marker-end=\"url(#arrowhead)\"/>\n            <path d=\"M 150 112 L 108 38\" stroke=\"#2c3e50\" stroke-width=\"2\" marker-end=\"url(#arrowhead)\"/>\n            <text x=\"100\" y=\"140\" text-anchor=\"middle\" font-size=\"12\" fill=\"#2c3e50\">5m each side</text>\n          </svg>")],
    smallSidedGame := Block(10.0,
      "4v4 possession game in 20x20m area. Team keeps ball for 6 consecutive passes to score a point. Focus on quick passing and creating space."),
    cooldown := Block(5.0,
      "Light jogging around the pitch followed by static stretching. Focus on hamstrings, calves, and quadriceps. Players walk and discuss key points from the session."),
    safetyNotes := [
      "Check pitch for holes or dangerous objects",
      "Ensure proper warm-up before intense activities",
      "Keep hydration available at all times",
      "Monitor player fatigue levels"],
    diagrams := [
      Diagram("Short Passing Accuracy", "<svg viewBox=\"0 0 200 150\" xmlns=\"http://www.w3.org/2000/svg\">...</svg>")])

  /** The `goalkeeping`/`handling` fixture. */
  const GoalkeepingHandling: SessionDoc := SessionDoc(
    title := "Goalkeeping Handling Workshop",
    level := "Youth U12",
    sessionType := "goalkeeping",
    sessionFocus := "handling",
    durationMinutes := 60.0,
    participants := 6.0,
    objectives := [
      "Improve catching technique for various ball heights",
      "Develop safe handling under pressure",
      "Build confidence in 1v1 situations"],
    equipment := [
      "15 x Footballs",
      "2 x Full-size goals",
      "12 x Cones",
      "4 x Agility poles",
      "2 x Rebounders"],
    warmup := Warmup("Goalkeeper Mobility", 10.0,
      "Dynamic warm-up including arm circles, leg swings, and diving preparation. Progress to basic catching with thrown balls."),
    practices := [
      Practice(
        name := "Basic Catching Technique",
        durationMinutes := 20.0,
        playersRequired := 6.0,
        areaMeters := (18.0, 6.0),
        setupDescription := "Goalkeepers work in pairs, one throwing balls at various heights while the other practices catching technique.",
        steps := [
          "Start with underarm throws at chest height",
          "Progress to balls thrown at head height",
          "Add balls thrown to either side",
          "Introduce bouncing balls"],
        coachingPoints := [
          "Get body behind the ball",
          "Use the 'W' shape with hands",
          "Secure the ball to chest quickly",
          "Stay on balls of feet"],
        aims := [
          "Perfect the basic catching position",
          "Develop muscle memory for safe handling",
          "Build confidence with ball handling"],
        difficultyLevel := 2,
        diagramSvg := "<svg viewBox=\"0 0 200 150\" xmlns=\"http://www.w3.org/2000/svg\">\n            <rect x=\"20\" y=\"20\" width=\"160\" height=\"110\" fill=\"none\" stroke=\"#2c3e50\" stroke-width=\"2\"/>\n            <circle cx=\"60\" cy=\"75\" r=\"10\" fill=\"#3498db\"/>\n            <circle cx=\"140\" cy=\"75\" r=\"10\" fill=\"#e74c3c\"/>\n            <circle cx=\"100\" cy=\"50\" r=\"4\" fill=\"#f39c12\"/>\n            <path d=\"M 70 75 L 96 54\" stroke=\"#2c3e50\" stroke-width=\"2\" marker-end=\"url(#arrowhead)\"/>\n            <text x=\"100\" y=\"145\" text-anchor=\"middle\" font-size=\"12\" fill=\"#2c3e50\">6m apart</text>\n          </svg>")],
    smallSidedGame := Block(15.0,
      "2v2 game with goalkeepers. Focus on handling under pressure and quick distribution to teammates."),
    cooldown := Block(5.0,
      "Light stretching focusing on shoulders, back, and legs. Review key handling points and discuss session highlights."),
    safetyNotes := [
      "Ensure goals are properly secured",
      "Check for proper glove fit",
      "Clear the goal area of obstacles",
      "Progress diving exercises gradually"],
    diagrams := [])

  function Strings(xs: seq<string>): (j: Json)
    ensures j.Arr? && |j.items| == |xs|
  {
    Arr(seq(|xs|, i requires 0 <= i < |xs| => Str(xs[i])))
  }

  function PracticeJson(p: Practice): Json {
    Obj(map[
      "name" := Str(p.name),
      "duration_minutes" := Num(p.durationMinutes),
      "players_required" := Num(p.playersRequired),
      "area_meters" := Arr([Num(p.areaMeters.0), Num(p.areaMeters.1)]),
      "setup_description" := Str(p.setupDescription),
      "steps" := Strings(p.steps),
      "coaching_points" := Strings(p.coachingPoints),
      "aims" := Strings(p.aims),
      "difficulty_level" := Num(p.difficultyLevel as real),
      "diagram_svg" := Str(p.diagramSvg)])
  }

  function BlockJson(b: Block): Json {
    Obj(map["duration_minutes" := Num(b.durationMinutes), "description" := Str(b.description)])
  }

  /** The document's fields as the JSON object the server sends. */
  function DocFields(d: SessionDoc): map<string, Json> {
    map[
      "title" := Str(d.title),
      "level" := Str(d.level),
      "session_type" := Str(d.sessionType),
      "session_focus" := Str(d.sessionFocus),
      "duration_minutes" := Num(d.durationMinutes),
      "participants" := Num(d.participants),
      "objectives" := Strings(d.objectives),
      "equipment" := Strings(d.equipment),
      "warmup" := Obj(map[
        "name" := Str(d.warmup.name),
        "duration_minutes" := Num(d.warmup.durationMinutes),
        "description" := Str(d.warmup.description)]),
      "practices" := Arr(seq(|d.practices|, i requires 0 <= i < |d.practices| => PracticeJson(d.practices[i]))),
      "small_sided_game" := BlockJson(d.smallSidedGame),
      "cooldown" := BlockJson(d.cooldown),
      "safety_notes" := Strings(d.safetyNotes),
      "diagrams" := Arr(seq(|d.diagrams|, i requires 0 <= i < |d.diagrams| =>
        Obj(map["practice_name" := Str(d.diagrams[i].practiceName), "svg" := Str(d.diagrams[i].svg)])))]
  }

  /** The names an ordinary JavaScript object inherits from `Object.prototype`.
      Reading one of them from the fixture table yields a truthy function (or,
      for `__proto__`, the prototype object itself), never `undefined`. */
  const InheritedNames: set<string> := {
    "constructor", "__proto__", "__defineGetter__", "__defineSetter__",
    "__lookupGetter__", "__lookupSetter__", "hasOwnProperty", "isPrototypeOf",
    "propertyIsEnumerable", "toString", "toLocaleString", "valueOf"}

  /** What `MOCK_SESSIONS[type]?.[focus]` reads for a valid session type. */
  datatype Lookup = Fixture(doc: SessionDoc) | InheritedMember | Missing

  function LookupFixture(sessionType: string, focus: string): (r: Lookup)
    requires IsSessionType(sessionType)
    ensures r.Fixture? <==> (sessionType, focus) in {("outfield", "passing"), ("goalkeeping", "handling")}
    ensures r.InheritedMember? <==> focus in InheritedNames
  {
    if sessionType == "outfield" && focus == "passing" then Fixture(OutfieldPassing)
    else if sessionType == "goalkeeping" && focus == "handling" then Fixture(GoalkeepingHandling)
    else if focus in InheritedNames then InheritedMember
    else Missing
  }

  function LevelJson(level: Option<string>): Json {
    match level
    case None => Undefined
    case Some(l) => Str(l)
  }

  /** `{ ...sessionData, duration_minutes, participants, level, session_type,
      session_focus }` over a spread base and the base's own `level`. */
  function Override(base: map<string, Json>, baseLevel: Json, req: GenerationRequest): map<string, Json> {
    base["duration_minutes" := Num(req.durationMinutes)]
        ["participants" := Num(req.participants)]
        ["level" := Or(Or(LevelJson(req.level), baseLevel), Str("General"))]
        ["session_type" := Str(req.sessionType)]
        ["session_focus" := Str(req.sessionFocus)]
  }

  /** The keys `Override` writes. */
  const RequestKeys: set<string> := {"duration_minutes", "participants", "level", "session_type", "session_focus"}

  /** `getMockSession` as written: an inherited member name as the focus is
      truthy, so it is spread (contributing no fields) instead of falling
      back to the default fixture. */
  function GetMockSessionAsWritten(req: GenerationRequest): (j: Json)
    requires IsSessionType(req.sessionType)
    ensures j.Obj?
    ensures RequestKeys <= j.fields.Keys
    ensures j.fields["duration_minutes"] == Num(req.durationMinutes)
    ensures j.fields["participants"] == Num(req.participants)
    ensures j.fields["session_type"] == Str(req.sessionType)
    ensures j.fields["session_focus"] == Str(req.sessionFocus)
  {
    match LookupFixture(req.sessionType, req.sessionFocus)
    case Fixture(d) => Obj(Override(DocFields(d), Str(d.level), req))
    case InheritedMember => Obj(Override(map[], Undefined, req))
    case Missing => Obj(Override(DocFields(OutfieldPassing), Str(OutfieldPassing.level), req))
  }

  /** The fixture document chosen for a request: the exact pair when the table
      has it, the `outfield`/`passing` fixture otherwise. */
  function ChooseFixture(sessionType: string, focus: string): (d: SessionDoc)
    requires IsSessionType(sessionType)
    ensures sessionType == "goalkeeping" && focus == "handling" ==> d == GoalkeepingHandling
    ensures !(sessionType == "goalkeeping" && focus == "handling") ==> d == OutfieldPassing
  {
    match LookupFixture(sessionType, focus)
    case Fixture(d) => d
    case _ => OutfieldPassing
  }

  /** `getMockSession` as evidently intended: only the table's own entries
      are looked up, every other pair falls back to `outfield`/`passing`. */
  function GetMockSession(req: GenerationRequest): (j: Json)
    requires IsSessionType(req.sessionType)
    ensures j.Obj?
    ensures RequestKeys <= j.fields.Keys
    ensures j.fields["duration_minutes"] == Num(req.durationMinutes)
    ensures j.fields["participants"] == Num(req.participants)
    ensures j.fields["session_type"] == Str(req.sessionType)
    ensures j.fields["session_focus"] == Str(req.sessionFocus)
  {
    var d := ChooseFixture(req.sessionType, req.sessionFocus);
    Obj(Override(DocFields(d), Str(d.level), req))
  }

  /** The level is the request's when it is a non-empty string, otherwise the
      fixture's, which is "Youth U12" in both fixtures. */
  lemma MockLevel(req: GenerationRequest)
    requires IsSessionType(req.sessionType)
    ensures GetMockSession(req).fields["level"] ==
      if req.level.Some? && req.level.value != "" then Str(req.level.value) else Str("Youth U12")
  {
  }

  /** Every other field is exactly the chosen fixture's, and no key is added
      or lost: the document has the fixture's fourteen keys. */
  lemma MockKeepsFixtureContent(req: GenerationRequest, key: string)
    requires IsSessionType(req.sessionType)
    ensures var d := ChooseFixture(req.sessionType, req.sessionFocus);
      && GetMockSession(req).fields.Keys == DocFields(d).Keys
      && (key in DocFields(d) && key !in RequestKeys ==> GetMockSession(req).fields[key] == DocFields(d)[key])
  {
  }

  /** A pair the table lacks, such as goalkeeping/diving, gets the outfield
      passing content relabelled with the requested type and focus. */
  lemma FallbackRelabels(req: GenerationRequest)
    requires IsSessionType(req.sessionType)
    requires (req.sessionType, req.sessionFocus) !in {("outfield", "passing"), ("goalkeeping", "handling")}
    ensures var f := GetMockSession(req).fields;
      && f["title"] == Str("Passing & Receiving Workshop")
      && f["practices"] == DocFields(OutfieldPassing)["practices"]
      && f["session_type"] == Str(req.sessionType)
      && f["session_focus"] == Str(req.sessionFocus)
  {
  }

  predicate PracticeWellFormed(p: Practice) {
    1 <= p.difficultyLevel <= 5 && |p.diagramSvg| > 0
  }

  /** The passing fixture has two practices, each with a difficulty level from
      1 to 5 and a non-empty diagram. */
  lemma OutfieldPassingPractices()
    ensures |OutfieldPassing.practices| == 2
    ensures PracticeWellFormed(OutfieldPassing.practices[0])
    ensures PracticeWellFormed(OutfieldPassing.practices[1])
  {
  }

  /** The handling fixture has a single practice, fewer than the two to four
      the live model is asked for. */
  lemma GoalkeepingHandlingPractices()
    ensures |GoalkeepingHandling.practices| == 1
    ensures PracticeWellFormed(GoalkeepingHandling.practices[0])
  {
  }

  /** The source as written: a focus naming an inherited member such as
      "constructor" yields a document with only the five request fields,
      its level the request's or else "General", where the intended lookup
      (`FallbackRelabels`) gives the passing fixture. */
  lemma InheritedFocusDropsFixture(req: GenerationRequest)
    requires IsSessionType(req.sessionType) && req.sessionFocus in InheritedNames
    ensures GetMockSessionAsWritten(req).fields.Keys == RequestKeys
    ensures GetMockSessionAsWritten(req).fields["level"] ==
      if req.level.Some? && req.level.value != "" then Str(req.level.value) else Str("General")
  {
    assert LookupFixture(req.sessionType, req.sessionFocus) == InheritedMember;
    assert GetMockSessionAsWritten(req).fields == Override(map[], Undefined, req);
  }

  /** Outside the inherited names the written and the intended lookups agree. */
  lemma AsWrittenAgreesOnOrdinaryFocus(req: GenerationRequest)
    requires IsSessionType(req.sessionType) && req.sessionFocus !in InheritedNames
    ensures GetMockSessionAsWritten(req) == GetMockSession(req)
  {
  }
}

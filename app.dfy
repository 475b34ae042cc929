/** The HTTP front end: bearer-token authentication, the persona table that
    configures the agent, the task description handed to it, and the chunking
    of its answer into server-sent events. Token decoding and the agent run
    itself are parameters. */
module App {
  import opened Values
  import opened Text

  // ------------------------------------------------------------------ auth

  const InvalidToken := HttpError(401, "Invalid token")

  /** `auth(authorization)`: the second space-separated field of the header
      is decoded (`decode` stands for the HS256 check with the server's
      secret) and its `uid`, `role` and `sid` claims become the caller's
      identity. Every failure is the same 401. */
  function Authenticate(header: string, decode: string -> Option<Entries>): (r: Result<Entries>)
    ensures r.Err? ==> r.error == InvalidToken
    ensures r.Ok? <==>
      var fields := Split(header, ' ');
      |fields| >= 2 && decode(fields[1]).Some?
      && HasKey(decode(fields[1]).value, "uid") && HasKey(decode(fields[1]).value, "role")
      && HasKey(decode(fields[1]).value, "sid")
    ensures r.Ok? ==>
      var claims := decode(Split(header, ' ')[1]).value;
      Keys(r.value) == ["user_id", "role", "school_id"]
      && Get(claims, "uid") == Some(r.value[0].1)
      && Get(claims, "role") == Some(r.value[1].1)
      && Get(claims, "sid") == Some(r.value[2].1)
  {
    var fields := Split(header, ' ');
    if |fields| < 2 then Err(InvalidToken)
    else
      match decode(fields[1])
      case None => Err(InvalidToken)
      case Some(claims) =>
        match (Get(claims, "uid"), Get(claims, "role"), Get(claims, "sid"))
        case (Some(uid), Some(role), Some(sid)) =>
          var ctx := [("user_id", uid), ("role", role), ("school_id", sid)];
          assert Keys(ctx) == ["user_id", "role", "school_id"];
          Ok(ctx)
        case _ => Err(InvalidToken)
  }

  /** A header without a space has no token and is refused whatever the
      decoder would say. */
  lemma HeaderWithoutTokenRejected(header: string, decode: string -> Option<Entries>)
    requires ' ' !in header
    ensures Authenticate(header, decode) == Err(InvalidToken)
  {
    SplitWithoutSep(header, ' ');
  }

  /** For `"<scheme> <token>"` it is exactly `token` that is decoded. */
  lemma BearerTokenDecoded(scheme: string, token: string, decode: string -> Option<Entries>, claims: Entries)
    requires ' ' !in scheme && ' ' !in token
    requires decode(token) == Some(claims)
    requires HasKey(claims, "uid") && HasKey(claims, "role") && HasKey(claims, "sid")
    ensures Authenticate(scheme + " " + token, decode)
      == Ok([("user_id", Get(claims, "uid").value), ("role", Get(claims, "role").value),
             ("school_id", Get(claims, "sid").value)])
  {
    SplitWithoutSep(token, ' ');
    SplitAtFirst(scheme, ' ', token);
    assert scheme + " " + token == scheme + [' '] + token;
  }

  // ----------------------------------------------------------- build_agent

  /** The three agent roles. */
  datatype Role = ParentCoach | SchoolInsights | TeacherAdvisor

  function RoleTitle(r: Role): string {
    match r
    case ParentCoach => "Parent Coach"
    case SchoolInsights => "School Insights"
    case TeacherAdvisor => "Teacher Advisor"
  }

  function Goal(r: Role): string {
    match r
    case ParentCoach => "Summarize a child's progress in plain English and suggest at-home support."
    case SchoolInsights => "Provide school-level analytics and risks from available data."
    case TeacherAdvisor => "Explain a student's performance and suggest next steps using school data and curriculum."
  }

  function Backstory(r: Role): string {
    match r
    case ParentCoach =>
      "You are a friendly coach who translates school data for parents and offers"
      + " practical tips for learning at home."
    case SchoolInsights =>
      "You monitor trends across the school, highlighting risks and opportunities"
      + " using academic and behavioural signals."
    case TeacherAdvisor =>
      "You support classroom teachers by analysing curriculum coverage and results"
      + " to recommend actionable next steps."
  }

  /** The agent's configuration: its role (which fixes its title, goal and
      backstory) and the names of its tools in the order given. */
  datatype Agent = Agent(role: Role, tools: seq<string>)

  const ToolNames := ["pg_safe_query", "rag_search", "report_compose"]

  /** `build_agent(persona, tools)`: "parent" and "admin" pick their own
      role; every other persona value gets the teacher advisor. */
  function BuildAgent(persona: Value): (a: Agent)
    ensures a.tools == ToolNames
    ensures a.role == ParentCoach <==> persona == Str("parent")
    ensures a.role == SchoolInsights <==> persona == Str("admin")
    ensures a.role == TeacherAdvisor <==> persona != Str("parent") && persona != Str("admin")
  {
    var role :=
      if persona == Str("parent") then ParentCoach
      else if persona == Str("admin") then SchoolInsights
      else TeacherAdvisor;
    Agent(role, ToolNames)
  }

  // ------------------------------------------------------ chat, chat_stream

  datatype TaskSpec = TaskSpec(description: string, expectedOutput: string, agent: Agent)

  const AuthInstruction := "When calling any tool, always include a params key `_auth` with this JSON:\n"
  /** What follows the identity: the tool advice that closes the
      instructions, then the lead-in to the user's message. */
  const AfterIdentity :=
    "\n" + "Use pg_safe_query for DB reads and rag_search for curriculum/help. Be concise."
    + "\n\nUser says: "
  const ExpectedOutput := "A concise, student-friendly answer that references relevant school data."

  /** The task description: the `_auth` instruction, the caller's identity as
      `str()` renders the dict, the tool advice, then the user's message. */
  function Description(ctx: Entries, message: Value): string {
    AuthInstruction + ToStr(Dict(ctx)) + AfterIdentity + ToStr(message)
  }

  /** The task `chat` and `chat_stream` build from the request body; a body
      without "message" raises before any agent is built. */
  function ChatTask(body: Entries, ctx: Entries): (r: Result<TaskSpec>)
    ensures r.Err? <==> !HasKey(body, "message")
    ensures r.Err? ==> r.error == KeyError("message")
  {
    var persona := GetOr(body, "persona", Str("teacher"));
    match Get(body, "message")
    case None => Err(KeyError("message"))
    case Some(message) =>
      Ok(TaskSpec(Description(ctx, message), ExpectedOutput, BuildAgent(persona)))
  }

  /** `s` contains `sub` starting at position `at`. */
  predicate OccursAt(sub: string, s: string, at: nat) {
    at + |sub| <= |s| && s[at..at + |sub|] == sub
  }

  /** The description carries the instruction, the identity and the message,
      in that order: the instruction opens it, the identity follows it
      directly, and the message closes it. */
  lemma DescriptionOrder(ctx: Entries, message: Value)
    ensures var d := Description(ctx, message);
      var at := |AuthInstruction|;
      var m := |d| - |ToStr(message)|;
      && OccursAt(AuthInstruction, d, 0)
      && OccursAt(ToStr(Dict(ctx)), d, at)
      && OccursAt(ToStr(message), d, m)
      && at + |ToStr(Dict(ctx))| <= m
  {
    FourParts(AuthInstruction, ToStr(Dict(ctx)), AfterIdentity, ToStr(message));
  }

  lemma FourParts(p: string, x: string, q: string, y: string)
    ensures var d := p + x + q + y;
      OccursAt(p, d, 0) && OccursAt(x, d, |p|) && OccursAt(y, d, |d| - |y|)
      && |p| + |x| <= |d| - |y|
  {
    var d := p + x + q + y;
    assert d[..|p|] == p;
    assert d[|p|..|p| + |x|] == x;
    assert d[|d| - |y|..] == y;
  }

  /** The persona defaults to "teacher". */
  lemma DefaultPersonaIsTeacher(body: Entries, ctx: Entries)
    requires HasKey(body, "message") && !HasKey(body, "persona")
    ensures ChatTask(body, ctx).Ok? && ChatTask(body, ctx).value.agent.role == TeacherAdvisor
  {
  }

  /** The identity of a token with uid 1, role "admin" and sid 1. */
  const SampleIdentity: Entries := [("user_id", Int(1)), ("role", Str("admin")), ("school_id", Int(1))]

  /** `str()` renders that identity as `{'user_id': 1, ...}`. */
  lemma SampleIdentityRendering()
    ensures OccursAt("'user_id': 1", ToStr(Dict(SampleIdentity)), 1)
  {
    var ctx := SampleIdentity;
    DictOpens(ctx);
    assert Repr(Int(1)) == "1";
    assert "'" + ctx[0].0 + "': " + Repr(ctx[0].1) == "'user_id': 1";
    Between("{", "'user_id': 1", ", " + ReprEntries(Dict(ctx), ctx[1..]) + "}");
  }

  /** `str()` of a dict with several entries opens with its first entry. */
  lemma DictOpens(es: Entries)
    requires |es| > 1
    ensures ToStr(Dict(es))
         == "{" + ("'" + es[0].0 + "': " + Repr(es[0].1)) + (", " + ReprEntries(Dict(es), es[1..]) + "}")
  {
    var head := "'" + es[0].0 + "': " + Repr(es[0].1);
    var rest := ReprEntries(Dict(es), es[1..]);
    assert ReprEntries(Dict(es), es) == head + ", " + rest;
    Regroup("{", head, ", ", rest, "}");
  }

  lemma Regroup(a: string, b: string, c: string, d: string, e: string)
    ensures a + (b + c + d) + e == a + b + (c + d + e)
  {
  }

  lemma Between(a: string, x: string, b: string)
    ensures OccursAt(x, a + x + b, |a|)
  {
    assert (a + x + b)[|a|..|a| + |x|] == x;
  }

  lemma OccursWithin(sub: string, x: string, d: string, at: nat, k: nat)
    requires OccursAt(x, d, at) && OccursAt(sub, x, k)
    ensures OccursAt(sub, d, at + k)
  {
    var y := d[at..at + |x|];
    assert y == x;
    forall i | 0 <= i < |sub| ensures d[at + k + i] == sub[i] {
      assert d[at + k + i] == y[k + i] == x[k..k + |sub|][i];
    }
  }

  /** So the description of a chat under that identity shows `'user_id': 1`. */
  lemma DescriptionShowsUserId(message: Value)
    ensures OccursAt("'user_id': 1", Description(SampleIdentity, message), |AuthInstruction| + 1)
  {
    DescriptionOrder(SampleIdentity, message);
    SampleIdentityRendering();
    OccursWithin("'user_id': 1", ToStr(Dict(SampleIdentity)), Description(SampleIdentity, message), |AuthInstruction|, 1);
  }

  /** `chat(body, ctx)`: the JSON reply with the agent's answer; `kickoff`
      stands for running the crew on the task. */
  function Chat(body: Entries, ctx: Entries, kickoff: TaskSpec -> string): (r: Result<Value>)
    ensures r.Err? <==> !HasKey(body, "message")
    ensures r.Ok? ==> r.value == Dict([("answer", Str(kickoff(ChatTask(body, ctx).value)))])
  {
    match ChatTask(body, ctx)
    case Err(e) => Err(e)
    case Ok(task) => Ok(Dict([("answer", Str(kickoff(task)))]))
  }

  // ------------------------------------------------------------ event_gen

  const ChunkSize: nat := 256
  const DoneEvent := "event: done\ndata: [DONE]\n\n"

  function DataEvent(chunk: string): string {
    "data: " + chunk + "\n\n"
  }

  function Min(a: int, b: int): int {
    if a <= b then a else b
  }

  /** The answer cut into consecutive pieces of 256 characters, the last one
      possibly shorter. */
  function Chunks(text: string): seq<string>
    decreases |text|
  {
    if text == [] then []
    else [text[..Min(ChunkSize, |text|)]] + Chunks(text[Min(ChunkSize, |text|)..])
  }

  function Concat(parts: seq<string>): string {
    if parts == [] then [] else parts[0] + Concat(parts[1..])
  }

  /** The stream `event_gen` yields for an answer: one data event per chunk,
      then the done event. */
  function Events(text: string): seq<string> {
    seq(|Chunks(text)|, i requires 0 <= i < |Chunks(text)| => DataEvent(Chunks(text)[i])) + [DoneEvent]
  }

  /** `event_gen()`: the loop over `range(0, len(text), 256)`. */
  method EventStream(text: string) returns (events: seq<string>)
    ensures events == Events(text)
  {
    events := [];
    var i := 0;
    ChunksCount(text);
    while i < |text|
      invariant 0 <= i && i % ChunkSize == 0
      invariant i < |text| + ChunkSize
      invariant |events| == i / ChunkSize <= |Chunks(text)|
      invariant i <= |text| ==> |events| * ChunkSize == i
      invariant forall j :: 0 <= j < |events| ==> events[j] == DataEvent(Chunks(text)[j])
      decreases |text| - i
    {
      ChunkAt(text, i / ChunkSize);
      var chunk := text[i..Min(i + ChunkSize, |text|)];
      events := events + [DataEvent(chunk)];
      i := i + ChunkSize;
    }
    events := events + [DoneEvent];
  }

  /** There are ceil(len(text)/256) chunks. */
  lemma {:induction false} ChunksCount(text: string)
    ensures |Chunks(text)| == (|text| + ChunkSize - 1) / ChunkSize
    decreases |text|
  {
    if text != [] {
      ChunksCount(text[Min(ChunkSize, |text|)..]);
    }
  }

  /** The j-th chunk starts at 256*j. */
  lemma {:induction false} ChunkAt(text: string, j: nat)
    requires j < |Chunks(text)|
    ensures ChunkSize * j < |text|
    ensures Chunks(text)[j] == text[ChunkSize * j..Min(ChunkSize * j + ChunkSize, |text|)]
    decreases |text|
  {
    var n := Min(ChunkSize, |text|);
    if j > 0 {
      ChunkAt(text[n..], j - 1);
      assert n == ChunkSize;
      assert text[n..][ChunkSize * (j - 1)..Min(ChunkSize * (j - 1) + ChunkSize, |text| - n)]
          == text[ChunkSize * j..Min(ChunkSize * j + ChunkSize, |text|)];
    }
  }

  /** The chunks put back together give the answer. */
  lemma {:induction false} ChunksConcat(text: string)
    ensures Concat(Chunks(text)) == text
    decreases |text|
  {
    if text != [] {
      var n := Min(ChunkSize, |text|);
      ChunksConcat(text[n..]);
      assert ([text[..n]] + Chunks(text[n..]))[1..] == Chunks(text[n..]);
      assert text[..n] + text[n..] == text;
    }
  }

  /** Each chunk holds between 1 and 256 characters. */
  lemma {:induction false} ChunksBounded(text: string)
    ensures forall c :: c in Chunks(text) ==> 0 < |c| <= ChunkSize
    decreases |text|
  {
    if text != [] {
      ChunksBounded(text[Min(ChunkSize, |text|)..]);
    }
  }

  /** The stream ends with the single done event, also for an empty answer,
      and every earlier event is a data event. */
  lemma DoneOnlyLast(text: string)
    ensures var es := Events(text);
      && es[|es| - 1] == DoneEvent
      && (forall j :: 0 <= j < |es| - 1 ==> es[j] != DoneEvent && es[j][..6] == "data: ")
      && (text == [] ==> es == [DoneEvent])
  {
    var es := Events(text);
    forall j | 0 <= j < |es| - 1 ensures es[j] != DoneEvent && es[j][..6] == "data: " {
      assert es[j] == DataEvent(Chunks(text)[j]);
      assert es[j][0] == 'd' != DoneEvent[0];
    }
  }

  /** `chat_stream(body, ctx)`: the event stream of the agent's answer; a
      body without "message" fails before the agent runs. */
  method ChatStream(body: Entries, ctx: Entries, kickoff: TaskSpec -> string) returns (r: Result<seq<string>>)
    ensures r.Err? <==> !HasKey(body, "message")
    ensures r.Ok? ==> r.value == Events(kickoff(ChatTask(body, ctx).value))
  {
    var task := ChatTask(body, ctx);
    if task.Err? {
      return Err(task.error);
    }
    var text := kickoff(task.value);
    var events := EventStream(text);
    r := Ok(events);
  }
}

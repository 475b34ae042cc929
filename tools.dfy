/** The three tools the agent may call: a whitelisted query dispatcher, a
    vector search over curriculum chunks and a term-report composer. Each one
    reaches the data store only through `Store.DbRows`. */
module Tools {
  import opened Values
  import opened Text
  import opened ScopedQuery

  // ---------------------------------------------------------------- payloads

  /** `SafeQuery.name`: one of the three whitelisted names, or any other
      string that reaches the dispatcher. */
  datatype QueryName = StudentProfile | LatestResults | SearchResults | OtherName(name: string)

  /** The name the dispatcher's `name == "..."` tests find in a payload's
      string: a whitelisted name exactly when the string is one of the three,
      and `OtherName` of the string itself otherwise. */
  function NameOf(s: string): (n: QueryName)
    ensures n == StudentProfile <==> s == "student_profile"
    ensures n == LatestResults <==> s == "latest_results"
    ensures n == SearchResults <==> s == "search_results"
    ensures n.OtherName? ==> n.name == s
  {
    if s == "student_profile" then StudentProfile
    else if s == "latest_results" then LatestResults
    else if s == "search_results" then SearchResults
    else OtherName(s)
  }

  /** The caller's `params` dict, which `pg_safe_query` changes in place. */
  class Params {
    var entries: Entries

    constructor (entries: Entries)
      ensures this.entries == entries
    {
      this.entries := entries;
    }

    /** `params.pop(key, default)` */
    method Pop(key: string, default: Value) returns (v: Value)
      modifies this
      ensures v == GetOr(old(entries), key, default)
      ensures entries == Remove(old(entries), key)
    {
      v := GetOr(entries, key, default);
      entries := Remove(entries, key);
    }
  }

  datatype SafeQuery = SafeQuery(name: string, params: Params)

  /** `RagSearch`; its `filters` field is never read. */
  datatype RagSearch = RagSearch(query: string, k: int)

  /** `ReportCompose`; `auth` arrives under the alias `_auth`. */
  datatype ReportCompose = ReportCompose(studentId: int, session: string, term: string, auth: Option<Entries>)

  /** The `auth` value handed to `db_rows`: None or the dict. */
  function AuthOf(o: Option<Entries>): Value {
    match o
    case None => Null
    case Some(d) => Dict(d)
  }

  /** The JSON value of fetched records: a list of dicts. */
  function RecordsValue(rows: seq<Entries>): Value {
    List(seq(|rows|, i requires 0 <= i < |rows| => Dict(rows[i])))
  }

  function RowsValue(r: Result<seq<Entries>>): Result<Value> {
    match r
    case Err(e) => Err(e)
    case Ok(rows) => Ok(RecordsValue(rows))
  }

  /** The statements a `db_rows` call sends: its context assignments, then
      the main statement. */
  function Call(auth: Value, accepts: (ContextVar, Value) -> bool, sql: string, args: seq<Value>): seq<Command> {
    ScopeCommands(auth, accepts) + [Exec(sql, args)]
  }

  /** A trace extended by a `db_rows` call is the trace followed by the call. */
  lemma CallAppended(t: seq<Command>, auth: Value, accepts: (ContextVar, Value) -> bool, sql: string, args: seq<Value>)
    ensures t + ScopeCommands(auth, accepts) + [Exec(sql, args)] == t + Call(auth, accepts, sql, args)
  {
  }

  // ----------------------------------------------------------- pg_safe_query

  const StudentProfileSql := "SELECT * FROM v_student_profile WHERE student_id = %s"
  const LatestResultsSql := "SELECT * FROM mv_latest_results WHERE student_id = %s ORDER BY subject_id"
  const SearchResultsSql := "SELECT * FROM tool_search_results(%s,%s,%s)"

  const Whitelist: set<string> := {StudentProfileSql, LatestResultsSql, SearchResultsSql}

  const UnknownNameReply := Dict([("error", Str("unknown query name"))])

  /** What `pg_safe_query` does with a name and the params it receives. */
  datatype Plan =
    | UnknownName                                           // no store call, params untouched
    | MissingKey(key: string)                               // `p[key]` raises after the pop
    | Statement(sql: string, args: seq<Value>, auth: Value) // one `db_rows` call

  function PlanFor(name: QueryName, params: Entries): Plan {
    var auth := GetOr(params, "_auth", Null);
    var p := Remove(params, "_auth");
    match name
    case OtherName(_) => UnknownName
    case StudentProfile =>
      (match Get(p, "student_id")
       case None => MissingKey("student_id")
       case Some(id) => Statement(StudentProfileSql, [id], auth))
    case LatestResults =>
      (match Get(p, "student_id")
       case None => MissingKey("student_id")
       case Some(id) => Statement(LatestResultsSql, [id], auth))
    case SearchResults =>
      (match Get(p, "student_id")
       case None => MissingKey("student_id")
       case Some(id) =>
         match Get(p, "subject")
         case None => MissingKey("subject")
         case Some(subject) => Statement(SearchResultsSql, [id, subject, GetOr(p, "k", Int(5))], auth))
  }

  /** `pg_safe_query(payload)`. A whitelisted name pops `_auth` out of the
      caller's params and runs its one fixed statement under it; any other
      name answers with an error value and touches nothing. */
  method PgSafeQuery(db: Store, payload: SafeQuery) returns (r: Result<Value>)
    modifies db, payload.params
    ensures var plan := PlanFor(NameOf(payload.name), old(payload.params.entries));
      && (plan.UnknownName? ==>
            r == Ok(UnknownNameReply) && payload.params.entries == old(payload.params.entries)
            && db.trace == old(db.trace))
      && (!plan.UnknownName? ==> payload.params.entries == Remove(old(payload.params.entries), "_auth"))
      && (plan.MissingKey? ==> r == Err(KeyError(plan.key)) && db.trace == old(db.trace))
      && (plan.Statement? ==>
            db.trace == old(db.trace) + Call(plan.auth, db.accepts, plan.sql, plan.args)
            && r == RowsValue(Decode(db.answer(Attempts(plan.auth, db.accepts), plan.sql, plan.args))))
    ensures db.session == old(db.session) || db.session == []
  {
    var p := payload.params;
    if payload.name == "student_profile" {
      var auth := p.Pop("_auth", Null);
      var id := Get(p.entries, "student_id");
      if id.None? {
        return Err(KeyError("student_id"));
      }
      ghost var t0 := db.trace;
      var rows := db.DbRows(StudentProfileSql, [id.value], auth);
      CallAppended(t0, auth, db.accepts, StudentProfileSql, [id.value]);
      return RowsValue(rows);
    }
    if payload.name == "latest_results" {
      var auth := p.Pop("_auth", Null);
      var id := Get(p.entries, "student_id");
      if id.None? {
        return Err(KeyError("student_id"));
      }
      ghost var t0 := db.trace;
      var rows := db.DbRows(LatestResultsSql, [id.value], auth);
      CallAppended(t0, auth, db.accepts, LatestResultsSql, [id.value]);
      return RowsValue(rows);
    }
    if payload.name == "search_results" {
      var auth := p.Pop("_auth", Null);
      var id := Get(p.entries, "student_id");
      if id.None? {
        return Err(KeyError("student_id"));
      }
      var subject := Get(p.entries, "subject");
      if subject.None? {
        return Err(KeyError("subject"));
      }
      ghost var t0 := db.trace;
      var rows := db.DbRows(SearchResultsSql, [id.value, subject.value, GetOr(p.entries, "k", Int(5))], auth);
      CallAppended(t0, auth, db.accepts, SearchResultsSql, [id.value, subject.value, GetOr(p.entries, "k", Int(5))]);
      return RowsValue(rows);
    }
    return Ok(UnknownNameReply);
  }

  /** A whitelisted name runs exactly when the keys its statement reads are
      present; the statement is that name's fixed text, never a context
      assignment, run under the caller's `_auth` (or None). */
  lemma PlanRunsWhitelisted(name: QueryName, params: Entries)
    ensures PlanFor(name, params).Statement? <==>
      !name.OtherName? && HasKey(params, "student_id")
      && (name == SearchResults ==> HasKey(params, "subject"))
    ensures PlanFor(name, params).UnknownName? <==> name.OtherName?
    ensures var plan := PlanFor(name, params);
      plan.Statement? ==>
        plan.sql in Whitelist && plan.sql !in SetLocalTexts
        && plan.auth == GetOr(params, "_auth", Null)
        && (name == StudentProfile ==> plan.sql == StudentProfileSql)
        && (name == LatestResults ==> plan.sql == LatestResultsSql)
        && (name == SearchResults ==> plan.sql == SearchResultsSql)
  {
    RemoveAuthKeeps(params);
    match name
    case OtherName(_) =>
    case StudentProfile =>
    case LatestResults =>
    case SearchResults =>
  }

  /** A payload's name string reaches a store call only when it is one of
      the three whitelisted names; every other string gets the error value. */
  lemma UnknownNameString(s: string, params: Entries)
    ensures PlanFor(NameOf(s), params).UnknownName? <==>
      s != "student_profile" && s != "latest_results" && s != "search_results"
  {
    PlanRunsWhitelisted(NameOf(s), params);
  }

  /** Taking `_auth` out leaves the keys the statements read alone. */
  lemma RemoveAuthKeeps(params: Entries)
    ensures var p := Remove(params, "_auth");
      Get(p, "student_id") == Get(params, "student_id") && Get(p, "subject") == Get(params, "subject")
      && Get(p, "k") == Get(params, "k")
  {
  }

  /** The statement's arguments are read from the caller's params, not from
      `_auth`: the student id first; for `search_results` also the subject
      and `k`, which defaults to 5. */
  lemma PlanArguments(name: QueryName, params: Entries)
    requires PlanFor(name, params).Statement?
    ensures var args := PlanFor(name, params).args;
      && |args| == (if name == SearchResults then 3 else 1)
      && Some(args[0]) == Get(params, "student_id")
      && (name == SearchResults ==>
            Some(args[1]) == Get(params, "subject")
            && args[2] == GetOr(params, "k", Int(5))
            && (!HasKey(params, "k") ==> args[2] == Int(5)))
  {
    RemoveAuthKeeps(params);
  }

  /** A missing key is reported by name, the student id before the subject. */
  lemma PlanMissingKey(name: QueryName, params: Entries)
    requires !name.OtherName?
    ensures !HasKey(params, "student_id") ==> PlanFor(name, params) == MissingKey("student_id")
    ensures HasKey(params, "student_id") && !HasKey(params, "subject") && name == SearchResults
      ==> PlanFor(name, params) == MissingKey("subject")
  {
    RemoveAuthKeeps(params);
  }

  // --------------------------------------------------------- get_embedding

  /** The embedding service's reply to one request for one input string. */
  datatype EmbedReply = Vector(v: seq<real>) | Raised(cause: string)

  /** The embeddings client: whether it can be built (`OPENAI_API_KEY` is
      set) and what it answers for an input. */
  datatype EmbeddingService = EmbeddingService(configured: bool, embed: string -> EmbedReply)

  /** `EMBEDDING_DIM` when `OPENAI_EMBEDDING_DIM` is not set. */
  const DefaultEmbeddingDim: nat := 1536

  const EmptyTextError := ValueError("Cannot embed empty text")
  const MissingKeyError := RuntimeError("OPENAI_API_KEY environment variable is required for embeddings")

  /** `get_embedding(text)` against an embedding service and dimension
      `dim`. The text is stripped and refused when nothing is left, before
      the service is consulted; the stripped text is what is sent; a vector
      of the wrong length is refused. */
  function GetEmbedding(text: string, svc: EmbeddingService, dim: nat): (r: Result<seq<real>>)
    ensures AllSpace(text) <==> r == Err(EmptyTextError)
    ensures r.Ok? ==>
      svc.configured && Strip(text) != [] && svc.embed(Strip(text)) == Vector(r.value) && |r.value| == dim
    ensures (!AllSpace(text) && svc.configured && svc.embed(Strip(text)).Vector?
             && |svc.embed(Strip(text)).v| == dim) ==> r.Ok?
    ensures !AllSpace(text) && !svc.configured ==> r == Err(MissingKeyError)
  {
    var snippet := Strip(text);
    if snippet == [] then Err(EmptyTextError)
    else if !svc.configured then Err(MissingKeyError)
    else match svc.embed(snippet)
      case Raised(cause) => Err(RuntimeError("OpenAI embeddings request failed: " + cause))
      case Vector(v) =>
        if |v| != dim then
          Err(RuntimeError("Embedding dimension mismatch: expected " + IntToString(dim)
                           + ", received " + IntToString(|v|)))
        else Ok(v)
  }

  /** Blank text fails the same way whatever the service would do: the
      client is never touched. */
  lemma BlankTextNeedsNoService(text: string, s1: EmbeddingService, s2: EmbeddingService, dim: nat)
    requires Strip(text) == []
    ensures GetEmbedding(text, s1, dim) == GetEmbedding(text, s2, dim) == Err(EmptyTextError)
  {
  }

  // ------------------------------------------------------------ rag_search

  const RagSql :=
    "SELECT c.id, c.chunk, d.source, d.metadata, (e.embedding <=> %s::vector)::REAL AS score "
    + "FROM rag_embedding e "
    + "JOIN rag_chunk c ON c.id = e.chunk_id "
    + "JOIN rag_document d ON d.id = c.document_id "
    + "ORDER BY e.embedding <=> %s::vector "
    + "LIMIT %s"

  /** `rag_search(payload)`: one unscoped store call with the vector's SQL
      literal twice and `k`, or the embedding's error and no store call.
      `vectorSql` is `_vector_to_sql`. */
  method RagSearchTool(db: Store, payload: RagSearch, svc: EmbeddingService, dim: nat,
                       vectorSql: seq<real> -> string) returns (r: Result<Value>)
    modifies db
    ensures var e := GetEmbedding(payload.query, svc, dim);
      && (e.Err? ==> r == Err(e.error) && db.trace == old(db.trace))
      && (e.Ok? ==>
            var args := [Str(vectorSql(e.value)), Str(vectorSql(e.value)), Int(payload.k)];
            db.trace == old(db.trace) + [Exec(RagSql, args)]
            && r == RowsValue(Decode(db.answer([], RagSql, args))))
  {
    var emb := GetEmbedding(payload.query, svc, dim);
    if emb.Err? {
      return Err(emb.error);
    }
    var vec := vectorSql(emb.value);
    UnscopedWithoutAuthDict(Null, db.accepts);
    var rows := db.DbRows(RagSql, [Str(vec), Str(vec), Int(payload.k)], Null);
    r := RowsValue(rows);
  }

  // --------------------------------------------------------- report_compose

  const ProfileSql := "SELECT * FROM v_student_profile WHERE student_id=%s"
  const ReportResultsSql :=
    "SELECT r.subject_id, s.name AS subject, r.total, r.grade, r.teacher_remark "
    + "FROM result r JOIN subject s ON s.id=r.subject_id "
    + "WHERE r.student_id=%s AND r.session=%s AND r.term=%s "
    + "ORDER BY s.name"

  /** The report bundle: the first profile record (or `{}`), the requested
      session and term, and the result records as fetched. */
  function Bundle(profile: seq<Entries>, session: string, term: string, results: seq<Entries>): Value {
    Dict([("student", if profile != [] then Dict(profile[0]) else Dict([])),
          ("session", Str(session)),
          ("term", Str(term)),
          ("results", RecordsValue(results))])
  }

  /** The bundle's fields, looked up by key. */
  lemma BundleFields(profile: seq<Entries>, session: string, term: string, results: seq<Entries>)
    ensures var b := Bundle(profile, session, term, results).entries;
      && Keys(b) == ["student", "session", "term", "results"]
      && Get(b, "session") == Some(Str(session)) && Get(b, "term") == Some(Str(term))
      && (profile == [] ==> Get(b, "student") == Some(Dict([])))
      && (profile != [] ==> Get(b, "student") == Some(Dict(profile[0])))
      && Get(b, "results") == Some(RecordsValue(results))
  {
    var b := Bundle(profile, session, term, results).entries;
    var ks := Keys(b);
    assert ks[0] == "student" && ks[1] == "session" && ks[2] == "term" && ks[3] == "results";
    assert UniqueKeys(b);
    GetEntry(b, 0);
    GetEntry(b, 1);
    GetEntry(b, 2);
    GetEntry(b, 3);
  }

  /** `report_compose(payload)`: the profile query, then the results query,
      both under the payload's `_auth`; an error in the first skips the
      second. */
  method ReportComposeTool(db: Store, payload: ReportCompose) returns (r: Result<Value>)
    modifies db
    ensures var auth := AuthOf(payload.auth);
      var args1 := [Int(payload.studentId)];
      var args2 := [Int(payload.studentId), Str(payload.session), Str(payload.term)];
      var first := Decode(db.answer(Attempts(auth, db.accepts), ProfileSql, args1));
      var second := Decode(db.answer(Attempts(auth, db.accepts), ReportResultsSql, args2));
      && (first.Err? ==>
            r == Err(first.error) && db.trace == old(db.trace) + Call(auth, db.accepts, ProfileSql, args1))
      && (first.Ok? ==>
            db.trace == old(db.trace) + Call(auth, db.accepts, ProfileSql, args1)
                                      + Call(auth, db.accepts, ReportResultsSql, args2))
      && (first.Ok? && second.Err? ==> r == Err(second.error))
      && (first.Ok? && second.Ok? ==>
            r == Ok(Bundle(first.value, payload.session, payload.term, second.value)))
  {
    var auth := AuthOf(payload.auth);
    ghost var t0 := db.trace;
    var profile := db.DbRows(ProfileSql, [Int(payload.studentId)], auth);
    CallAppended(t0, auth, db.accepts, ProfileSql, [Int(payload.studentId)]);
    if profile.Err? {
      return Err(profile.error);
    }
    ghost var t1 := db.trace;
    var results := db.DbRows(ReportResultsSql, [Int(payload.studentId), Str(payload.session), Str(payload.term)], auth);
    CallAppended(t1, auth, db.accepts, ReportResultsSql, [Int(payload.studentId), Str(payload.session), Str(payload.term)]);
    if results.Err? {
      return Err(results.error);
    }
    r := Ok(Bundle(profile.value, payload.session, payload.term, results.value));
  }
}

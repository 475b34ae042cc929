/** The ingestion script: it reads curriculum topics (and, optionally, student
    results), writes one narrative document per row into the retrieval tables
    (document, chunk, embedding) and refreshes the latest-results view. The
    database is a connection object that records every statement, answers
    fetches and `RETURNING id` from oracles, and keeps the metadata of the
    rows of `rag_document`. */
module Ingest {
  import opened Values
  import opened Text
  import opened Tools

  // ------------------------------------------------------------------ rows

  /** A row of the topic query, one field per selected column. */
  datatype TopicRow = TopicRow(
    topicId: Value, topicName: Value, weekCovered: Value, learningOutcome: Value,
    coverageStatus: Value, completedDate: Value, themeId: Value, themeName: Value,
    subjectId: Value, subjectName: Value, classId: Value, className: Value,
    academicYear: Value)

  /** A row of the result query, one field per selected column. */
  datatype ResultRow = ResultRow(
    resultId: Value, studentId: Value, classId: Value, subjectId: Value,
    session: Value, term: Value, total: Value, grade: Value, teacherRemark: Value,
    headTeacherRemark: Value, createdAt: Value, firstName: Value, lastName: Value,
    className: Value, subjectName: Value)

  // --------------------------------------------------------------- queries

  const TopicSql :=
    "SELECT t.id AS topic_id, t.name AS topic_name, t.week_covered, t.learning_outcome, "
    + "t.coverage_status, t.completed_date, th.id AS theme_id, th.name AS theme_name, "
    + "subj.id AS subject_id, subj.name AS subject_name, cls.id AS class_id, "
    + "cls.name AS class_name, cls.academic_year FROM topic t "
    + "JOIN theme th ON th.id = t.theme_id JOIN subject subj ON subj.id = th.subject_id "
    + "JOIN class cls ON cls.id = subj.class_id ORDER BY subj.name, th.name, t.name"

  const ResultSql :=
    "SELECT r.id AS result_id, r.student_id, r.class_id, r.subject_id, r.session, "
    + "r.term::TEXT AS term, r.total, r.grade, r.teacher_remark, r.head_teacher_remark, "
    + "r.created_at, stu.first_name, stu.last_name, cls.name AS class_name, "
    + "subj.name AS subject_name FROM result r JOIN student stu ON stu.id = r.student_id "
    + "JOIN class cls ON cls.id = r.class_id JOIN subject subj ON subj.id = r.subject_id "
    + "WHERE (%(student_id)s IS NULL OR r.student_id = %(student_id)s) "
    + "ORDER BY r.created_at DESC"

  function OptionalInt(o: Option<int>): Value {
    match o
    case None => Null
    case Some(i) => Int(i)
  }

  /** The topic query and its positional parameters. */
  function TopicQueryText(limit: Option<int>): string {
    if limit.Some? then TopicSql + " LIMIT %s" else TopicSql
  }

  function TopicQueryArgs(limit: Option<int>): seq<Value> {
    if limit.Some? then [Int(limit.value)] else []
  }

  /** Builds the topic query as the script does: the limit, when given, is
      appended as a placeholder and passed as the only parameter. */
  method TopicQuery(limit: Option<int>) returns (sql: string, params: seq<Value>)
    ensures limit.None? ==> sql == TopicSql && params == []
    ensures limit.Some? ==> sql == TopicSql + " LIMIT %s" && params == [Int(limit.value)]
    ensures sql == TopicQueryText(limit) && params == TopicQueryArgs(limit)
  {
    sql := TopicSql;
    params := [];
    if limit.Some? {
      sql := sql + " LIMIT %s";
      params := [Int(limit.value)];
    }
  }

  /** The result query and its named parameters. */
  function ResultQueryText(limit: Option<int>): string {
    if limit.Some? then ResultSql + " LIMIT %(limit)s" else ResultSql
  }

  function ResultQueryParams(studentId: Option<int>, limit: Option<int>): Entries {
    if limit.Some? then [("student_id", OptionalInt(studentId)), ("limit", Int(limit.value))]
    else [("student_id", OptionalInt(studentId))]
  }

  /** Builds the result query: `student_id` is always a named parameter
      (None selects every student); `limit` is added, with its placeholder,
      only when given. */
  method ResultQuery(studentId: Option<int>, limit: Option<int>) returns (sql: string, params: Entries)
    ensures Get(params, "student_id") == Some(OptionalInt(studentId))
    ensures HasKey(params, "limit") <==> limit.Some?
    ensures limit.Some? ==> Get(params, "limit") == Some(Int(limit.value)) && sql == ResultSql + " LIMIT %(limit)s"
    ensures limit.None? ==> sql == ResultSql && params == [("student_id", OptionalInt(studentId))]
    ensures sql == ResultQueryText(limit) && params == ResultQueryParams(studentId, limit)
  {
    sql := ResultSql;
    params := [("student_id", OptionalInt(studentId))];
    if limit.Some? {
      sql := sql + " LIMIT %(limit)s";
      params := Insert(params, "limit", Int(limit.value));
    }
  }

  // ---------------------------------------------------------- chunk texts

  /** The line an optional `(value, caption)` field contributes: one line
      when the value is truthy, none otherwise. */
  function PickLine(opt: (Value, string)): seq<string> {
    if Truthy(opt.0) then [opt.1 + ToStr(opt.0)] else []
  }

  /** The optional summary lines, field by field in the given order. */
  function Present(opts: seq<(Value, string)>): seq<string> {
    if opts == [] then [] else PickLine(opts[0]) + Present(opts[1..])
  }

  /** Optional lines keep the order of their fields: the lines of two runs of
      fields are those of the first run followed by those of the second. */
  lemma {:induction false} PresentConcat(a: seq<(Value, string)>, b: seq<(Value, string)>)
    ensures Present(a + b) == Present(a) + Present(b)
  {
    if a != [] {
      assert (a + b)[0] == a[0] && (a + b)[1..] == a[1..] + b;
      PresentConcat(a[1..], b);
      assert Present(a + b) == PickLine(a[0]) + (Present(a[1..]) + Present(b));
      assert Present(a) == PickLine(a[0]) + Present(a[1..]);
    } else {
      assert a + b == b;
    }
  }

  /** A line is present exactly when some field with a truthy value gives it. */
  lemma {:induction false} PresentMembers(opts: seq<(Value, string)>, line: string)
    ensures line in Present(opts) <==>
      exists i :: 0 <= i < |opts| && Truthy(opts[i].0) && line == opts[i].1 + ToStr(opts[i].0)
  {
    if opts != [] {
      PresentMembers(opts[1..], line);
      if line in Present(opts[1..]) {
        var i :| 0 <= i < |opts[1..]| && Truthy(opts[1..][i].0) && line == opts[1..][i].1 + ToStr(opts[1..][i].0);
        assert opts[i + 1] == opts[1..][i];
      }
      if exists i :: 0 <= i < |opts| && Truthy(opts[i].0) && line == opts[i].1 + ToStr(opts[i].0) {
        var i :| 0 <= i < |opts| && Truthy(opts[i].0) && line == opts[i].1 + ToStr(opts[i].0);
        if i > 0 { assert opts[1..][i - 1] == opts[i]; }
      }
    }
  }

  /** There are never more optional lines than fields. */
  lemma {:induction false} PresentBounded(opts: seq<(Value, string)>)
    ensures |Present(opts)| <= |opts|
  {
    if opts != [] { PresentBounded(opts[1..]); }
  }

  /** Four optional fields, unfolded one by one. */
  lemma PresentFour(o: seq<(Value, string)>)
    requires |o| == 4
    ensures Present(o) == PickLine(o[0]) + PickLine(o[1]) + PickLine(o[2]) + PickLine(o[3])
  {
    assert o == [o[0]] + [o[1]] + [o[2]] + [o[3]];
    PresentConcat([o[0]] + [o[1]] + [o[2]], [o[3]]);
    PresentConcat([o[0]] + [o[1]], [o[2]]);
    PresentConcat([o[0]], [o[1]]);
    PresentOne(o[0]); PresentOne(o[1]); PresentOne(o[2]); PresentOne(o[3]);
  }

  /** Two optional fields, unfolded one by one. */
  lemma PresentTwo(o: seq<(Value, string)>)
    requires |o| == 2
    ensures Present(o) == PickLine(o[0]) + PickLine(o[1])
  {
    assert o == [o[0]] + [o[1]];
    PresentConcat([o[0]], [o[1]]);
    PresentOne(o[0]); PresentOne(o[1]);
  }

  lemma PresentOne(x: (Value, string))
    ensures Present([x]) == PickLine(x)
  {
    assert [x][1..] == [];
  }

  /** One f-string field: its caption followed by `str()` of the value. */
  function Label(caption: string, v: Value): string {
    caption + ToStr(v)
  }

  /** The four fixed lines of a topic summary. */
  function TopicHeader(row: TopicRow): seq<string> {
    [ Label("Subject: ", row.subjectName),
      Label("Class: ", row.className) + " (" + ToStr(row.academicYear) + ")",
      Label("Theme: ", row.themeName),
      Label("Topic: ", row.topicName) ]
  }

  function TopicOptional(row: TopicRow): seq<(Value, string)> {
    [ (row.weekCovered, "Week covered: "),
      (row.learningOutcome, "Learning outcomes: "),
      (row.coverageStatus, "Coverage status: "),
      (row.completedDate, "Completed date: ") ]
  }

  /** `summary_lines` of a topic: the fixed lines, then each optional line
      whose value is truthy. */
  method TopicSummary(row: TopicRow) returns (lines: seq<string>)
    ensures lines == TopicHeader(row) + Present(TopicOptional(row))
  {
    ghost var o := TopicOptional(row);
    ghost var h := TopicHeader(row);
    lines := TopicHeader(row);
    if Truthy(row.weekCovered) {
      lines := lines + [Label("Week covered: ", row.weekCovered)];
    }
    assert lines == h + PickLine(o[0]);
    if Truthy(row.learningOutcome) {
      lines := lines + [Label("Learning outcomes: ", row.learningOutcome)];
    }
    Regroup(h, PickLine(o[0]), PickLine(o[1]));
    ghost var acc := PickLine(o[0]) + PickLine(o[1]);
    assert lines == h + acc;
    if Truthy(row.coverageStatus) {
      lines := lines + [Label("Coverage status: ", row.coverageStatus)];
    }
    Regroup(h, acc, PickLine(o[2]));
    acc := acc + PickLine(o[2]);
    assert lines == h + acc;
    if Truthy(row.completedDate) {
      lines := lines + [Label("Completed date: ", row.completedDate)];
    }
    Regroup(h, acc, PickLine(o[3]));
    acc := acc + PickLine(o[3]);
    assert lines == h + acc;
    PresentFour(o);
  }

  /** Appending to a header plus lines is appending to the lines. */
  lemma Regroup(h: seq<string>, acc: seq<string>, more: seq<string>)
    ensures (h + acc) + more == h + (acc + more)
  {
  }

  /** `row.get('grade') or 'N/A'` as the f-string renders it. */
  function GradeText(grade: Value): (r: string)
    ensures grade == Null || grade == Str("") || grade == Int(0) ==> r == "N/A"
    ensures grade.Str? && grade.s != "" ==> r == grade.s
    ensures grade.Int? && grade.i != 0 ==> r == IntToString(grade.i)
  {
    if Truthy(grade) then ToStr(grade) else "N/A"
  }

  /** The four fixed lines of a result summary. */
  function ResultHeader(row: ResultRow): seq<string> {
    [ "Student: " + (ToStr(row.firstName) + " " + ToStr(row.lastName) + " (ID " + ToStr(row.studentId) + ")"),
      Label("Class: ", row.className) + Label(" | Subject: ", row.subjectName),
      Label("Session: ", row.session) + Label(" | Term: ", row.term),
      Label("Total score: ", row.total) + " | Grade: " + GradeText(row.grade) ]
  }

  function ResultOptional(row: ResultRow): seq<(Value, string)> {
    [ (row.teacherRemark, "Teacher remark: "),
      (row.headTeacherRemark, "Head teacher remark: ") ]
  }

  /** `summary_lines` of a result: the fixed lines, then the teacher's and
      the head teacher's remarks, each only when truthy. */
  method ResultSummary(row: ResultRow) returns (lines: seq<string>)
    ensures lines == ResultHeader(row) + Present(ResultOptional(row))
  {
    lines := ResultHeader(row);
    if Truthy(row.teacherRemark) {
      lines := lines + [Label("Teacher remark: ", row.teacherRemark)];
    }
    ghost var o := ResultOptional(row);
    ghost var h := ResultHeader(row);
    assert lines == h + PickLine(o[0]);
    if Truthy(row.headTeacherRemark) {
      lines := lines + [Label("Head teacher remark: ", row.headTeacherRemark)];
    }
    Regroup(h, PickLine(o[0]), PickLine(o[1]));
    assert lines == h + (PickLine(o[0]) + PickLine(o[1]));
    PresentTwo(o);
  }

  function TopicText(row: TopicRow): string {
    JoinLines(TopicHeader(row) + Present(TopicOptional(row)))
  }

  function ResultText(row: ResultRow): string {
    JoinLines(ResultHeader(row) + Present(ResultOptional(row)))
  }

  /** A summary opens with its first fixed line, so it is never blank and
      the embedding's empty-text check cannot fire for it. */
  lemma SummaryNotBlank(lines: seq<string>, first: string, rest: string)
    requires |lines| >= 1 && |first| >= 1 && !IsSpace(first[0])
    requires lines[0] == first + rest
    ensures |JoinLines(lines)| >= |first| && JoinLines(lines)[..|first|] == first
    ensures !AllSpace(JoinLines(lines))
  {
    JoinStartsWithFirst(lines, "\n");
    var t := JoinLines(lines);
    assert (first + rest)[..|first|] == first;
    assert t[..|lines[0]|][..|first|] == first;
    assert t[0] == first[0];
  }

  /** The topic text starts with "Subject: " and is never blank. */
  lemma TopicTextShape(row: TopicRow)
    ensures |TopicText(row)| >= 9 && TopicText(row)[..9] == "Subject: "
    ensures !AllSpace(TopicText(row))
  {
    var lines := TopicHeader(row) + Present(TopicOptional(row));
    SummaryNotBlank(lines, "Subject: ", ToStr(row.subjectName));
  }

  /** The result text starts with "Student: " and is never blank. */
  lemma ResultTextShape(row: ResultRow)
    ensures |ResultText(row)| >= 9 && ResultText(row)[..9] == "Student: "
    ensures !AllSpace(ResultText(row))
  {
    var lines := ResultHeader(row) + Present(ResultOptional(row));
    SummaryNotBlank(lines, "Student: ", ToStr(row.firstName) + " " + ToStr(row.lastName) + " (ID " + ToStr(row.studentId) + ")");
  }

  // -------------------------------------------------------------- metadata

  /** The metadata of a topic document: its type tag and the topic's ids. */
  function TopicMetadata(row: TopicRow): Entries {
    [ ("type", Str("curriculum_topic")), ("topic_id", row.topicId), ("theme_id", row.themeId),
      ("subject_id", row.subjectId), ("class_id", row.classId), ("academic_year", row.academicYear) ]
  }

  /** The metadata of a result document: its type tag and the result's ids. */
  function ResultMetadata(row: ResultRow): Entries {
    [ ("type", Str("student_result")), ("result_id", row.resultId), ("student_id", row.studentId),
      ("class_id", row.classId), ("subject_id", row.subjectId), ("session", row.session),
      ("term", row.term) ]
  }

  /** Everything one row contributes: the type tag and id key its stale
      documents are found by, the key itself, the document's source column,
      its metadata and the chunk text. */
  datatype Narrative = Narrative(kind: string, idKey: string, key: Value, source: Value,
                                 metadata: Entries, text: string)

  function TopicNarrative(row: TopicRow): Narrative {
    Narrative("curriculum_topic", "topic_id", row.topicId, row.subjectName, TopicMetadata(row), TopicText(row))
  }

  function ResultNarrative(row: ResultRow): Narrative {
    Narrative("student_result", "result_id", row.resultId, Str("result"), ResultMetadata(row), ResultText(row))
  }

  function TopicNarratives(rows: seq<TopicRow>): (ns: seq<Narrative>)
    ensures |ns| == |rows| && forall i :: 0 <= i < |rows| ==> ns[i] == TopicNarrative(rows[i])
  {
    seq(|rows|, i requires 0 <= i < |rows| => TopicNarrative(rows[i]))
  }

  function ResultNarratives(rows: seq<ResultRow>): (ns: seq<Narrative>)
    ensures |ns| == |rows| && forall i :: 0 <= i < |rows| ==> ns[i] == ResultNarrative(rows[i])
  {
    seq(|rows|, i requires 0 <= i < |rows| => ResultNarrative(rows[i]))
  }

  /** The metadata names the narrative's kind under "type" and its key under
      its id key, and the key is an integer or a string. */
  predicate Tagged(n: Narrative) {
    && Get(n.metadata, "type") == Some(Str(n.kind))
    && Get(n.metadata, n.idKey) == Some(n.key)
    && (n.key.Int? || n.key.Str?)
  }

  /** A topic narrative is tagged "curriculum_topic" under "topic_id", and
      its metadata carries the theme, subject and class ids and the year. */
  lemma TopicNarrativeTagged(row: TopicRow)
    ensures var n := TopicNarrative(row);
      && n.kind == "curriculum_topic" && n.idKey == "topic_id" && Keys(n.metadata) ==
           ["type", "topic_id", "theme_id", "subject_id", "class_id", "academic_year"]
      && Get(n.metadata, "type") == Some(Str("curriculum_topic"))
      && Get(n.metadata, "topic_id") == Some(row.topicId)
      && ((row.topicId.Int? || row.topicId.Str?) ==> Tagged(n))
  {
    var md := TopicMetadata(row);
    assert Get(md, "type") == Some(Str("curriculum_topic"));
    assert Get(md, "topic_id") == Some(row.topicId);
  }

  /** A result narrative is tagged "student_result" under "result_id", and
      its metadata carries the student, class and subject ids, the session
      and the term. */
  lemma ResultNarrativeTagged(row: ResultRow)
    ensures var n := ResultNarrative(row);
      && n.kind == "student_result" && n.idKey == "result_id" && Keys(n.metadata) ==
           ["type", "result_id", "student_id", "class_id", "subject_id", "session", "term"]
      && Get(n.metadata, "type") == Some(Str("student_result"))
      && Get(n.metadata, "result_id") == Some(row.resultId)
      && ((row.resultId.Int? || row.resultId.Str?) ==> Tagged(n))
  {
    var md := ResultMetadata(row);
    assert Get(md, "type") == Some(Str("student_result"));
    assert Get(md, "result_id") == Some(row.resultId);
  }

  // ------------------------------------------------------ document table

  /** `metadata->>key`: the text of a JSON member, or SQL NULL for a missing
      key or a JSON null. */
  function JsonText(v: Option<Value>): Option<string> {
    match v
    case None => None
    case Some(Null) => None
    case Some(Bool(b)) => Some(if b then "true" else "false")
    case Some(Int(i)) => Some(IntToString(i))
    case Some(Str(s)) => Some(s)
    case Some(Scalar(shown, _, _)) => Some(shown)
    case Some(_) => None
  }

  /** The WHERE clause of the stale-document DELETE. */
  predicate Matches(md: Entries, kind: string, idKey: string, text: string) {
    JsonText(Get(md, "type")) == Some(kind) && JsonText(Get(md, idKey)) == Some(text)
  }

  /** The document table after the DELETE: the documents that do not match,
      in their order. */
  function Without(docs: seq<Entries>, kind: string, idKey: string, text: string): (r: seq<Entries>)
    ensures forall md :: md in r <==> md in docs && !Matches(md, kind, idKey, text)
  {
    if docs == [] then []
    else (if Matches(docs[0], kind, idKey, text) then [] else [docs[0]]) + Without(docs[1..], kind, idKey, text)
  }

  /** How many documents match a (type, id key, id text) triple. */
  function Count(docs: seq<Entries>, kind: string, idKey: string, text: string): nat {
    if docs == [] then 0
    else (if Matches(docs[0], kind, idKey, text) then 1 else 0) + Count(docs[1..], kind, idKey, text)
  }

  /** After the DELETE no document matches its own triple, and the count of
      any other id text is untouched. */
  lemma {:induction false} CountWithout(docs: seq<Entries>, kind: string, idKey: string, text: string, removed: string)
    ensures Count(Without(docs, kind, idKey, removed), kind, idKey, text)
         == if text == removed then 0 else Count(docs, kind, idKey, text)
  {
    if docs != [] {
      CountWithout(docs[1..], kind, idKey, text, removed);
      var w := Without(docs, kind, idKey, removed);
      var rest := Without(docs[1..], kind, idKey, removed);
      if Matches(docs[0], kind, idKey, removed) {
        assert w == rest;
      } else {
        assert w == [docs[0]] + rest;
        assert w[1..] == rest;
      }
    }
  }

  /** An inserted document adds one to the count of its own triple. */
  lemma {:induction false} CountAppend(docs: seq<Entries>, md: Entries, kind: string, idKey: string, text: string)
    ensures Count(docs + [md], kind, idKey, text)
         == Count(docs, kind, idKey, text) + (if Matches(md, kind, idKey, text) then 1 else 0)
  {
    if docs == [] {
      assert ([] + [md])[1..] == [];
    } else {
      assert (docs + [md])[0] == docs[0] && (docs + [md])[1..] == docs[1..] + [md];
      CountAppend(docs[1..], md, kind, idKey, text);
    }
  }

  /** A tagged narrative's metadata matches its own triple and no other. */
  lemma TaggedMatches(n: Narrative, text: string)
    requires Tagged(n)
    ensures Matches(n.metadata, n.kind, n.idKey, text) <==> text == ToStr(n.key)
  {
  }

  // ------------------------------------------------------------ statements

  /** A statement sent on the connection: positional or named parameters, or
      a commit. */
  datatype Statement = Exec(sql: string, args: seq<Value>) | ExecNamed(sql: string, params: Entries) | Commit

  function DeleteSql(kind: string, idKey: string): string {
    "DELETE FROM rag_document WHERE metadata->>'type' = '" + kind + "' AND metadata->>'" + idKey + "' = %s"
  }

  const InsertDocumentSql := "INSERT INTO rag_document (source, metadata) VALUES (%s, %s) RETURNING id"
  const InsertChunkSql := "INSERT INTO rag_chunk (document_id, chunk) VALUES (%s, %s) RETURNING id"
  const InsertEmbeddingSql := "INSERT INTO rag_embedding (chunk_id, embedding) VALUES (%s, %s::vector)"
  const RefreshSql := "REFRESH MATERIALIZED VIEW mv_latest_results"

  /** What the script is given besides the database: `get_embedding`,
      `json.dumps` and `_vector_to_sql`. */
  datatype Env = Env(embed: string -> Result<seq<real>>, dumps: Entries -> string, vectorSql: seq<real> -> string)

  /** The script's `get_embedding`: the server's, over its service and
      dimension. */
  function ServerEmbedding(svc: EmbeddingService, dim: nat): string -> Result<seq<real>> {
    t => GetEmbedding(t, svc, dim)
  }

  /** Summaries are never blank, so with the server's embedding a row only
      fails when the service is missing or fails, never for an empty text. */
  lemma SummariesEmbeddable(topic: TopicRow, result: ResultRow, svc: EmbeddingService, dim: nat)
    ensures ServerEmbedding(svc, dim)(TopicText(topic)) != Err(EmptyTextError)
    ensures ServerEmbedding(svc, dim)(ResultText(result)) != Err(EmptyTextError)
  {
    TopicTextShape(topic);
    ResultTextShape(result);
  }

  /** The statements sent so far and the metadata of the rows of
      `rag_document`. */
  datatype Db = Db(trace: seq<Statement>, documents: seq<Entries>)

  /** The database connection. Every statement is recorded; fetched rows
      and `RETURNING id` values come from oracles over what was sent. */
  class Connection {
    var trace: seq<Statement>
    var documents: seq<Entries>
    const returning: seq<Statement> -> Value
    const topicRows: (string, seq<Value>) -> seq<TopicRow>
    const resultRows: (string, Entries) -> seq<ResultRow>

    constructor (documents0: seq<Entries>, returning: seq<Statement> -> Value,
                 topicRows: (string, seq<Value>) -> seq<TopicRow>,
                 resultRows: (string, Entries) -> seq<ResultRow>)
      ensures trace == [] && documents == documents0
      ensures this.returning == returning && this.topicRows == topicRows && this.resultRows == resultRows
    {
      trace := [];
      documents := documents0;
      this.returning := returning;
      this.topicRows := topicRows;
      this.resultRows := resultRows;
    }

    function State(): Db
      reads this
    {
      Db(trace, documents)
    }

    method FetchTopics(sql: string, args: seq<Value>) returns (rows: seq<TopicRow>)
      modifies this
      ensures trace == old(trace) + [Exec(sql, args)] && documents == old(documents)
      ensures rows == topicRows(sql, args)
    {
      trace := trace + [Exec(sql, args)];
      rows := topicRows(sql, args);
    }

    method FetchResults(sql: string, params: Entries) returns (rows: seq<ResultRow>)
      modifies this
      ensures trace == old(trace) + [ExecNamed(sql, params)] && documents == old(documents)
      ensures rows == resultRows(sql, params)
    {
      trace := trace + [ExecNamed(sql, params)];
      rows := resultRows(sql, params);
    }

    /** The stale-document DELETE: every document whose type and id text
        match goes. */
    method Delete(kind: string, idKey: string, text: string)
      modifies this
      ensures trace == old(trace) + [Exec(DeleteSql(kind, idKey), [Str(text)])]
      ensures documents == Without(old(documents), kind, idKey, text)
    {
      trace := trace + [Exec(DeleteSql(kind, idKey), [Str(text)])];
      documents := Without(documents, kind, idKey, text);
    }

    method InsertDocument(source: Value, metadata: Entries, json: string) returns (id: Value)
      modifies this
      ensures trace == old(trace) + [Exec(InsertDocumentSql, [source, Str(json)])]
      ensures documents == old(documents) + [metadata]
      ensures id == returning(trace)
    {
      trace := trace + [Exec(InsertDocumentSql, [source, Str(json)])];
      documents := documents + [metadata];
      id := returning(trace);
    }

    method InsertChunk(documentId: Value, chunk: string) returns (id: Value)
      modifies this
      ensures trace == old(trace) + [Exec(InsertChunkSql, [documentId, Str(chunk)])]
      ensures documents == old(documents) && id == returning(trace)
    {
      trace := trace + [Exec(InsertChunkSql, [documentId, Str(chunk)])];
      id := returning(trace);
    }

    method Send(st: Statement)
      modifies this
      ensures trace == old(trace) + [st] && documents == old(documents)
    {
      trace := trace + [st];
    }
  }

  // ------------------------------------------------------------ row effect

  datatype RowOutcome = RowOutcome(db: Db, failure: Option<Error>)

  /** One iteration of the ingestion loop: delete the row's stale documents,
      insert the document, insert the chunk under the returned document id,
      embed the chunk text and insert the embedding under the returned chunk
      id. A failed embedding stops after the chunk insert. */
  function RowEffect(db: Db, n: Narrative, env: Env, returning: seq<Statement> -> Value): RowOutcome {
    var t1 := db.trace + [Exec(DeleteSql(n.kind, n.idKey), [Str(ToStr(n.key))])];
    var t2 := t1 + [Exec(InsertDocumentSql, [n.source, Str(env.dumps(n.metadata))])];
    var documents := Without(db.documents, n.kind, n.idKey, ToStr(n.key)) + [n.metadata];
    var t3 := t2 + [Exec(InsertChunkSql, [returning(t2), Str(n.text)])];
    match env.embed(n.text)
    case Err(e) => RowOutcome(Db(t3, documents), Some(e))
    case Ok(v) => RowOutcome(Db(t3 + [Exec(InsertEmbeddingSql, [returning(t3), Str(env.vectorSql(v))])], documents), None)
  }

  /** The statements of one row come in the fixed order DELETE, document,
      chunk, embedding; the document carries the source and the metadata's
      JSON text, the chunk carries the id returned for the document
      and the embedding the id returned for the chunk; a failed embedding
      leaves the first three only. */
  lemma RowOrder(db: Db, n: Narrative, env: Env, returning: seq<Statement> -> Value)
    ensures var o := RowEffect(db, n, env, returning);
      && |o.db.trace| == |db.trace| + (if o.failure.None? then 4 else 3)
      && o.db.trace[..|db.trace|] == db.trace
      && o.db.trace[|db.trace|] == Exec(DeleteSql(n.kind, n.idKey), [Str(ToStr(n.key))])
      && o.db.trace[|db.trace| + 1] == Exec(InsertDocumentSql, [n.source, Str(env.dumps(n.metadata))])
      && o.db.trace[|db.trace| + 2] == Exec(InsertChunkSql, [returning(o.db.trace[..|db.trace| + 2]), Str(n.text)])
      && (o.failure.None? <==> env.embed(n.text).Ok?)
      && (o.failure.None? ==>
            o.db.trace[|db.trace| + 3]
              == Exec(InsertEmbeddingSql, [returning(o.db.trace[..|db.trace| + 3]), Str(env.vectorSql(env.embed(n.text).value))]))
  {
    var o := RowEffect(db, n, env, returning);
    var k := |db.trace|;
    var t1 := db.trace + [Exec(DeleteSql(n.kind, n.idKey), [Str(ToStr(n.key))])];
    var t2 := t1 + [Exec(InsertDocumentSql, [n.source, Str(env.dumps(n.metadata))])];
    var t3 := t2 + [Exec(InsertChunkSql, [returning(t2), Str(n.text)])];
    assert o.db.trace[..k + 2] == t2;
    if o.failure.None? {
      assert o.db.trace[..k + 3] == t3;
    }
  }

  lemma RowFails(db: Db, n: Narrative, env: Env, returning: seq<Statement> -> Value)
    ensures RowEffect(db, n, env, returning).failure.None? <==> env.embed(n.text).Ok?
  {
  }

  /** After a row, exactly one document carries the row's tag and key. */
  lemma RowLeavesOneDocument(db: Db, n: Narrative, env: Env, returning: seq<Statement> -> Value)
    requires Tagged(n)
    ensures Count(RowEffect(db, n, env, returning).db.documents, n.kind, n.idKey, ToStr(n.key)) == 1
  {
    var text := ToStr(n.key);
    CountWithout(db.documents, n.kind, n.idKey, text, text);
    CountAppend(Without(db.documents, n.kind, n.idKey, text), n.metadata, n.kind, n.idKey, text);
    TaggedMatches(n, text);
  }

  /** A row with another key leaves the count of a key alone. */
  lemma RowKeepsOtherKeys(db: Db, n: Narrative, env: Env, returning: seq<Statement> -> Value, text: string)
    requires Tagged(n) && text != ToStr(n.key)
    ensures Count(RowEffect(db, n, env, returning).db.documents, n.kind, n.idKey, text)
         == Count(db.documents, n.kind, n.idKey, text)
  {
    CountWithout(db.documents, n.kind, n.idKey, text, ToStr(n.key));
    CountAppend(Without(db.documents, n.kind, n.idKey, ToStr(n.key)), n.metadata, n.kind, n.idKey, text);
    TaggedMatches(n, text);
  }

  // ----------------------------------------------------------------- loop

  /** The state after a prefix of the loop and the counter, or the error
      that ended it. */
  datatype Progress = Progress(db: Db, count: Result<nat>)

  /** The ingestion loop over narratives: row effects in order, one count per
      row, stopping at the first failed embedding. */
  function Run(db: Db, ns: seq<Narrative>, env: Env, returning: seq<Statement> -> Value): Progress {
    if ns == [] then Progress(db, Ok(0))
    else
      var p := Run(db, ns[..|ns| - 1], env, returning);
      if p.count.Err? then p
      else
        var o := RowEffect(p.db, ns[|ns| - 1], env, returning);
        if o.failure.Some? then Progress(o.db, Err(o.failure.value))
        else Progress(o.db, Ok(p.count.value + 1))
  }

  lemma Reassemble<T>(s: seq<T>, k: nat)
    requires k <= |s|
    ensures s[..k] + s[k..] == s
  {
  }

  /** One more row of the loop, from a prefix that succeeded. */
  lemma RunStep(db: Db, ns: seq<Narrative>, i: nat, before: Db, after: RowOutcome, env: Env,
                returning: seq<Statement> -> Value)
    requires i < |ns| && Run(db, ns[..i], env, returning) == Progress(before, Ok(i))
    requires after == RowEffect(before, ns[i], env, returning)
    ensures Run(db, ns[..i + 1], env, returning)
         == if after.failure.Some? then Progress(after.db, Err(after.failure.value)) else Progress(after.db, Ok(i + 1))
  {
    assert ns[..i + 1][..i] == ns[..i];
  }

  /** Once a row fails, later rows are never processed. */
  lemma {:induction false} RunErrSticks(db: Db, xs: seq<Narrative>, ys: seq<Narrative>, env: Env, returning: seq<Statement> -> Value)
    requires Run(db, xs, env, returning).count.Err?
    ensures Run(db, xs + ys, env, returning) == Run(db, xs, env, returning)
  {
    if ys == [] {
      assert xs + ys == xs;
    } else {
      RunErrSticks(db, xs, ys[..|ys| - 1], env, returning);
      assert (xs + ys)[..|xs + ys| - 1] == xs + ys[..|ys| - 1];
    }
  }

  /** Every chunk text of the narratives gets an embedding. */
  predicate AllEmbedded(ns: seq<Narrative>, env: Env) {
    forall j :: 0 <= j < |ns| ==> env.embed(ns[j].text).Ok?
  }

  lemma AllEmbeddedLast(ns: seq<Narrative>, env: Env)
    requires ns != []
    ensures AllEmbedded(ns, env) <==> AllEmbedded(ns[..|ns| - 1], env) && env.embed(ns[|ns| - 1].text).Ok?
  {
    assert forall j :: 0 <= j < |ns| - 1 ==> ns[..|ns| - 1][j] == ns[j];
  }

  /** The last row of a loop succeeds exactly when the earlier ones did and
      its own text gets an embedding; it adds one to the count. */
  lemma RunLast(db: Db, ns: seq<Narrative>, env: Env, returning: seq<Statement> -> Value)
    requires ns != []
    ensures var p := Run(db, ns[..|ns| - 1], env, returning);
      && (Run(db, ns, env, returning).count.Ok? <==> p.count.Ok? && env.embed(ns[|ns| - 1].text).Ok?)
      && (Run(db, ns, env, returning).count.Ok? ==> Run(db, ns, env, returning).count.value == p.count.value + 1)
  {
    var p := Run(db, ns[..|ns| - 1], env, returning);
    if p.count.Ok? {
      RowFails(p.db, ns[|ns| - 1], env, returning);
    }
  }

  /** A successful loop ends in the state its last row leaves. */
  lemma RunLastState(db: Db, ns: seq<Narrative>, env: Env, returning: seq<Statement> -> Value)
    requires ns != [] && Run(db, ns, env, returning).count.Ok?
    ensures Run(db, ns[..|ns| - 1], env, returning).count.Ok?
    ensures Run(db, ns, env, returning).db
         == RowEffect(Run(db, ns[..|ns| - 1], env, returning).db, ns[|ns| - 1], env, returning).db
  {
  }

  /** The loop succeeds exactly when every chunk text gets an embedding, and
      then it counts every row. */
  lemma {:induction false} RunCount(db: Db, ns: seq<Narrative>, env: Env, returning: seq<Statement> -> Value)
    ensures Run(db, ns, env, returning).count.Ok? <==> AllEmbedded(ns, env)
    ensures Run(db, ns, env, returning).count.Ok? ==> Run(db, ns, env, returning).count.value == |ns|
  {
    if ns != [] {
      RunCount(db, ns[..|ns| - 1], env, returning);
      RunLast(db, ns, env, returning);
      AllEmbeddedLast(ns, env);
    }
  }

  /** Every narrative of a loop of one kind, id key and tagging leaves
      exactly one document with its key, whatever the table held before and
      however often a key repeats: re-running is idempotent. */
  lemma {:induction false} OneDocumentPerKey(db: Db, ns: seq<Narrative>, env: Env, returning: seq<Statement> -> Value,
                                             kind: string, idKey: string, i: nat)
    requires forall j :: 0 <= j < |ns| ==> Tagged(ns[j]) && ns[j].kind == kind && ns[j].idKey == idKey
    requires Run(db, ns, env, returning).count.Ok?
    requires i < |ns|
    ensures Count(Run(db, ns, env, returning).db.documents, kind, idKey, ToStr(ns[i].key)) == 1
  {
    var init := ns[..|ns| - 1];
    var last := ns[|ns| - 1];
    var p := Run(db, init, env, returning);
    RunLastState(db, ns, env, returning);
    if ToStr(last.key) == ToStr(ns[i].key) {
      RowLeavesOneDocument(p.db, last, env, returning);
    } else {
      assert i != |ns| - 1;
      assert init[i] == ns[i];
      OneDocumentPerKey(db, init, env, returning, kind, idKey, i);
      RowKeepsOtherKeys(p.db, last, env, returning, ToStr(ns[i].key));
    }
  }

  /** Re-running the topic loop leaves one "curriculum_topic" document per
      fetched topic id. */
  lemma TopicsIdempotent(db: Db, rows: seq<TopicRow>, env: Env, returning: seq<Statement> -> Value, i: nat)
    requires forall j :: 0 <= j < |rows| ==> rows[j].topicId.Int? || rows[j].topicId.Str?
    requires Run(db, TopicNarratives(rows), env, returning).count.Ok?
    requires i < |rows|
    ensures Count(Run(db, TopicNarratives(rows), env, returning).db.documents,
                  "curriculum_topic", "topic_id", ToStr(rows[i].topicId)) == 1
  {
    var ns := TopicNarratives(rows);
    forall j | 0 <= j < |ns|
      ensures Tagged(ns[j]) && ns[j].kind == "curriculum_topic" && ns[j].idKey == "topic_id"
    {
      TopicNarrativeTagged(rows[j]);
    }
    OneDocumentPerKey(db, ns, env, returning, "curriculum_topic", "topic_id", i);
  }

  /** Re-running the result loop leaves one "student_result" document per
      fetched result id. */
  lemma ResultsIdempotent(db: Db, rows: seq<ResultRow>, env: Env, returning: seq<Statement> -> Value, i: nat)
    requires forall j :: 0 <= j < |rows| ==> rows[j].resultId.Int? || rows[j].resultId.Str?
    requires Run(db, ResultNarratives(rows), env, returning).count.Ok?
    requires i < |rows|
    ensures Count(Run(db, ResultNarratives(rows), env, returning).db.documents,
                  "student_result", "result_id", ToStr(rows[i].resultId)) == 1
  {
    var ns := ResultNarratives(rows);
    forall j | 0 <= j < |ns|
      ensures Tagged(ns[j]) && ns[j].kind == "student_result" && ns[j].idKey == "result_id"
    {
      ResultNarrativeTagged(rows[j]);
    }
    OneDocumentPerKey(db, ns, env, returning, "student_result", "result_id", i);
  }

  // ------------------------------------------------------- ingest phases

  /** `ingest_curriculum_topics` as a specification: fetch, then the loop
      over the fetched rows. */
  function TopicsPhase(db: Db, limit: Option<int>, env: Env, returning: seq<Statement> -> Value,
                       topicRows: (string, seq<Value>) -> seq<TopicRow>): Progress {
    var sql := TopicQueryText(limit);
    var args := TopicQueryArgs(limit);
    Run(Db(db.trace + [Exec(sql, args)], db.documents), TopicNarratives(topicRows(sql, args)), env, returning)
  }

  /** `ingest_student_results` as a specification. */
  function ResultsPhase(db: Db, studentId: Option<int>, limit: Option<int>, env: Env,
                        returning: seq<Statement> -> Value, resultRows: (string, Entries) -> seq<ResultRow>): Progress {
    var sql := ResultQueryText(limit);
    var params := ResultQueryParams(studentId, limit);
    Run(Db(db.trace + [ExecNamed(sql, params)], db.documents), ResultNarratives(resultRows(sql, params)), env, returning)
  }

  /** The loop body's first half for a topic: metadata, summary lines and
      their join. */
  method PrepareTopic(row: TopicRow) returns (n: Narrative)
    ensures n == TopicNarrative(row)
  {
    var lines := TopicSummary(row);
    n := Narrative("curriculum_topic", "topic_id", row.topicId, row.subjectName, TopicMetadata(row), JoinLines(lines));
  }

  /** The loop body's first half for a result. */
  method PrepareResult(row: ResultRow) returns (n: Narrative)
    ensures n == ResultNarrative(row)
  {
    var lines := ResultSummary(row);
    n := Narrative("student_result", "result_id", row.resultId, Str("result"), ResultMetadata(row), JoinLines(lines));
  }

  /** One row of the loop on the connection. */
  method WriteNarrative(conn: Connection, n: Narrative, env: Env) returns (failure: Option<Error>)
    modifies conn
    ensures RowOutcome(conn.State(), failure) == RowEffect(old(conn.State()), n, env, conn.returning)
  {
    conn.Delete(n.kind, n.idKey, ToStr(n.key));
    var documentId := conn.InsertDocument(n.source, n.metadata, env.dumps(n.metadata));
    var chunkId := conn.InsertChunk(documentId, n.text);
    var embedding := env.embed(n.text);
    if embedding.Err? {
      return Some(embedding.error);
    }
    conn.Send(Exec(InsertEmbeddingSql, [chunkId, Str(env.vectorSql(embedding.value))]));
    failure := None;
  }

  /** The `for row` loop of `ingest_curriculum_topics`: one narrative per
      fetched row, counted, stopping at the first failed embedding. */
  method WriteTopics(conn: Connection, rows: seq<TopicRow>, env: Env) returns (r: Result<nat>)
    modifies conn
    ensures Progress(conn.State(), r) == Run(old(conn.State()), TopicNarratives(rows), env, conn.returning)
  {
    ghost var ns := TopicNarratives(rows);
    ghost var db0 := conn.State();
    var inserted := 0;
    while inserted < |rows|
      invariant 0 <= inserted <= |rows|
      invariant Run(db0, ns[..inserted], env, conn.returning) == Progress(conn.State(), Ok(inserted))
    {
      var n := PrepareTopic(rows[inserted]);
      ghost var before := conn.State();
      var failure := WriteNarrative(conn, n, env);
      RunStep(db0, ns, inserted, before, RowOutcome(conn.State(), failure), env, conn.returning);
      if failure.Some? {
        RunErrSticks(db0, ns[..inserted + 1], ns[inserted + 1..], env, conn.returning);
        Reassemble(ns, inserted + 1);
        return Err(failure.value);
      }
      inserted := inserted + 1;
    }
    assert ns[..inserted] == ns;
    r := Ok(inserted);
  }

  /** The `for row` loop of `ingest_student_results`. */
  method WriteResults(conn: Connection, rows: seq<ResultRow>, env: Env) returns (r: Result<nat>)
    modifies conn
    ensures Progress(conn.State(), r) == Run(old(conn.State()), ResultNarratives(rows), env, conn.returning)
  {
    ghost var ns := ResultNarratives(rows);
    ghost var db0 := conn.State();
    var inserted := 0;
    while inserted < |rows|
      invariant 0 <= inserted <= |rows|
      invariant Run(db0, ns[..inserted], env, conn.returning) == Progress(conn.State(), Ok(inserted))
    {
      var n := PrepareResult(rows[inserted]);
      ghost var before := conn.State();
      var failure := WriteNarrative(conn, n, env);
      RunStep(db0, ns, inserted, before, RowOutcome(conn.State(), failure), env, conn.returning);
      if failure.Some? {
        RunErrSticks(db0, ns[..inserted + 1], ns[inserted + 1..], env, conn.returning);
        Reassemble(ns, inserted + 1);
        return Err(failure.value);
      }
      inserted := inserted + 1;
    }
    assert ns[..inserted] == ns;
    r := Ok(inserted);
  }

  /** `ingest_curriculum_topics`: build the query, fetch, run the loop. */
  method IngestTopics(conn: Connection, limit: Option<int>, env: Env) returns (r: Result<nat>)
    modifies conn
    ensures Progress(conn.State(), r) == TopicsPhase(old(conn.State()), limit, env, conn.returning, conn.topicRows)
  {
    var sql, args := TopicQuery(limit);
    var rows := conn.FetchTopics(sql, args);
    r := WriteTopics(conn, rows, env);
  }

  /** `ingest_student_results`: build the query, fetch, run the loop. */
  method IngestResults(conn: Connection, studentId: Option<int>, limit: Option<int>, env: Env) returns (r: Result<nat>)
    modifies conn
    ensures Progress(conn.State(), r) == ResultsPhase(old(conn.State()), studentId, limit, env, conn.returning, conn.resultRows)
  {
    var sql, params := ResultQuery(studentId, limit);
    var rows := conn.FetchResults(sql, params);
    r := WriteResults(conn, rows, env);
  }

  // ------------------------------------------------------------------ main

  /** The command-line flags. */
  datatype Flags = Flags(topicsOnly: bool, includeResults: bool, studentId: Option<int>, limit: Option<int>)

  /** With neither flag given, results are included. */
  function Normalised(f: Flags): (r: Flags)
    ensures r.topicsOnly == f.topicsOnly && r.studentId == f.studentId && r.limit == f.limit
    ensures r.includeResults <==> f.includeResults || !f.topicsOnly
  {
    if !f.includeResults && !f.topicsOnly then f.(includeResults := true) else f
  }

  predicate IngestsResults(f: Flags) {
    Normalised(f).includeResults && !Normalised(f).topicsOnly
  }

  /** Results are ingested exactly when `--topics-only` is absent, so
      `--include-results` never changes what runs; the other flags pass
      through untouched. */
  lemma ResultsUnlessTopicsOnly(f: Flags)
    ensures IngestsResults(f) <==> !f.topicsOnly
    ensures Normalised(f).limit == f.limit && Normalised(f).studentId == f.studentId
    ensures !f.includeResults && !f.topicsOnly ==> Normalised(f).includeResults
  {
  }

  datatype Outcome = Outcome(db: Db, counts: Result<(nat, nat)>)

  /** The results phase when the flags ask for it; otherwise nothing is
      sent and the count is zero. */
  function ResultsIfAsked(db: Db, flags: Flags, env: Env, returning: seq<Statement> -> Value,
                          resultRows: (string, Entries) -> seq<ResultRow>): Progress {
    if IngestsResults(flags) then ResultsPhase(db, flags.studentId, flags.limit, env, returning, resultRows)
    else Progress(db, Ok(0))
  }

  /** The end of `main` after both phases: an error ends the run, otherwise
      commit, refresh the view, commit and report both counts. */
  function Conclude(topics: nat, rp: Progress): (o: Outcome)
    ensures o.counts.Ok? <==> rp.count.Ok?
    ensures o.counts.Ok? ==>
      && |o.db.trace| == |rp.db.trace| + 3 && o.db.trace[..|rp.db.trace|] == rp.db.trace
      && o.db.trace[|rp.db.trace|..] == [Commit, Exec(RefreshSql, []), Commit]
      && o.db.documents == rp.db.documents
  {
    if rp.count.Err? then Outcome(rp.db, Err(rp.count.error))
    else Outcome(Db(rp.db.trace + [Commit] + [Exec(RefreshSql, [])] + [Commit], rp.db.documents),
                 Ok((topics, rp.count.value)))
  }

  /** `main` as a specification: topics, then results when the flags ask for
      them, then commit, refresh the view and commit again. */
  function Ingestion(db: Db, flags: Flags, env: Env, returning: seq<Statement> -> Value,
                     topicRows: (string, seq<Value>) -> seq<TopicRow>,
                     resultRows: (string, Entries) -> seq<ResultRow>): Outcome {
    var tp := TopicsPhase(db, flags.limit, env, returning, topicRows);
    if tp.count.Err? then Outcome(tp.db, Err(tp.count.error))
    else Conclude(tp.count.value, ResultsIfAsked(tp.db, flags, env, returning, resultRows))
  }

  /** A completed run reports the number of topic rows fetched and, unless
      `--topics-only`, the number of result rows fetched (zero otherwise). */
  lemma IngestionCounts(db: Db, flags: Flags, env: Env, returning: seq<Statement> -> Value,
                        topicRows: (string, seq<Value>) -> seq<TopicRow>,
                        resultRows: (string, Entries) -> seq<ResultRow>)
    ensures var o := Ingestion(db, flags, env, returning, topicRows, resultRows);
      o.counts.Ok? ==>
        && o.counts.value.0 == |topicRows(TopicQueryText(flags.limit), TopicQueryArgs(flags.limit))|
        && o.counts.value.1 == (if flags.topicsOnly then 0
                                else |resultRows(ResultQueryText(flags.limit), ResultQueryParams(flags.studentId, flags.limit))|)
  {
    ResultsUnlessTopicsOnly(flags);
    TopicsPhaseCount(db, flags.limit, env, returning, topicRows);
    var tp := TopicsPhase(db, flags.limit, env, returning, topicRows);
    if tp.count.Ok? && !flags.topicsOnly {
      ResultsPhaseCount(tp.db, flags.studentId, flags.limit, env, returning, resultRows);
    }
  }

  /** `ingest_curriculum_topics` returns the number of rows fetched. */
  lemma TopicsPhaseCount(db: Db, limit: Option<int>, env: Env, returning: seq<Statement> -> Value,
                         topicRows: (string, seq<Value>) -> seq<TopicRow>)
    ensures var p := TopicsPhase(db, limit, env, returning, topicRows);
      p.count.Ok? ==> p.count.value == |topicRows(TopicQueryText(limit), TopicQueryArgs(limit))|
  {
    var sql := TopicQueryText(limit);
    var args := TopicQueryArgs(limit);
    RunCount(Db(db.trace + [Exec(sql, args)], db.documents), TopicNarratives(topicRows(sql, args)), env, returning);
  }

  /** `ingest_student_results` returns the number of rows fetched. */
  lemma ResultsPhaseCount(db: Db, studentId: Option<int>, limit: Option<int>, env: Env,
                          returning: seq<Statement> -> Value, resultRows: (string, Entries) -> seq<ResultRow>)
    ensures var p := ResultsPhase(db, studentId, limit, env, returning, resultRows);
      p.count.Ok? ==> p.count.value == |resultRows(ResultQueryText(limit), ResultQueryParams(studentId, limit))|
  {
    var sql := ResultQueryText(limit);
    var params := ResultQueryParams(studentId, limit);
    RunCount(Db(db.trace + [ExecNamed(sql, params)], db.documents), ResultNarratives(resultRows(sql, params)), env, returning);
  }

  lemma IngestionAfterTopics(db: Db, flags: Flags, env: Env, returning: seq<Statement> -> Value,
                             topicRows: (string, seq<Value>) -> seq<TopicRow>,
                             resultRows: (string, Entries) -> seq<ResultRow>, tp: Progress)
    requires tp == TopicsPhase(db, flags.limit, env, returning, topicRows) && tp.count.Ok?
    ensures Ingestion(db, flags, env, returning, topicRows, resultRows)
         == Conclude(tp.count.value, ResultsIfAsked(tp.db, flags, env, returning, resultRows))
  {
  }

  /** The results branch of `main`, after the flags are normalised. */
  method IngestResultsIfAsked(conn: Connection, flags: Flags, env: Env) returns (r: Result<nat>)
    modifies conn
    ensures Progress(conn.State(), r) == ResultsIfAsked(old(conn.State()), flags, env, conn.returning, conn.resultRows)
  {
    var args := flags;
    if !args.includeResults && !args.topicsOnly {
      args := args.(includeResults := true);
    }
    if args.includeResults && !args.topicsOnly {
      r := IngestResults(conn, args.studentId, args.limit, env);
    } else {
      r := Ok(0);
    }
  }

  /** `main`: ingest topics, ingest results when the flags ask for them,
      then commit, refresh the latest-results view and commit. A failed
      embedding ends the run with its error. */
  method RunIngestion(conn: Connection, flags: Flags, env: Env) returns (counts: Result<(nat, nat)>)
    modifies conn
    ensures Outcome(conn.State(), counts)
         == Ingestion(old(conn.State()), flags, env, conn.returning, conn.topicRows, conn.resultRows)
  {
    ghost var db0 := conn.State();
    var topics := IngestTopics(conn, flags.limit, env);
    if topics.Err? {
      return Err(topics.error);
    }
    ghost var tp := Progress(conn.State(), topics);
    var results := IngestResultsIfAsked(conn, flags, env);
    ghost var rp := Progress(conn.State(), results);
    if results.Err? {
      IngestionAfterTopics(db0, flags, env, conn.returning, conn.topicRows, conn.resultRows, tp);
      return Err(results.error);
    }
    conn.Send(Commit);
    conn.Send(Exec(RefreshSql, []));
    conn.Send(Commit);
    counts := Ok((topics.value, results.value));
    IngestionAfterTopics(db0, flags, env, conn.returning, conn.topicRows, conn.resultRows, tp);
  }
}

# LightHouse backend core in Dafny

This project models the core of the LightHouse school assistant backend and
proves properties of the model. The backend has three parts:

- **The tool server.** It exposes three data tools to a language-model agent:
  - `pg_safe_query`: a whitelisted query dispatcher;
  - `rag_search`: a vector search over curriculum chunks;
  - `report_compose`: a term-report composer.

  Every read goes through the scoped query executor `db_rows`. This executor
  applies the caller's identity as transaction-local `SET LOCAL` context
  variables before the main statement, so that the store's row-level security
  policies can restrict the rows. `get_embedding` strips the text, refuses
  blank text and checks the vector's dimension.
- **The HTTP front end.** It covers:
  - bearer-token authentication;
  - the persona table that configures the agent;
  - the task description handed to the agent, which embeds the caller's
    identity for `_auth`;
  - chunking of the answer into server-sent events: 256 characters per data
    event, then a done event.
- **The ingestion script.** It runs in two phases: curriculum topics, then
  (unless `--topics-only`) student results. For each fetched row it:
  1. builds a metadata dict and a summary text;
  2. deletes the row's stale documents;
  3. inserts a document, a chunk and an embedding.

  Then it commits, refreshes the latest-results view and commits again.

## Modules

- `values.dfy` (`Values`): the backend's dynamic values.
  - A Python dict is an ordered list of entries, with `get`, `d[k] = v`,
    `pop` and `dict(zip(...))`.
  - Also: Python truthiness, `str()` / `repr()`, and the `Option`, `Result`
    and `Error` datatypes.
- `text.dfy` (`Text`): `str.strip()`, `str.split(sep)`, `sep.join(...)` and
  `"\n".join(...)`.
- `scoped_query.dfy` (`ScopedQuery`): `db_rows`.
  - The data store is a `Store` object.
  - It records every statement sent to it and the `SET LOCAL` attempts of
    the open transaction.
  - It answers from two oracles: whether it accepts a context assignment, and
    its answer to a main statement given this transaction's assignments.
  - `Attempts` is the reference definition of the context-setting phase.
- `tools.dfy` (`Tools`):
  - `pg_safe_query`: changes the caller's `params` dict in place. It is
    specified by the `PlanFor` function.
  - `get_embedding`: a function of an embedding service and the dimension.
  - `rag_search` and `report_compose`.
- `app.py` is modelled in `app.dfy` (`App`):
  - `auth`, with the signature check as a decoding parameter;
  - `build_agent`;
  - the task that `chat` and `chat_stream` build;
  - the `event_gen` loop, with the agent's run as a parameter.
- `ingest.dfy` (`Ingest`): the ingestion script.
  - A `Connection` object records the statement trace and holds the
    `rag_document` table's metadata. It answers fetches and `RETURNING id`
    from oracles.
  - The loops are specified by `Run`, a function over the fetched rows.
  - The whole script is specified by `Ingestion`.

In these points the model follows the code where a design reading might
expect otherwise:

- `db_rows` does not always set all three context variables.
  - It sets only those whose keys are present in `_auth`.
  - A rejected assignment skips the remaining ones, because one `try` wraps
    all three.
  - A truthy `_auth` that is not a dict sets none. The first key test or
    lookup either finds nothing or raises, and the `except` swallows the
    error. For a string or a list, `'user_id' in auth` is a substring or
    element test; only the lookup `auth['user_id']` after a hit raises.
- Embedding failures are the code's `ValueError` (blank text) and
  `RuntimeError` (missing key, failed request, wrong dimension). There is no
  separate embedding error kind.
- The row order of report results and of the vector search is whatever the
  store answers. It is part of the answer oracle, not a property the model
  proves.
- `--include-results` never changes what runs: results are ingested exactly
  when `--topics-only` is absent (`Ingest.ResultsUnlessTopicsOnly`).

## Model

| member | source | states |
|---|---|---|
| Values.Get | backend/lighthouse_mcp/lighthouse_mcp_server.py:112 | `d.get(k)` finds a value exactly when the key is present |
| Values.Insert | backend/scripts/ingest_rag_data.py:160 | after `d[k] = v`, k maps to v and every other key is unchanged; a new key goes to the end |
| Values.Remove | backend/lighthouse_mcp/lighthouse_mcp_server.py:111 | taking a key out removes it and leaves every other key's value alone; a missing key changes nothing |
| Values.FalsyValues | backend/scripts/ingest_rag_data.py:77-84 | Python truthiness (`Values.Truthy`): a value is false exactly when it is None, False, 0, "", [], {} or a falsy scalar |
| Values.Truthy | backend/lighthouse_mcp/lighthouse_mcp_server.py:52 | `bool(v)` as `if auth:` and `if row.get(...)` test it; its falsy values are listed by `Values.FalsyValues` |
| Values.StrVersusRepr | backend/app.py:106 | `str()` leaves a string as it is, shows another scalar (a date, a Decimal) by its own str() and renders everything else as its repr(). The two differ exactly on strings, which repr() puts in single quotes, and on scalars whose repr() is not their str() |
| Values.ToStr | backend/app.py:106 | `str(v)` as an f-string renders it; related to repr() by `Values.StrVersusRepr` |
| Values.ListShowsElementRepr | backend/app.py:106 | inside a container, `str()` shows an element by its repr(): a date in a list reads as its repr(), not its str() |
| Values.Repr | backend/app.py:106 | `repr(v)`: None, True/False, decimal ints, quoted strings, a date or Decimal by its own repr() text, and a dict as `{'key': repr(value), ...}` in key order; a dict of several entries opens with its first entry, by `App.DictOpens` |
| App.DictOpens | backend/app.py:106 | `str()` of a dict with several entries is `{`, the first entry as `'key': repr(value)`, then `, ` and the rest |
| Values.ZipDictDistinct | backend/lighthouse_mcp/lighthouse_mcp_server.py:64 | `dict(zip(cols, row))` over distinct column names has the columns as keys, in order, with the row's values by position |
| Text.Strip | backend/lighthouse_mcp/lighthouse_mcp_server.py:83 | the stripped text is a contiguous slice of the input with no white space at either end; it is empty exactly when the input is all white space |
| Text.Split | backend/app.py:52 | `split(" ")` yields at least one field and no field contains the separator |
| Text.JoinSplit | backend/app.py:52 | joining the fields of a split with the separator gives back the header |
| Text.SplitJoin | backend/app.py:52 | splitting a join of separator-free fields gives back the fields |
| Text.Join | backend/scripts/ingest_rag_data.py:85 | `sep.join(parts)`; it is the inverse of `split` on separator-free parts (`Text.JoinSplit`, `Text.SplitJoin`) and opens with the first part (`Text.JoinStartsWithFirst`) |
| Text.JoinLines | backend/scripts/ingest_rag_data.py:85 | `"\n".join(lines)`, the summary text; it opens with the first line (`Text.JoinStartsWithFirst`, used by `Ingest.SummaryNotBlank`) |
| Text.JoinStartsWithFirst | backend/scripts/ingest_rag_data.py:85 | `"\n".join(lines)` opens with the first line |
| ScopedQuery.Attempts | backend/lighthouse_mcp/lighthouse_mcp_server.py:52-61 | the reference definition of the context phase: nothing without a non-empty `_auth` dict, else one assignment per present key in the order user_id, role, school_id, stopping after the first rejection. Its properties are `ScopedQuery.AttemptsInOrder`, `ScopedQuery.AttemptsUsePresentKeys`, `ScopedQuery.RejectionEndsScope`, `ScopedQuery.PresentKeysAssigned` and `ScopedQuery.UnscopedWithoutAuthDict` |
| ScopedQuery.Decode | backend/lighthouse_mcp/lighthouse_mcp_server.py:62-64 | the answer of the main statement: its error, or one `dict(zip(cols, row))` per fetched row, in store order (`ScopedQuery.DecodedRecords`) |
| ScopedQuery.Step | backend/lighthouse_mcp/lighthouse_mcp_server.py:54-59 | a variable gets at most one assignment, and gets one exactly when its key is in `_auth` |
| ScopedQuery.Store.SetLocal | backend/lighthouse_mcp/lighthouse_mcp_server.py:55-57 | sends the one fixed `SET LOCAL` text with the value as its bound argument and records whether the store accepted it |
| ScopedQuery.Store.Execute | backend/lighthouse_mcp/lighthouse_mcp_server.py:62 | sends the main statement with its arguments; the answer depends on this transaction's assignments |
| ScopedQuery.Store.SetIfPresent | backend/lighthouse_mcp/lighthouse_mcp_server.py:54-59 | an absent key sends nothing and the phase goes on; a present key sends its assignment, and the phase goes on only if the store accepts it |
| ScopedQuery.Store.ApplyContext | backend/lighthouse_mcp/lighthouse_mcp_server.py:53-61 | the assignments made are exactly `ScopeAttempts` of the dict, and they are sent in that order |
| ScopedQuery.Store.DbRows | backend/lighthouse_mcp/lighthouse_mcp_server.py:49-64 | the statements sent are the context assignments of `Attempts(auth)` followed by the main statement. The result is the decoded answer under exactly those assignments, and none of them outlives the call |
| ScopedQuery.AttemptsInOrder | backend/lighthouse_mcp/lighthouse_mcp_server.py:54-59 | assignments come in the order user_id, role, school_id, each variable at most once |
| ScopedQuery.AttemptsUsePresentKeys | backend/lighthouse_mcp/lighthouse_mcp_server.py:54-59 | every assignment is for a key present in `_auth` and carries that key's value; the store's verdict is recorded as given |
| ScopedQuery.RejectionEndsScope | backend/lighthouse_mcp/lighthouse_mcp_server.py:53-61 | a rejected assignment is swallowed but is always the last one: every earlier one was accepted |
| ScopedQuery.PresentKeysAssigned | backend/lighthouse_mcp/lighthouse_mcp_server.py:52-61 | for a non-empty `_auth` dict, each present key is assigned unless an assignment earlier in the order was rejected |
| ScopedQuery.UnscopedWithoutAuthDict | backend/lighthouse_mcp/lighthouse_mcp_server.py:52 | without a non-empty `_auth` dict no context statement is sent |
| ScopedQuery.IdentityOnlyInArgs | backend/lighthouse_mcp/lighthouse_mcp_server.py:55-59 | every context statement has one of the three fixed texts and a single bound argument, the `_auth` value of the variable it sets |
| ScopedQuery.DecodedRecords | backend/lighthouse_mcp/lighthouse_mcp_server.py:63-64 | there is one record per fetched row, in store order, and each record maps the columns, in order, to the row's values |
| Tools.Params.Pop | backend/lighthouse_mcp/lighthouse_mcp_server.py:111 | `params.pop("_auth", None)` returns the value or the default, and leaves the dict without that key |
| Tools.PgSafeQuery | backend/lighthouse_mcp/lighthouse_mcp_server.py:106-119 | an unknown name returns the error value, leaves params untouched and sends nothing. A known name pops `_auth`; a missing key raises `KeyError` without a store call; otherwise one scoped call of the name's fixed statement under the popped `_auth` |
| Tools.NameOf | backend/lighthouse_mcp/lighthouse_mcp_server.py:110-119 | the `name == "..."` tests: the string is a whitelisted name exactly when it is "student_profile", "latest_results" or "search_results"; any other string is `OtherName` of itself |
| Tools.UnknownNameString | backend/lighthouse_mcp/lighthouse_mcp_server.py:110-119 | a payload's name string gets the error value exactly when it is none of the three whitelisted strings |
| Tools.PlanFor | backend/lighthouse_mcp/lighthouse_mcp_server.py:106-119 | what `pg_safe_query` does with a name and params: no call for an unknown name, the missing key's name, or the name's fixed statement with its arguments and the popped `_auth`. Its properties are `Tools.PlanRunsWhitelisted`, `Tools.PlanArguments` and `Tools.PlanMissingKey` |
| Tools.PlanRunsWhitelisted | backend/lighthouse_mcp/lighthouse_mcp_server.py:110-119 | a store call happens exactly for a whitelisted name whose keys are present; its text is that name's fixed statement, never a context assignment, and it runs under the caller's `_auth` |
| Tools.RemoveAuthKeeps | backend/lighthouse_mcp/lighthouse_mcp_server.py:111 | popping `_auth` leaves `student_id`, `subject` and `k` as they were |
| Tools.PlanArguments | backend/lighthouse_mcp/lighthouse_mcp_server.py:112-118 | the arguments are read from params: the student id first; for `search_results` also the subject and `k`, which defaults to 5 |
| Tools.PlanMissingKey | backend/lighthouse_mcp/lighthouse_mcp_server.py:112-118 | a missing key is reported by name, `student_id` before `subject` |
| Tools.GetEmbedding | backend/lighthouse_mcp/lighthouse_mcp_server.py:81-98 | blank text fails with the empty-text error exactly; a missing client key fails. Success means the stripped text was sent and a vector of the configured length came back, and such a reply always succeeds |
| Tools.BlankTextNeedsNoService | backend/lighthouse_mcp/lighthouse_mcp_server.py:83-87 | blank text fails the same way whatever the service would answer: the client is never consulted |
| Tools.RagSearchTool | backend/lighthouse_mcp/lighthouse_mcp_server.py:122-134 | an embedding error is returned without any store call; otherwise one unscoped statement runs, with the vector literal twice and `k` |
| Tools.Bundle | backend/lighthouse_mcp/lighthouse_mcp_server.py:153-158 | the report dict; its fields are stated by `Tools.BundleFields` |
| Tools.BundleFields | backend/lighthouse_mcp/lighthouse_mcp_server.py:153-158 | the report has the keys student, session, term, results; student is the first profile record or `{}`; session and term are those requested; results are the records as fetched |
| Tools.ReportComposeTool | backend/lighthouse_mcp/lighthouse_mcp_server.py:137-158 | the profile query, then the results query, both under the same `_auth`; an error in the first skips the second; success returns the bundle |
| App.Authenticate | backend/app.py:50-60 | succeeds exactly when the header has a second field that decodes to claims holding `uid`, `role` and `sid`. The identity is those three values under user_id, role, school_id; every failure is the same 401 |
| App.HeaderWithoutTokenRejected | backend/app.py:50-60 | a header without a space is refused whatever the decoder would say |
| App.BearerTokenDecoded | backend/app.py:52-58 | for `"<scheme> <token>"` exactly the token is decoded and its three claims are returned |
| App.BuildAgent | backend/app.py:62-91 | "parent" and "admin" get their own roles and every other persona the teacher advisor, in both directions; the tools are the three in catalog order |
| App.RoleTitle | backend/app.py:63-78 | the role titles "Parent Coach", "School Insights" and "Teacher Advisor"; which persona gets which is fixed by `App.BuildAgent` |
| App.Goal | backend/app.py:63-79 | each role's goal text, as given for its persona |
| App.Backstory | backend/app.py:63-83 | each role's backstory text, as given for its persona |
| App.Description | backend/app.py:104-110 | the `_auth` instruction, the identity's `str()`, the tool advice and then the user's message, in that order, as `App.DescriptionOrder` proves |
| App.ChatTask | backend/app.py:95-113 | a body without "message" fails with `KeyError("message")` and only then |
| App.DescriptionOrder | backend/app.py:104-110 | the description opens with the `_auth` instruction, the identity follows it directly, and the user's message closes it |
| App.DefaultPersonaIsTeacher | backend/app.py:95 | without a persona the teacher advisor is built |
| App.SampleIdentityRendering | backend/app.py:106 | the identity `{uid 1, role "admin", sid 1}` renders with `'user_id': 1` right after the opening brace |
| App.DescriptionShowsUserId | backend/tests/test_app.py:159-162 | the description of a chat under that identity contains `'user_id': 1` |
| App.Chat | backend/app.py:93-115 | fails exactly when "message" is missing; otherwise the reply is the agent's answer under "answer" |
| App.EventStream | backend/app.py:139-145 | the events are one `data:` event per 256-character chunk, in order, then the done event |
| App.Chunks | backend/app.py:141-142 | the reference chunking of the answer into 256-character slices; `App.ChunksCount`, `App.ChunkAt`, `App.ChunksConcat` and `App.ChunksBounded` state what it is |
| App.Events | backend/app.py:139-145 | the reference event stream: one `data:` event per chunk, then the done event (`App.DoneOnlyLast`); `App.EventStream` is proved equal to it |
| App.ChunksCount | backend/app.py:141 | there are ceil(len(text)/256) chunks |
| App.ChunkAt | backend/app.py:141-142 | chunk j is `text[256*j : 256*j+256]` |
| App.ChunksConcat | backend/app.py:141-143 | the chunks put back together give the whole answer |
| App.ChunksBounded | backend/app.py:142 | every chunk holds between 1 and 256 characters |
| App.DoneOnlyLast | backend/app.py:145 | the stream ends with the single done event, also for an empty answer, and every earlier event is a data event |
| App.ChatStream | backend/app.py:117-147 | fails exactly when "message" is missing; otherwise the events of the agent's answer |
| Ingest.TopicQuery | backend/scripts/ingest_rag_data.py:30-54 | without a limit the plain query with no arguments; with one, ` LIMIT %s` appended and the limit as the single argument |
| Ingest.ResultQuery | backend/scripts/ingest_rag_data.py:133-160 | `student_id` is always bound (None when absent); `limit` is bound, and ` LIMIT %(limit)s` appended, exactly when a limit is given |
| Ingest.GradeText | backend/scripts/ingest_rag_data.py:181 | `row.get('grade') or 'N/A'`: None, "" and 0 show as N/A; a non-empty string shows as itself and a non-zero int as its digits |
| Ingest.TopicSummary | backend/scripts/ingest_rag_data.py:71-84 | the four header lines, then the lines of the truthy optional fields in their fixed order |
| Ingest.ResultSummary | backend/scripts/ingest_rag_data.py:178-187 | the four header lines (grade "N/A" when falsy), then the truthy remark lines in order |
| Ingest.PresentConcat | backend/scripts/ingest_rag_data.py:77-84 | conditional appends distribute over concatenation of the optional fields |
| Ingest.PresentMembers | backend/scripts/ingest_rag_data.py:77-84 | a line is appended exactly when it belongs to a truthy optional field |
| Ingest.PresentBounded | backend/scripts/ingest_rag_data.py:77-84 | no more lines are appended than there are optional fields |
| Ingest.TopicTextShape | backend/scripts/ingest_rag_data.py:71-85 | a topic summary starts with "Subject: " and is never blank |
| Ingest.ResultTextShape | backend/scripts/ingest_rag_data.py:178-188 | a result summary starts with "Student: " and is never blank |
| Ingest.SummariesEmbeddable | backend/scripts/ingest_rag_data.py:115 | `get_embedding` never raises the empty-text error on a summary |
| Ingest.TopicNarrativeTagged | backend/scripts/ingest_rag_data.py:63-70 | topic metadata has the keys type, topic_id, theme_id, subject_id, class_id, academic_year, with type "curriculum_topic" and the row's topic id |
| Ingest.ResultNarrativeTagged | backend/scripts/ingest_rag_data.py:169-177 | result metadata has the keys type, result_id, student_id, class_id, subject_id, session, term, with type "student_result" and the row's result id |
| Ingest.Without | backend/scripts/ingest_rag_data.py:88-95 | the DELETE keeps exactly the documents whose `metadata->>'type'` or `metadata->>'<id>'` differs from the row's |
| Ingest.CountWithout | backend/scripts/ingest_rag_data.py:88-95 | after the DELETE no document matches the deleted key, and the count of every other key is unchanged |
| Ingest.CountAppend | backend/scripts/ingest_rag_data.py:97-104 | an inserted document adds one to the count of every (type, id) it matches and leaves all other counts alone |
| Ingest.Connection.FetchTopics | backend/scripts/ingest_rag_data.py:56-58 | sends the topic query and returns the store's rows; the documents are unchanged |
| Ingest.Connection.FetchResults | backend/scripts/ingest_rag_data.py:162-164 | sends the results query with its named parameters and returns the store's rows |
| Ingest.Connection.Delete | backend/scripts/ingest_rag_data.py:88-95 | sends the DELETE with the key's `str()` and removes the matching documents |
| Ingest.Connection.InsertDocument | backend/scripts/ingest_rag_data.py:97-104 | sends the document insert with the source and the JSON text, adds the metadata to the table and returns the store's id |
| Ingest.Connection.InsertChunk | backend/scripts/ingest_rag_data.py:106-113 | sends the chunk insert under the given document id and returns the store's id |
| Ingest.Connection.Send | backend/scripts/ingest_rag_data.py:277-279 | appends one statement (commit, refresh) and leaves the documents alone |
| Ingest.RowEffect | backend/scripts/ingest_rag_data.py:87-122 | the reference effect of one loop body on the statement trace and the document table; its properties are `Ingest.RowOrder`, `Ingest.RowLeavesOneDocument` and `Ingest.RowKeepsOtherKeys` |
| Ingest.Run | backend/scripts/ingest_rag_data.py:60-125 | the reference loop: the row effects in order, counting rows, ending at the first failed embedding. Its properties are `Ingest.RunErrSticks`, `Ingest.RunCount` and `Ingest.OneDocumentPerKey` |
| Ingest.RowOrder | backend/scripts/ingest_rag_data.py:87-122 | one row sends DELETE, document, chunk, embedding in that order. The DELETE carries the id's `str()` and the document the source and the metadata's JSON text. The chunk carries the returned document id and the summary, and the embedding the returned chunk id and the vector literal; a failed embedding stops after the chunk |
| Ingest.RowLeavesOneDocument | backend/scripts/ingest_rag_data.py:87-104 | after a row exactly one document carries the row's type and id |
| Ingest.RowKeepsOtherKeys | backend/scripts/ingest_rag_data.py:87-104 | a row leaves the document count of every other id unchanged |
| Ingest.RunErrSticks | backend/scripts/ingest_rag_data.py:115 | an exception ends the loop: no later row is processed |
| Ingest.RunCount | backend/scripts/ingest_rag_data.py:60-125 | with statements that always succeed, the loop completes exactly when every summary embeds, and then the counter equals the number of rows |
| Ingest.OneDocumentPerKey | backend/scripts/ingest_rag_data.py:87-104 | after a completed loop, every processed id has exactly one document of its type, whatever the table held before: reruns stay idempotent |
| Ingest.TopicsIdempotent | backend/scripts/ingest_rag_data.py:87-104 | every fetched topic has exactly one `curriculum_topic` document after the topics loop |
| Ingest.ResultsIdempotent | backend/scripts/ingest_rag_data.py:190-206 | every fetched result has exactly one `student_result` document after the results loop |
| Ingest.PrepareTopic | backend/scripts/ingest_rag_data.py:63-85 | the metadata, source and summary of a topic row are its narrative |
| Ingest.PrepareResult | backend/scripts/ingest_rag_data.py:169-188 | the metadata, source and summary of a result row are its narrative |
| Ingest.WriteNarrative | backend/scripts/ingest_rag_data.py:87-122 | the statements and table change of one loop body are `RowEffect` of the old state |
| Ingest.WriteTopics | backend/scripts/ingest_rag_data.py:60-125 | the topics loop's new state and counter are `Run` over the rows' narratives |
| Ingest.WriteResults | backend/scripts/ingest_rag_data.py:166-227 | the results loop's new state and counter are `Run` over the rows' narratives |
| Ingest.IngestTopics | backend/scripts/ingest_rag_data.py:29-125 | `ingest_curriculum_topics` is the fetch followed by the loop over the fetched rows |
| Ingest.IngestResults | backend/scripts/ingest_rag_data.py:128-227 | `ingest_student_results` is the fetch followed by the loop over the fetched rows |
| Ingest.TopicsPhase | backend/scripts/ingest_rag_data.py:29-125 | the reference topics phase: the fetch, then `Run` over the fetched rows' narratives; its count is stated by `Ingest.TopicsPhaseCount` |
| Ingest.ResultsPhase | backend/scripts/ingest_rag_data.py:128-227 | the reference results phase: the fetch with named parameters, then `Run` over the fetched rows' narratives; its count is stated by `Ingest.ResultsPhaseCount` |
| Ingest.TopicsPhaseCount | backend/scripts/ingest_rag_data.py:60-125 | a completed topics phase returns the number of rows fetched |
| Ingest.ResultsPhaseCount | backend/scripts/ingest_rag_data.py:166-227 | a completed results phase returns the number of rows fetched |
| Ingest.Normalised | backend/scripts/ingest_rag_data.py:264-266 | the flag default: `--topics-only`, `--student-id` and `--limit` are kept, and results are included when `--include-results` is given or `--topics-only` is not |
| Ingest.ResultsUnlessTopicsOnly | backend/scripts/ingest_rag_data.py:264-273 | results are ingested exactly when `--topics-only` is absent; with neither flag, include is switched on; limit and student id pass through |
| Ingest.Conclude | backend/scripts/ingest_rag_data.py:277-279 | after both phases succeed, exactly commit, refresh `mv_latest_results`, commit are appended, and the documents are unchanged; an error ends the run |
| Ingest.IngestionCounts | backend/scripts/ingest_rag_data.py:270-279 | a completed run reports the topic rows fetched and, unless `--topics-only`, the result rows fetched (else zero) |
| Ingest.IngestResultsIfAsked | backend/scripts/ingest_rag_data.py:264-276 | the results phase runs when the normalised flags ask for it; otherwise nothing is sent and the count is zero |
| Ingest.Ingestion | backend/scripts/ingest_rag_data.py:264-279 | the reference run of `main`: topics, results when asked, then commit, refresh and commit, with the first error ending the run; its counts are stated by `Ingest.IngestionCounts` and `Ingest.IngestResultsIfAsked` |
| Ingest.RunIngestion | backend/scripts/ingest_rag_data.py:270-279 | `main`'s new state and counts are `Ingestion` of the old state and the flags |

## Left out

- The OpenAI client is the `EmbeddingService` parameter. Left out of it: how the client is built, its `lru_cache`, and the import failure of the `openai` package.
- `get_embedding` reads the model name from the environment; only the dimension is modelled, as a parameter with the default 1536 as a constant.
- JWT signature and expiry checking is the `decode` parameter of `App.Authenticate`: the HS256 algorithm and the secret are not modelled.
- `_vector_to_sql` and `json.dumps` are function parameters. The `rag_document` table stores the metadata dict itself, on the assumption that JSON storage and `metadata->>key` round-trip it.
- Ingest.Env: `dumps` always returns a text. `json.dumps` raises `TypeError` on a date or Decimal value; the metadata dicts hold only the fetched id, year, session and term columns, which the model takes to be JSON scalars, so this failure is not modelled.
- Values.Repr: a scalar other than None, a bool, an int or a string (a date, a Decimal, a float) carries its str() and repr() texts as given. The model does not compute them from the date or number. The claims the task description shows are JSON-decoded, so no such scalar reaches `repr()` there.
- `Ingest.JsonText` approximates `metadata->>key`. A missing key and JSON null read as SQL NULL. A boolean reads as its JSON text `true`/`false`, an integer as its decimal digits, a string as itself and any other scalar as its `str()`. A list or dict value also reads as SQL NULL here, whereas PostgreSQL's `->>` returns its JSON text; the ids the DELETE compares are never lists or dicts.
- The ingestion script's embedding call is the `embed` field of `Ingest.Env`. `Ingest.ServerEmbedding` is the intended instance, `get_embedding` itself, and `Ingest.SummariesEmbeddable` shows it never gives the empty-text error on a summary.
- The `rag_chunk` and `rag_embedding` tables appear only in the statement trace. The cascade from a deleted document to its chunks and embeddings is not modelled.
- Every statement the ingestion script sends is assumed to succeed: the fetches, the DELETE, the three inserts, both commits and the view refresh. The `Connection` has no failure oracle, so the only error that can end a loop is the embedding's (`env.embed`). `Ingest.RunCount`'s "completes exactly when every summary embeds" holds under this assumption only.
- `fetchone()` returning None is not modelled: `RETURNING id` always yields the id from the `returning` oracle.
- Transaction rollback on an exception is not modelled, nor the implicit commit or rollback when the `with psycopg.connect(...)` block exits. A failed run is represented by its statement trace up to the failure.
- A store that rejects all later statements after a failed `SET LOCAL` is possible in PostgreSQL. It is expressible through the answer oracle, which sees the rejected attempt, but the model does not fix it.
- Concurrency, connection pooling and the per-request isolation between concurrent calls are left out: each call is modelled on its own store object.
- The CrewAI agent run (`Crew(...).kickoff()`) is the `kickoff` parameter. `Task`, `Agent` and the stdio MCP adapter are left out; the modelled `Agent` keeps its role, from which the title, goal and backstory follow, and its tool names.
- `tools["..."]` lookups in `build_agent` are assumed to succeed.
- FastAPI, `JSONResponse`, `StreamingResponse`, the `Depends` wiring and `asyncio.sleep(0)` are left out: only the sequence of events is modelled.
- `chat_id` is read but never used, so the model does not read it.
- Pydantic validation of the payloads is left out. `SafeQuery.name` is a string, and `Tools.NameOf` maps it to one of the three names or `OtherName`; `RagSearch.k` defaults to 8 at validation time, so the model takes `k` as given; `RagSearch.filters` is never read.
- `backend/mcp_adapter.py` and `backend/crew/crewai_mcp_example.py` are not part of this model.
- `argparse` parsing, the final `print`, `_require_database_url` and the module-level `DATABASE_URL_RO` assertion are left out; the model's entry point is `Ingest.RunIngestion`, taking parsed flags.
- `repr()` of strings uses plain single quotes: no escaping of quotes or control characters, and no double-quote form.
- The ingestion SQL texts are triple-quoted in the source. The model keeps them with their white space normalised to single spaces.
- The fetched rows have the fixed columns of each `SELECT`, so `row["..."]` never raises `KeyError` in the model.
- Tools.GetEmbedding: the contract states that a failed request or a wrong dimension fails, but not the text of the `RuntimeError`.

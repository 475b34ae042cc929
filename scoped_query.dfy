/** The scoped query executor `db_rows`: one fresh connection per call, the
    caller's identity applied as transaction-local context variables with
    parameterised `SET LOCAL` statements, then the main statement, whose rows
    come back as column-name -> value records. The data store is an object that
    records every statement it is sent and answers from two oracles. */
module ScopedQuery {
  import opened Values

  /** A statement sent to the store: SQL text and its bound arguments. */
  datatype Command = Exec(sql: string, args: seq<Value>)

  /** The context variables the store's row-level security policies read. */
  datatype ContextVar = UserId | Role | SchoolId

  /** The order in which `db_rows` considers the variables. */
  function Rank(v: ContextVar): nat {
    match v
    case UserId => 0
    case Role => 1
    case SchoolId => 2
  }

  /** The key of the `_auth` dict that feeds a variable. */
  function AuthKey(v: ContextVar): string {
    match v
    case UserId => "user_id"
    case Role => "role"
    case SchoolId => "school_id"
  }

  /** The fixed text of the assignment; the value is always a bound argument. */
  function SetLocalSql(v: ContextVar): string {
    match v
    case UserId => "SET LOCAL app.user_id = %s"
    case Role => "SET LOCAL app.role = %s"
    case SchoolId => "SET LOCAL app.school_id = %s"
  }

  const SetLocalTexts: set<string> :=
    {"SET LOCAL app.user_id = %s", "SET LOCAL app.role = %s", "SET LOCAL app.school_id = %s"}

  /** One `SET LOCAL` sent in the current transaction, and whether the store
      accepted it. */
  datatype Attempt = Attempt(variable: ContextVar, value: Value, accepted: bool)

  /** The store's answer to a main statement: column names (the cursor's
      description) and rows, or the error the statement raised. */
  datatype Answer = Rows(columns: seq<string>, rows: seq<seq<Value>>) | Failed(cause: string)

  /** The `SET LOCAL` attempts `db_rows` makes for `auth`: none unless `auth`
      is a non-empty dict (for any other truthy value the first key test or
      lookup either finds nothing or raises, and the `try` swallows it);
      otherwise one per present key, in the order user_id, role, school_id,
      stopping after the first one the store rejects. */
  function Attempts(auth: Value, accepts: (ContextVar, Value) -> bool): seq<Attempt> {
    if Truthy(auth) && auth.Dict? then ScopeAttempts(auth.entries, accepts) else []
  }

  function ScopeAttempts(d: Entries, accepts: (ContextVar, Value) -> bool): seq<Attempt> {
    Step(UserId, d, accepts)
    + (if !Continues(UserId, d, accepts) then [] else
         Step(Role, d, accepts)
         + (if !Continues(Role, d, accepts) then [] else Step(SchoolId, d, accepts)))
  }

  /** The attempt for variable `v`, if its key is present. */
  function Step(v: ContextVar, d: Entries, accepts: (ContextVar, Value) -> bool): (st: seq<Attempt>)
    ensures |st| <= 1 && (st != [] <==> HasKey(d, AuthKey(v)))
    ensures forall e :: e in st ==> e.variable == v
  {
    match Get(d, AuthKey(v))
    case None => []
    case Some(x) => [Attempt(v, x, accepts(v, x))]
  }

  /** The phase goes on after `v` unless its assignment was rejected. */
  predicate Continues(v: ContextVar, d: Entries, accepts: (ContextVar, Value) -> bool) {
    var st := Step(v, d, accepts);
    st == [] || st[0].accepted
  }

  function AttemptCommand(a: Attempt): Command {
    Exec(SetLocalSql(a.variable), [a.value])
  }

  function AttemptCommands(attempts: seq<Attempt>): (cs: seq<Command>)
    ensures |cs| == |attempts|
  {
    if attempts == [] then []
    else [AttemptCommand(attempts[0])] + AttemptCommands(attempts[1..])
  }

  /** The statements of the context-setting phase of one `db_rows` call. */
  function ScopeCommands(auth: Value, accepts: (ContextVar, Value) -> bool): seq<Command> {
    AttemptCommands(Attempts(auth, accepts))
  }

  /** `[dict(zip(cols, r)) for r in cur.fetchall()]`, or the statement's error. */
  function Decode(a: Answer): Result<seq<Entries>> {
    match a
    case Failed(cause) => Err(QueryError(cause))
    case Rows(cols, rows) => Ok(seq(|rows|, i requires 0 <= i < |rows| => ZipDict(cols, rows[i])))
  }

  class Store {
    /** Every statement sent to the store, oldest first. */
    var trace: seq<Command>
    /** The `SET LOCAL` attempts of the transaction that is open, if any. */
    var session: seq<Attempt>
    /** Whether the store accepts a context assignment. */
    const accepts: (ContextVar, Value) -> bool
    /** The store's answer to a main statement, given the context assignments
        made in the same transaction (row-level security reads them). */
    const answer: (seq<Attempt>, string, seq<Value>) -> Answer

    constructor (accepts: (ContextVar, Value) -> bool, answer: (seq<Attempt>, string, seq<Value>) -> Answer)
      ensures trace == [] && session == []
      ensures this.accepts == accepts && this.answer == answer
    {
      trace := [];
      session := [];
      this.accepts := accepts;
      this.answer := answer;
    }

    /** `cur.execute("SET LOCAL app.<v> = %s", (x,))`; `ok` is false when it raises. */
    method SetLocal(v: ContextVar, x: Value) returns (ok: bool)
      modifies this
      ensures ok == accepts(v, x)
      ensures trace == old(trace) + [Exec(SetLocalSql(v), [x])]
      ensures session == old(session) + [Attempt(v, x, ok)]
    {
      ok := accepts(v, x);
      trace := trace + [Exec(SetLocalSql(v), [x])];
      session := session + [Attempt(v, x, ok)];
    }

    /** `cur.execute(sql, args)` for the main statement. */
    method Execute(sql: string, args: seq<Value>) returns (a: Answer)
      modifies this
      ensures a == answer(old(session), sql, args)
      ensures trace == old(trace) + [Exec(sql, args)] && session == old(session)
    {
      a := answer(session, sql, args);
      trace := trace + [Exec(sql, args)];
    }

    /** `if '<key>' in auth: cur.execute("SET LOCAL ...", (auth['<key>'],))`;
        `ok` is false when the statement raised. The trace keeps listing the
        session's statements after those that came before it (`t0`). */
    method SetIfPresent(v: ContextVar, d: Entries, ghost t0: seq<Command>) returns (ok: bool)
      requires trace == t0 + AttemptCommands(session)
      modifies this
      ensures ok == Continues(v, d, accepts)
      ensures session == old(session) + Step(v, d, accepts)
      ensures trace == t0 + AttemptCommands(session)
    {
      ok := true;
      if HasKey(d, AuthKey(v)) {
        ok := SetLocal(v, Get(d, AuthKey(v)).value);
      }
      AttemptCommandsAppend(old(session), Step(v, d, accepts));
    }

    /** The body of the `try` in `db_rows` for a dict `d`: the first statement
        that raises skips the rest. */
    method ApplyContext(d: Entries)
      requires session == []
      modifies this
      ensures session == ScopeAttempts(d, accepts)
      ensures trace == old(trace) + AttemptCommands(session)
    {
      ghost var t0 := trace;
      ScopeAttemptsCases(d, accepts);
      var ok := SetIfPresent(UserId, d, t0);
      if ok {
        ok := SetIfPresent(Role, d, t0);
        if ok {
          ok := SetIfPresent(SchoolId, d, t0);
        }
      }
    }

    /** `db_rows(sql, args, auth)`. The context assignments are exactly those
        of `Attempts(auth, accepts)` and precede the main statement; the answer
        depends on this call's assignments only, and none outlives the call. */
    method DbRows(sql: string, args: seq<Value>, auth: Value) returns (r: Result<seq<Entries>>)
      modifies this
      ensures trace == old(trace) + ScopeCommands(auth, accepts) + [Exec(sql, args)]
      ensures r == Decode(answer(Attempts(auth, accepts), sql, args))
      ensures session == []
    {
      session := [];  // fresh connection, fresh transaction
      if Truthy(auth) {
        // try:
        if auth.Dict? {
          ApplyContext(auth.entries);
        }
        // except Exception: pass
        // (for a truthy auth that is not a dict, the first key test or lookup
        // either finds nothing or raises, so no SET LOCAL is sent)
      }
      var a := Execute(sql, args);
      r := Decode(a);
      session := [];  // the connection closes with the transaction
    }
  }

  /** `ScopeAttempts` by the point where the phase stops. */
  lemma ScopeAttemptsCases(d: Entries, accepts: (ContextVar, Value) -> bool)
    ensures var s0, s1, s2 := Step(UserId, d, accepts), Step(Role, d, accepts), Step(SchoolId, d, accepts);
      && (!Continues(UserId, d, accepts) ==> ScopeAttempts(d, accepts) == [] + s0)
      && (Continues(UserId, d, accepts) && !Continues(Role, d, accepts) ==> ScopeAttempts(d, accepts) == [] + s0 + s1)
      && (Continues(UserId, d, accepts) && Continues(Role, d, accepts) ==> ScopeAttempts(d, accepts) == [] + s0 + s1 + s2)
  {
    var s0, s1, s2 := Step(UserId, d, accepts), Step(Role, d, accepts), Step(SchoolId, d, accepts);
    assert [] + s0 + s1 + s2 == s0 + (s1 + s2);
  }

  lemma {:induction false} AttemptCommandsAppend(a: seq<Attempt>, b: seq<Attempt>)
    ensures AttemptCommands(a + b) == AttemptCommands(a) + AttemptCommands(b)
  {
    if a == [] {
      assert a + b == b;
    } else {
      assert (a + b)[0] == a[0] && (a + b)[1..] == a[1..] + b;
      AttemptCommandsAppend(a[1..], b);
      calc {
        AttemptCommands(a + b);
        [AttemptCommand(a[0])] + AttemptCommands(a[1..] + b);
        [AttemptCommand(a[0])] + (AttemptCommands(a[1..]) + AttemptCommands(b));
        ([AttemptCommand(a[0])] + AttemptCommands(a[1..])) + AttemptCommands(b);
      }
    }
  }

  lemma {:induction false} AttemptCommandsAt(a: seq<Attempt>, i: nat)
    requires i < |a|
    ensures AttemptCommands(a)[i] == AttemptCommand(a[i])
  {
    if i > 0 {
      AttemptCommandsAt(a[1..], i - 1);
    }
  }

  predicate Ordered(a: seq<Attempt>) {
    forall i, j :: 0 <= i < j < |a| ==> Rank(a[i].variable) < Rank(a[j].variable)
  }

  lemma ConcatOrdered(x: seq<Attempt>, y: seq<Attempt>, k: nat)
    requires |x| <= 1 && forall e :: e in x ==> Rank(e.variable) == k
    requires Ordered(y) && forall e :: e in y ==> Rank(e.variable) > k
    ensures Ordered(x + y) && forall e :: e in x + y ==> Rank(e.variable) >= k
  {
    forall i, j | 0 <= i < j < |x + y| ensures Rank((x + y)[i].variable) < Rank((x + y)[j].variable) {
      if i >= |x| {
        assert (x + y)[i] == y[i - |x|] && (x + y)[j] == y[j - |x|];
      } else {
        assert (x + y)[i] in x && (x + y)[j] == y[j - |x|] && y[j - |x|] in y;
      }
    }
  }

  /** The assignments follow the fixed order user_id, role, school_id, each
      variable at most once. */
  lemma AttemptsInOrder(auth: Value, accepts: (ContextVar, Value) -> bool)
    ensures Ordered(Attempts(auth, accepts))
  {
    if Truthy(auth) && auth.Dict? {
      var d := auth.entries;
      var s2 := if !Continues(Role, d, accepts) then [] else Step(SchoolId, d, accepts);
      var s1 := if !Continues(UserId, d, accepts) then [] else Step(Role, d, accepts) + s2;
      ConcatOrdered(Step(Role, d, accepts), s2, 1);
      ConcatOrdered(Step(UserId, d, accepts), s1, 0);
    }
  }

  /** A variable is assigned only when its key is in the `_auth` dict, and it
      is assigned that key's value; the store's verdict is recorded as is. */
  lemma AttemptsUsePresentKeys(auth: Value, accepts: (ContextVar, Value) -> bool)
    ensures forall e :: e in Attempts(auth, accepts) ==>
      auth.Dict? && Get(auth.entries, AuthKey(e.variable)) == Some(e.value)
      && e.accepted == accepts(e.variable, e.value)
  {
    if Truthy(auth) && auth.Dict? {
      var d := auth.entries;
      StepPresent(UserId, d, accepts);
      StepPresent(Role, d, accepts);
      StepPresent(SchoolId, d, accepts);
    }
  }

  lemma StepPresent(v: ContextVar, d: Entries, accepts: (ContextVar, Value) -> bool)
    ensures forall e :: e in Step(v, d, accepts) ==>
      Get(d, AuthKey(v)) == Some(e.value) && e.accepted == accepts(v, e.value)
  {
  }

  /** Only the last attempt can be a rejected one. */
  predicate RejectedLast(a: seq<Attempt>) {
    forall i :: 0 <= i < |a| && !a[i].accepted ==> i == |a| - 1
  }

  lemma ConcatRejectedLast(x: seq<Attempt>, y: seq<Attempt>)
    requires |x| <= 1 && (x != [] && !x[0].accepted ==> y == [])
    requires RejectedLast(y)
    ensures RejectedLast(x + y)
  {
    forall i | 0 <= i < |x + y| && !(x + y)[i].accepted ensures i == |x + y| - 1 {
      if i >= |x| {
        assert (x + y)[i] == y[i - |x|];
      }
    }
  }

  /** A rejected assignment is swallowed but ends the phase: every earlier one
      was accepted and none follows it. */
  lemma RejectionEndsScope(auth: Value, accepts: (ContextVar, Value) -> bool)
    ensures RejectedLast(Attempts(auth, accepts))
  {
    if Truthy(auth) && auth.Dict? {
      var d := auth.entries;
      var s2 := if !Continues(Role, d, accepts) then [] else Step(SchoolId, d, accepts);
      var s1 := if !Continues(UserId, d, accepts) then [] else Step(Role, d, accepts) + s2;
      ConcatRejectedLast(Step(Role, d, accepts), s2);
      ConcatRejectedLast(Step(UserId, d, accepts), s1);
    }
  }

  /** A key present in a non-empty `_auth` dict is assigned unless an earlier
      assignment was rejected. */
  lemma PresentKeysAssigned(auth: Value, accepts: (ContextVar, Value) -> bool, v: ContextVar)
    requires auth.Dict? && auth.entries != [] && HasKey(auth.entries, AuthKey(v))
    ensures var a := Attempts(auth, accepts);
      (exists e :: e in a && e.variable == v)
      || (exists e :: e in a && !e.accepted && Rank(e.variable) < Rank(v))
  {
    var d := auth.entries;
    var a := Attempts(auth, accepts);
    var s0, s1, s2 := Step(UserId, d, accepts), Step(Role, d, accepts), Step(SchoolId, d, accepts);
    var r2 := if !Continues(Role, d, accepts) then [] else s2;
    var r1 := if !Continues(UserId, d, accepts) then [] else s1 + r2;
    assert a == s0 + r1;
    if v == UserId {
      assert s0[0] in a;
    } else if !Continues(UserId, d, accepts) {
      assert s0[0] in a;
    } else if v == Role {
      assert s1[0] in r1;
    } else if !Continues(Role, d, accepts) {
      assert s1[0] in r1;
    } else {
      assert s2[0] in r1;
    }
  }

  /** Without a non-empty `_auth` dict (None, {}, or any other value) the call
      runs unscoped: the main statement is the only one sent. */
  lemma UnscopedWithoutAuthDict(auth: Value, accepts: (ContextVar, Value) -> bool)
    requires !auth.Dict? || auth.entries == []
    ensures ScopeCommands(auth, accepts) == []
  {
  }

  /** Identity values reach the store only as bound arguments: every
      context-setting statement has one of three fixed texts and a single
      argument, the value of the key it names. */
  lemma IdentityOnlyInArgs(auth: Value, accepts: (ContextVar, Value) -> bool)
    ensures var cs := ScopeCommands(auth, accepts);
      forall i :: 0 <= i < |cs| ==>
        cs[i].sql in SetLocalTexts && |cs[i].args| == 1
        && auth.Dict? && Get(auth.entries, AuthKey(Attempts(auth, accepts)[i].variable)) == Some(cs[i].args[0])
  {
    AttemptsUsePresentKeys(auth, accepts);
    var a := Attempts(auth, accepts);
    forall i | 0 <= i < |a| ensures ScopeCommands(auth, accepts)[i] == AttemptCommand(a[i]) {
      AttemptCommandsAt(a, i);
      assert a[i] in a;
    }
  }

  /** One record per fetched row, in store order; with distinct column names
      each record maps the columns, in order, to the row's values by position. */
  lemma DecodedRecords(a: Answer)
    requires a.Rows?
    requires Distinct(a.columns)
    requires forall k :: 0 <= k < |a.rows| ==> |a.rows[k]| == |a.columns|
    ensures Decode(a).Ok? && |Decode(a).value| == |a.rows|
    ensures forall k :: 0 <= k < |a.rows| ==>
      Keys(Decode(a).value[k]) == a.columns
      && forall j :: 0 <= j < |a.columns| ==> Decode(a).value[k][j] == (a.columns[j], a.rows[k][j])
  {
    forall k | 0 <= k < |a.rows|
      ensures Keys(Decode(a).value[k]) == a.columns
      ensures forall j :: 0 <= j < |a.columns| ==> Decode(a).value[k][j] == (a.columns[j], a.rows[k][j])
    {
      ZipDictDistinct(a.columns, a.rows[k]);
    }
  }
}

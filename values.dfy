/** Dynamically typed values as the backend handles them: JSON payloads from the
    agent, decoded token claims and rows fetched from the data store. A Python
    dict is an ordered sequence of key/value entries, because insertion order is
    visible (column order of a record, the rendering of a dict with str()). */
module Values {

  datatype Option<T> = None | Some(value: T)

  /** The exceptions and error values the core raises or returns. */
  datatype Error =
    | KeyError(key: string)                     // d[k] on a dict without k
    | QueryError(cause: string)                 // the store rejected the main statement
    | ValueError(message: string)
    | RuntimeError(message: string)
    | HttpError(status: int, detail: string)    // FastAPI's HTTPException

  datatype Result<T> = Ok(value: T) | Err(error: Error)

  datatype Value =
    | Null                                      // None / JSON null
    | Bool(b: bool)
    | Int(i: int)
    | Str(s: string)
    | Scalar(shown: string, written: string, truthy: bool)  // any other scalar (date, Decimal, float): its str(), its repr() and truth value
    | List(items: seq<Value>)
    | Dict(entries: seq<(string, Value)>)

  /** A dict, keys in insertion order. A record fetched from the store is one. */
  type Entries = seq<(string, Value)>

  function Keys(d: Entries): seq<string> {
    seq(|d|, i requires 0 <= i < |d| => d[i].0)
  }

  /** k in d */
  predicate HasKey(d: Entries, k: string) {
    d != [] && (d[0].0 == k || HasKey(d[1..], k))
  }

  lemma {:induction false} HasKeyAppend(d: Entries, e: (string, Value), k: string)
    ensures HasKey(d + [e], k) <==> HasKey(d, k) || e.0 == k
  {
    if d != [] {
      assert (d + [e])[1..] == d[1..] + [e];
      HasKeyAppend(d[1..], e, k);
    }
  }

  /** No key occurs twice: every dict built by Python has this shape. */
  predicate UniqueKeys(d: Entries) {
    Distinct(Keys(d))
  }

  /** d.get(k): the value stored under k, if any. */
  function Get(d: Entries, k: string): (r: Option<Value>)
    ensures r.Some? <==> HasKey(d, k)
  {
    if d == [] then None
    else if d[0].0 == k then Some(d[0].1)
    else Get(d[1..], k)
  }

  /** In a dict without repeated keys, each entry is found by its key. */
  lemma {:induction false} GetEntry(d: Entries, i: nat)
    requires UniqueKeys(d) && i < |d|
    ensures Get(d, d[i].0) == Some(d[i].1)
  {
    if i > 0 {
      assert Keys(d)[0] != Keys(d)[i];
      assert UniqueKeys(d[1..]) by {
        forall a, b | 0 <= a < b < |d[1..]| ensures Keys(d[1..])[a] != Keys(d[1..])[b] {
          assert Keys(d[1..])[a] == Keys(d)[a + 1] && Keys(d[1..])[b] == Keys(d)[b + 1];
        }
      }
      GetEntry(d[1..], i - 1);
    }
  }

  /** d.get(k, default) */
  function GetOr(d: Entries, k: string, default: Value): Value {
    match Get(d, k)
    case Some(v) => v
    case None => default
  }

  /** d[k] = v: an existing key keeps its position and takes the new value,
      a new key goes to the end. */
  function Insert(d: Entries, k: string, v: Value): (r: Entries)
    ensures Get(r, k) == Some(v)
    ensures forall k' :: k' != k ==> Get(r, k') == Get(d, k')
    ensures !HasKey(d, k) ==> r == d + [(k, v)]
  {
    if d == [] then [(k, v)]
    else if d[0].0 == k then [(k, v)] + d[1..]
    else [d[0]] + Insert(d[1..], k, v)
  }

  /** The dict with key k taken out (what d.pop(k) leaves behind). */
  function Remove(d: Entries, k: string): (r: Entries)
    ensures !HasKey(r, k)
    ensures forall k' :: k' != k ==> Get(r, k') == Get(d, k')
    ensures !HasKey(d, k) ==> r == d
  {
    if d == [] then []
    else if d[0].0 == k then Remove(d[1..], k)
    else [d[0]] + Remove(d[1..], k)
  }

  /** dict(zip(cols, vals)): pairs up to the shorter sequence; a repeated
      column keeps its first position and takes its last value. */
  function ZipDict(cols: seq<string>, vals: seq<Value>): Entries {
    ZipInto([], cols, vals)
  }

  function ZipInto(acc: Entries, cols: seq<string>, vals: seq<Value>): Entries
    decreases |cols|
  {
    if cols == [] || vals == [] then acc
    else ZipInto(Insert(acc, cols[0], vals[0]), cols[1..], vals[1..])
  }

  /** The column/value pairs in order, as `zip` yields them. */
  function Pairs(cols: seq<string>, vals: seq<Value>): (ps: Entries)
    requires |vals| == |cols|
    ensures |ps| == |cols|
  {
    if cols == [] then [] else [(cols[0], vals[0])] + Pairs(cols[1..], vals[1..])
  }

  lemma {:induction false} PairsAt(cols: seq<string>, vals: seq<Value>, i: nat)
    requires |vals| == |cols| && i < |cols|
    ensures Pairs(cols, vals)[i] == (cols[i], vals[i])
  {
    if i > 0 {
      PairsAt(cols[1..], vals[1..], i - 1);
    }
  }

  /** A record over distinct column names maps the i-th column to the i-th
      value, in column order. */
  lemma ZipDictDistinct(cols: seq<string>, vals: seq<Value>)
    requires |vals| == |cols|
    requires Distinct(cols)
    ensures |ZipDict(cols, vals)| == |cols|
    ensures forall i :: 0 <= i < |cols| ==> ZipDict(cols, vals)[i] == (cols[i], vals[i])
    ensures Keys(ZipDict(cols, vals)) == cols
  {
    assert FreshFor([], cols);
    ZipIntoDistinct([], cols, vals);
    assert [] + Pairs(cols, vals) == Pairs(cols, vals);
    forall i | 0 <= i < |cols| ensures ZipDict(cols, vals)[i] == (cols[i], vals[i]) {
      PairsAt(cols, vals, i);
    }
  }

  predicate Distinct(cols: seq<string>) {
    forall i, j :: 0 <= i < j < |cols| ==> cols[i] != cols[j]
  }

  /** None of `cols` is a key of `acc`. */
  predicate FreshFor(acc: Entries, cols: seq<string>) {
    forall i :: 0 <= i < |cols| ==> !HasKey(acc, cols[i])
  }

  lemma {:induction false} ZipIntoDistinct(acc: Entries, cols: seq<string>, vals: seq<Value>)
    requires |vals| == |cols| && Distinct(cols) && FreshFor(acc, cols)
    ensures ZipInto(acc, cols, vals) == acc + Pairs(cols, vals)
    decreases |cols|
  {
    if cols == [] {
      assert acc + [] == acc;
    } else {
      var e := (cols[0], vals[0]);
      ZipStep(acc, cols, vals);
      ZipIntoDistinct(acc + [e], cols[1..], vals[1..]);
      PairsCons(acc, cols, vals);
    }
  }

  lemma PairsCons(acc: Entries, cols: seq<string>, vals: seq<Value>)
    requires |vals| == |cols| > 0
    ensures acc + Pairs(cols, vals) == (acc + [(cols[0], vals[0])]) + Pairs(cols[1..], vals[1..])
  {
  }

  /** Inserting the first column keeps the remaining columns fresh. */
  lemma ZipStep(acc: Entries, cols: seq<string>, vals: seq<Value>)
    requires |vals| == |cols| > 0 && Distinct(cols) && FreshFor(acc, cols)
    ensures ZipInto(acc, cols, vals) == ZipInto(acc + [(cols[0], vals[0])], cols[1..], vals[1..])
    ensures Distinct(cols[1..]) && FreshFor(acc + [(cols[0], vals[0])], cols[1..])
  {
    var e := (cols[0], vals[0]);
    assert !HasKey(acc, cols[0]);
    var cs := cols[1..];
    forall i | 0 <= i < |cs|
      ensures !HasKey(acc + [e], cs[i])
    {
      assert cs[i] == cols[i + 1];
      assert cols[0] != cols[i + 1];
      assert !HasKey(acc, cols[i + 1]);
      HasKeyAppend(acc, e, cols[i + 1]);
    }
    forall i, j | 0 <= i < j < |cs| ensures cs[i] != cs[j] {
      assert cs[i] == cols[i + 1] && cs[j] == cols[j + 1];
    }
  }

  /** Python truthiness: None, False, 0, "", [] and {} are false. */
  predicate Truthy(v: Value) {
    match v
    case Null => false
    case Bool(b) => b
    case Int(i) => i != 0
    case Str(s) => s != ""
    case Scalar(_, _, t) => t
    case List(xs) => xs != []
    case Dict(es) => es != []
  }

  /** The falsy values are exactly None, False, 0, "", [], {} and the falsy
      scalars. */
  lemma FalsyValues(v: Value)
    ensures !Truthy(v) <==>
      v == Null || v == Bool(false) || v == Int(0) || v == Str("") || v == List([]) || v == Dict([])
      || (v.Scalar? && !v.truthy)
  {
  }

  function DigitChar(d: nat): char
    requires d < 10
  {
    "0123456789"[d]
  }

  function NatToString(n: nat): (s: string)
    ensures s != []
    ensures forall i :: 0 <= i < |s| ==> '0' <= s[i] <= '9'
    decreases n
  {
    if n < 10 then [DigitChar(n)] else NatToString(n / 10) + [DigitChar(n % 10)]
  }

  /** str(i) for an int. */
  function IntToString(i: int): string {
    if i < 0 then "-" + NatToString(-i) else NatToString(i)
  }

  /** str(v), as f-strings render a value. */
  function ToStr(v: Value): string {
    match v
    case Str(s) => s
    case Scalar(shown, _, _) => shown
    case _ => Repr(v)
  }

  /** str() leaves a string as it is, shows another scalar in its own str()
      form and renders None, bools, ints, lists and dicts as their repr();
      the two renderings differ exactly on strings, which repr() quotes, and
      on scalars whose repr() is not their str() (a date, a Decimal). */
  lemma StrVersusRepr(v: Value)
    ensures v.Str? ==> ToStr(v) == v.s && Repr(v) == "'" + ToStr(v) + "'"
    ensures v.Scalar? ==> ToStr(v) == v.shown && Repr(v) == v.written
    ensures ToStr(v) == Repr(v) <==> !v.Str? && !(v.Scalar? && v.shown != v.written)
  {
    if v.Str? {
      assert |Repr(v)| == |ToStr(v)| + 2;
    }
  }

  /** repr(v); string quoting is the plain single-quote form. */
  function Repr(v: Value): string
    decreases v, 1
  {
    match v
    case Null => "None"
    case Bool(b) => if b then "True" else "False"
    case Int(i) => IntToString(i)
    case Str(s) => "'" + s + "'"
    case Scalar(_, written, _) => written
    case List(xs) => "[" + ReprItems(v, xs) + "]"
    case Dict(es) => "{" + ReprEntries(v, es) + "}"
  }

  /** Inside a list, str() shows an element by its repr(): a date in a list
      reads as `datetime.date(...)`, not as its str(). */
  lemma ListShowsElementRepr(x: Value)
    ensures ToStr(List([x])) == "[" + Repr(x) + "]"
  {
    assert ReprItems(List([x]), [x]) == Repr(x);
  }

  function ReprItems(ghost parent: Value, xs: seq<Value>): string
    requires forall x :: x in xs ==> x < parent
    decreases parent, 0, |xs|
  {
    if xs == [] then ""
    else
      assert xs[0] in xs;
      if |xs| == 1 then Repr(xs[0])
      else
        assert forall x :: x in xs[1..] ==> x in xs;
        Repr(xs[0]) + ", " + ReprItems(parent, xs[1..])
  }

  function ReprEntries(ghost parent: Value, es: Entries): string
    requires forall e :: e in es ==> e.1 < parent
    decreases parent, 0, |es|
  {
    if es == [] then ""
    else
      assert es[0] in es;
      if |es| == 1 then "'" + es[0].0 + "': " + Repr(es[0].1)
      else
        assert forall e :: e in es[1..] ==> e in es;
        "'" + es[0].0 + "': " + Repr(es[0].1) + ", " + ReprEntries(parent, es[1..])
  }
}

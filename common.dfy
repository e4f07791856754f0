/** Shared vocabulary of the model: optional values, results, the Python values
    that travel through records, rows and call arguments, the exceptions the
    source raises, and the few string operations the source relies on. */
module Common {

  datatype Option<+T> = None | Some(value: T) {
    function GetOr(default: T): T {
      match this
      case Some(v) => v
      case None => default
    }
  }

  datatype Result<+T, +E> = Ok(value: T) | Err(error: E)

  /** A Python value as stored in a record, a row or an argument list.
      Floats are kept opaque, by their printed text; any other object is
      kept by its `str()`. */
  datatype Value =
    | VNone
    | VBool(b: bool)
    | VInt(i: int)
    | VFloat(text: string)
    | VStr(s: string)
    | VOther(repr: string)

  /** The Python exception classes the modelled code raises. */
  datatype Failure =
    | TypeError(message: string)
    | ValueError(message: string)
    | AttributeError(message: string)
    | NameError(message: string)
    | DBError(message: string)
    | DriverError(message: string)

  /** `sep.join(parts)` */
  function Join(parts: seq<string>, sep: string): string
  {
    if |parts| == 0 then ""
    else if |parts| == 1 then parts[0]
    else parts[0] + sep + Join(parts[1..], sep)
  }

  /** Number of occurrences of `c` in `s`. */
  function Count(s: string, c: char): nat
  {
    if |s| == 0 then 0 else (if s[0] == c then 1 else 0) + Count(s[1..], c)
  }

  lemma {:induction false} CountAppend(a: string, b: string, c: char)
    ensures Count(a + b, c) == Count(a, c) + Count(b, c)
  {
    if |a| == 0 {
      assert a + b == b;
    } else {
      assert (a + b)[1..] == a[1..] + b;
      CountAppend(a[1..], b, c);
    }
  }

  /** Joining with a separator free of `c` adds no occurrence of `c`. */
  lemma {:induction false} CountJoin(parts: seq<string>, sep: string, c: char)
    requires Count(sep, c) == 0
    ensures Count(Join(parts, sep), c) == SumCounts(parts, c)
  {
    if |parts| == 1 {
      assert parts[1..] == [];
    } else if |parts| > 1 {
      CountJoin(parts[1..], sep, c);
      CountAppend(parts[0] + sep, Join(parts[1..], sep), c);
      CountAppend(parts[0], sep, c);
    }
  }

  function SumCounts(parts: seq<string>, c: char): nat
  {
    if |parts| == 0 then 0 else Count(parts[0], c) + SumCounts(parts[1..], c)
  }

  predicate StartsWith(s: string, prefix: string)
  {
    |prefix| <= |s| && s[..|prefix|] == prefix
  }

  /** `str.lower()` on the ASCII letters; other characters are unchanged. */
  function Lower(s: string): (r: string)
    ensures |r| == |s|
    ensures forall i :: 0 <= i < |s| ==> !('A' <= r[i] <= 'Z')
    ensures forall i :: 0 <= i < |s| && !('A' <= s[i] <= 'Z') ==> r[i] == s[i]
  {
    if |s| == 0 then ""
    else [LowerChar(s[0])] + Lower(s[1..])
  }

  function LowerChar(c: char): char
  {
    if 'A' <= c <= 'Z' then (c as int - 'A' as int + 'a' as int) as char else c
  }

  function Digit(d: nat): char
    requires d < 10
  {
    "0123456789"[d]
  }

  /** The decimal text of a natural number, as `'%s' % n` prints it. */
  function Decimal(n: nat): (r: string)
    ensures |r| > 0
    ensures forall i :: 0 <= i < |r| ==> '0' <= r[i] <= '9'
    ensures |r| > 1 ==> r[0] != '0'
  {
    if n < 10 then [Digit(n)] else Decimal(n / 10) + [Digit(n % 10)]
  }

  function IntText(i: int): string
  {
    if i < 0 then "-" + Decimal(-i) else Decimal(i)
  }

  /** `str(v)` */
  function Str(v: Value): string
  {
    match v
    case VNone => "None"
    case VBool(b) => if b then "True" else "False"
    case VInt(i) => IntText(i)
    case VFloat(t) => t
    case VStr(s) => s
    case VOther(r) => r
  }

  /** Python truthiness of a value. */
  predicate Truthy(v: Value)
  {
    match v
    case VNone => false
    case VBool(b) => b
    case VInt(i) => i != 0
    case VFloat(t) => true
    case VStr(s) => s != ""
    case VOther(_) => true
  }

  /** The values of a dictionary read in the key order `cols`. */
  function ValuesAt<V>(cols: seq<string>, m: map<string, V>): (r: seq<V>)
    requires forall i :: 0 <= i < |cols| ==> cols[i] in m
    ensures |r| == |cols| && forall i :: 0 <= i < |cols| ==> r[i] == m[cols[i]]
  {
    seq(|cols|, i requires 0 <= i < |cols| => m[cols[i]])
  }

  /** `cols` lists every key of a dictionary exactly once: one of the orders
      in which Python may iterate it. */
  ghost predicate KeyOrder<V>(cols: seq<string>, m: map<string, V>)
  {
    && (forall i, j :: 0 <= i < j < |cols| ==> cols[i] != cols[j])
    && (forall i :: 0 <= i < |cols| ==> cols[i] in m)
    && (forall k :: k in m ==> k in cols)
  }

  /** Python's iteration over a dictionary's keys: every key once, in an
      order the language leaves unspecified. */
  method IterationOrder<V>(m: map<string, V>) returns (cols: seq<string>)
    ensures KeyOrder(cols, m)
    ensures |cols| == |m|
  {
    cols := [];
    var rest := m.Keys;
    while rest != {}
      invariant rest <= m.Keys
      invariant forall i, j :: 0 <= i < j < |cols| ==> cols[i] != cols[j]
      invariant forall i :: 0 <= i < |cols| ==> cols[i] in m && cols[i] !in rest
      invariant forall k :: k in m ==> k in cols || k in rest
      invariant |cols| + |rest| == |m|
      decreases rest
    {
      var k :| k in rest;
      cols := cols + [k];
      rest := rest - {k};
    }
  }
}

/** The parts of Python's semantics the pipeline relies on: the exceptions it
    raises, the dynamically typed values that reach it, `int()`, `str()`,
    `str.isdigit`, `str.split(sep)`, `str.join`, ASCII `lower`/`upper`,
    slicing with clipping, floor division and insertion-ordered dicts. */
module Py {

  /** The exceptions the core raises, as values. */
  datatype Error =
    | AssertionError(msg: string)
      // an `assert` whose message joins a set of keys in the set's (unspecified) order
    | InvalidParameters(keys: set<string>)
    | ValueError(msg: string)
    | AttributeError(typeName: string, attr: string)
    | ZeroDivisionError
    | TypeError(msg: string)
      // raised by a collaborator outside the core (the SQL engine, the query builder)
    | External(msg: string)

  datatype Result<+T> = Ok(value: T) | Err(error: Error) {
    predicate IsFailure() { Err? }
    function PropagateFailure<U>(): Result<U> requires Err? { Err(error) }
    function Extract(): T requires Ok? { value }
  }

  datatype Option<+T> = None | Some(value: T)

  /** A dynamically typed value as it reaches the pipeline: query-string values
      are strings; defaults, keyword arguments and JSON bodies may carry
      booleans and integers. */
  datatype Raw = Str(s: string) | Bool(b: bool) | Int(i: int)

  function TypeName(v: Raw): string {
    match v
    case Str(_) => "str"
    case Bool(_) => "bool"
    case Int(_) => "int"
  }

  // ---------------------------------------------------------------------
  // Digits and decimal text (ASCII only: `str.isdigit` is modelled on '0'..'9')

  predicate IsDigit(c: char) { '0' <= c <= '9' }

  predicate AllDigits(s: string) { forall i :: 0 <= i < |s| ==> IsDigit(s[i]) }

  /** `s.isdigit()`: non-empty and made of digits. */
  predicate IsDigits(s: string) { |s| > 0 && AllDigits(s) }

  function DigitChar(d: nat): (c: char)
    requires d < 10
    ensures IsDigit(c)
  {
    ('0' as int + d) as char
  }

  /** The value of a string of digits, read most significant digit first. */
  function DigitsValue(s: string): nat
    requires AllDigits(s)
    decreases |s|
  {
    if s == [] then 0
    else DigitsValue(s[..|s| - 1]) * 10 + (s[|s| - 1] as int - '0' as int)
  }

  /** `str(n)` for a non-negative integer: canonical decimal, no leading zero. */
  function NatToString(n: nat): (r: string)
    ensures IsDigits(r) && DigitsValue(r) == n
    ensures r[0] == '0' ==> r == "0"
    decreases n
  {
    if n < 10 then [DigitChar(n)]
    else
      var init := NatToString(n / 10);
      var r := init + [DigitChar(n % 10)];
      assert r[..|r| - 1] == init;
      r
  }

  /** `str(i)` for an integer. */
  function IntToString(i: int): string {
    if i < 0 then "-" + NatToString(-i) else NatToString(i)
  }

  /** `int(s)` for a string: an optional sign followed by ASCII digits.
      Python also admits surrounding whitespace and `_` separators; those are
      not part of this model. */
  function ParseInt(s: string): Option<int> {
    if |s| > 0 && (s[0] == '-' || s[0] == '+') then
      if IsDigits(s[1..]) then
        var v: int := DigitsValue(s[1..]);
        Some(if s[0] == '-' then -v else v)
      else None
    else if IsDigits(s) then Some(DigitsValue(s))
    else None
  }

  /** `int(str(i)) == i`. */
  lemma ParseIntOfIntToString(i: int)
    ensures ParseInt(IntToString(i)) == Some(i)
  {
    if i < 0 {
      var t := NatToString(-i);
      assert IntToString(i)[1..] == t;
    } else {
      var t := NatToString(i);
      assert IsDigit(t[0]);
    }
  }

  /** `str(v)`. */
  function PyStr(v: Raw): string {
    match v
    case Str(s) => s
    case Bool(b) => if b then "True" else "False"
    case Int(i) => IntToString(i)
  }

  // ---------------------------------------------------------------------
  // Case mapping (ASCII letters only; Unicode case rules are not modelled)

  predicate IsUpperAscii(c: char) { 'A' <= c <= 'Z' }
  predicate IsLowerAscii(c: char) { 'a' <= c <= 'z' }

  function LowerChar(c: char): char {
    if IsUpperAscii(c) then (c as int + 32) as char else c
  }

  function UpperChar(c: char): char {
    if IsLowerAscii(c) then (c as int - 32) as char else c
  }

  /** `s.lower()`: the string of the same length with every ASCII capital
      replaced by its small letter. */
  function Lower(s: string): (r: string)
    ensures |r| == |s|
    ensures forall i :: 0 <= i < |r| ==> !IsUpperAscii(r[i])
    ensures forall i :: 0 <= i < |r| ==> UpperChar(r[i]) == UpperChar(s[i])
  {
    seq(|s|, i requires 0 <= i < |s| => LowerChar(s[i]))
  }

  /** `s.upper()`: the string of the same length with every ASCII small letter
      replaced by its capital. */
  function Upper(s: string): (r: string)
    ensures |r| == |s|
    ensures forall i :: 0 <= i < |r| ==> !IsLowerAscii(r[i])
    ensures forall i :: 0 <= i < |r| ==> LowerChar(r[i]) == LowerChar(s[i])
  {
    seq(|s|, i requires 0 <= i < |s| => UpperChar(s[i]))
  }

  // ---------------------------------------------------------------------
  // Counting, joining and splitting

  /** The number of occurrences of `c` in `s`. */
  function Occurrences(s: string, c: char): nat {
    if s == [] then 0 else (if s[0] == c then 1 else 0) + Occurrences(s[1..], c)
  }

  lemma {:induction false} OccurrencesConcat(a: string, b: string, c: char)
    ensures Occurrences(a + b, c) == Occurrences(a, c) + Occurrences(b, c)
    decreases |a|
  {
    if a == [] {
      assert a + b == b;
    } else {
      assert (a + b)[1..] == a[1..] + b;
      OccurrencesConcat(a[1..], b, c);
    }
  }

  lemma {:induction false} OccurrencesAbsent(s: string, c: char)
    requires c !in s
    ensures Occurrences(s, c) == 0
    decreases |s|
  {
    if s != [] {
      assert c !in s[1..] by {
        forall k | 0 <= k < |s[1..]| ensures s[1..][k] != c { assert s[1..][k] == s[k + 1]; }
      }
      OccurrencesAbsent(s[1..], c);
    }
  }

  /** `sep.join(ts)`. */
  function JoinWith(ts: seq<string>, sep: string): string
    decreases |ts|
  {
    if |ts| == 0 then ""
    else if |ts| == 1 then ts[0]
    else ts[0] + sep + JoinWith(ts[1..], sep)
  }

  /** `s.split(sep)` for a one-character separator: the pieces between the
      separators, empty pieces included, at least one piece. */
  function Split(s: string, sep: char): (r: seq<string>)
    ensures |r| >= 1
    ensures forall k :: 0 <= k < |r| ==> sep !in r[k]
    ensures JoinWith(r, [sep]) == s
    decreases |s|
  {
    if s == [] then [""]
    else if s[0] == sep then
      var rest := Split(s[1..], sep);
      assert JoinWith([""] + rest, [sep]) == "" + [sep] + JoinWith(rest, [sep]);
      [""] + rest
    else
      var rest := Split(s[1..], sep);
      var r := [[s[0]] + rest[0]] + rest[1..];
      assert sep !in r[0];
      assert |rest| > 1 ==> JoinWith(rest, [sep]) == rest[0] + [sep] + JoinWith(rest[1..], [sep]);
      assert |r| > 1 ==> JoinWith(r, [sep]) == r[0] + [sep] + JoinWith(r[1..], [sep]);
      assert r[1..] == rest[1..];
      r
  }

  lemma {:induction false} SplitPrefix(w: string, rest: string, sep: char)
    requires sep !in w
    ensures Split(w + [sep] + rest, sep) == [w] + Split(rest, sep)
    decreases |w|
  {
    var s := w + [sep] + rest;
    if w == [] {
      assert s[0] == sep && s[1..] == rest;
    } else {
      assert s[0] == w[0] && s[0] != sep;
      assert s[1..] == w[1..] + [sep] + rest;
      assert sep !in w[1..] by {
        forall k | 0 <= k < |w[1..]| ensures w[1..][k] != sep { assert w[1..][k] == w[k + 1]; }
      }
      SplitPrefix(w[1..], rest, sep);
      assert [w[0]] + w[1..] == w;
    }
  }

  lemma {:induction false} SplitWhole(w: string, sep: char)
    requires sep !in w
    ensures Split(w, sep) == [w]
    decreases |w|
  {
    if w != [] {
      assert sep !in w[1..] by {
        forall k | 0 <= k < |w[1..]| ensures w[1..][k] != sep { assert w[1..][k] == w[k + 1]; }
      }
      SplitWhole(w[1..], sep);
      assert [w[0]] + w[1..] == w;
    }
  }

  /** Splitting a join of separator-free pieces gives the pieces back. */
  lemma {:induction false} SplitOfJoin(ts: seq<string>, sep: char)
    requires |ts| >= 1
    requires forall k :: 0 <= k < |ts| ==> sep !in ts[k]
    ensures Split(JoinWith(ts, [sep]), sep) == ts
    decreases |ts|
  {
    if |ts| == 1 {
      SplitWhole(ts[0], sep);
    } else {
      SplitOfJoin(ts[1..], sep);
      SplitPrefix(ts[0], JoinWith(ts[1..], [sep]), sep);
      assert [ts[0]] + ts[1..] == ts;
    }
  }

  // ---------------------------------------------------------------------
  // Slicing and floor division

  /** A slice bound as Python normalises it for a sequence of length `n`:
      negative bounds count from the end, and the result is clipped to 0..n. */
  function SliceBound(i: int, n: nat): (r: nat)
    ensures r <= n
    ensures 0 <= i <= n ==> r == i
    ensures i > n ==> r == n
  {
    if i < 0 then (if i + n < 0 then 0 else i + n)
    else if i > n then n
    else i
  }

  /** `s[i:j]` with Python's clipping: never an error, possibly empty. */
  function PySlice<T>(s: seq<T>, i: int, j: int): seq<T> {
    var a := SliceBound(i, |s|);
    var b := SliceBound(j, |s|);
    if a < b then s[a..b] else []
  }

  /** `a // b`: the quotient rounded towards negative infinity, so the
      remainder `a - b * q` has the sign of `b` and is smaller than `b` in
      magnitude. */
  function FloorDiv(a: int, b: int): (q: int)
    requires b != 0
    ensures b > 0 ==> b * q <= a < b * q + b
    ensures b < 0 ==> b * q + b < a <= b * q
  {
    if b > 0 then a / b else (-a) / (-b)
  }

  // ---------------------------------------------------------------------
  // Dicts: insertion-ordered association lists with distinct keys

  type Dict = seq<(string, Raw)>

  function Keys(d: Dict): seq<string> {
    seq(|d|, i requires 0 <= i < |d| => d[i].0)
  }

  function KeySet(d: Dict): set<string> {
    set i | 0 <= i < |d| :: d[i].0
  }

  lemma KeySetCons(x: (string, Raw), d: Dict)
    ensures KeySet([x] + d) == {x.0} + KeySet(d)
  {
    var r := [x] + d;
    forall y | y in KeySet(r) ensures y in {x.0} + KeySet(d) {
      var i :| 0 <= i < |r| && r[i].0 == y;
      if i > 0 { assert r[i] == d[i - 1]; assert y in KeySet(d); }
    }
    forall y | y in KeySet(d) ensures y in KeySet(r) {
      var i :| 0 <= i < |d| && d[i].0 == y;
      assert r[i + 1] == d[i];
    }
    assert r[0] == x;
  }

  predicate DistinctKeys(d: Dict) {
    forall i, j :: 0 <= i < j < |d| ==> d[i].0 != d[j].0
  }

  /** `d.get(k)`. */
  function Get(d: Dict, k: string): (r: Option<Raw>)
    ensures r.Some? <==> k in KeySet(d)
    decreases |d|
  {
    if d == [] then None
    else if d[0].0 == k then Some(d[0].1)
    else
      KeySetCons(d[0], d[1..]);
      assert [d[0]] + d[1..] == d;
      Get(d[1..], k)
  }

  /** `d[k] = v`: an existing key keeps its position and takes the new value;
      a new key is appended. */
  function SetItem(d: Dict, k: string, v: Raw): Dict
    decreases |d|
  {
    if d == [] then [(k, v)]
    else if d[0].0 == k then [(k, v)] + d[1..]
    else [d[0]] + SetItem(d[1..], k, v)
  }

  /** `d.update(e)`: the items of `e` are assigned one after the other. */
  function Update(d: Dict, e: Dict): Dict
    decreases |e|
  {
    if e == [] then d else Update(SetItem(d, e[0].0, e[0].1), e[1..])
  }

  /** `del d[k]` when present; `d` unchanged otherwise. */
  function Remove(d: Dict, k: string): Dict
    decreases |d|
  {
    if d == [] then []
    else if d[0].0 == k then Remove(d[1..], k)
    else [d[0]] + Remove(d[1..], k)
  }

  /** The value `d.pop(k, default)` returns. */
  function PopValue(d: Dict, k: string, default: Raw): Raw {
    match Get(d, k)
    case Some(v) => v
    case None => default
  }

  lemma {:induction false} GetSetItem(d: Dict, k: string, v: Raw, x: string)
    ensures Get(SetItem(d, k, v), x) == if x == k then Some(v) else Get(d, x)
    decreases |d|
  {
    if d != [] && d[0].0 != k {
      GetSetItem(d[1..], k, v, x);
    }
  }

  lemma {:induction false} KeySetSetItem(d: Dict, k: string, v: Raw)
    ensures KeySet(SetItem(d, k, v)) == KeySet(d) + {k}
  {
    forall x ensures x in KeySet(SetItem(d, k, v)) <==> x in KeySet(d) + {k} {
      GetSetItem(d, k, v, x);
    }
  }

  /** After `d.update(e)`, a key of `e` maps to its value in `e` and every
      other key keeps its value in `d`: the second dict wins. */
  lemma {:induction false} GetUpdate(d: Dict, e: Dict, x: string)
    requires DistinctKeys(e)
    ensures Get(Update(d, e), x) == if x in KeySet(e) then Get(e, x) else Get(d, x)
    decreases |e|
  {
    if e != [] {
      var d' := SetItem(d, e[0].0, e[0].1);
      var e' := e[1..];
      assert DistinctKeys(e');
      GetUpdate(d', e', x);
      GetSetItem(d, e[0].0, e[0].1, x);
      KeySetCons(e[0], e');
      assert [e[0]] + e' == e;
      if x == e[0].0 {
        forall i | 0 <= i < |e'| ensures e'[i].0 != x { assert e'[i] == e[i + 1]; }
      }
    }
  }

  lemma {:induction false} KeySetUpdate(d: Dict, e: Dict)
    ensures KeySet(Update(d, e)) == KeySet(d) + KeySet(e)
    decreases |e|
  {
    if e != [] {
      var e' := e[1..];
      KeySetSetItem(d, e[0].0, e[0].1);
      KeySetUpdate(SetItem(d, e[0].0, e[0].1), e');
      KeySetCons(e[0], e');
      assert [e[0]] + e' == e;
    }
  }

  lemma {:induction false} KeySetRemove(d: Dict, k: string)
    ensures KeySet(Remove(d, k)) == KeySet(d) - {k}
    decreases |d|
  {
    if d != [] {
      KeySetRemove(d[1..], k);
      KeySetCons(d[0], d[1..]);
      assert [d[0]] + d[1..] == d;
      if d[0].0 != k {
        KeySetCons(d[0], Remove(d[1..], k));
      }
    }
  }

  /** After `del d[k]`, looking up `k` finds nothing and every other key
      finds what it found before. */
  lemma {:induction false} GetRemove(d: Dict, k: string, x: string)
    ensures Get(Remove(d, k), x) == if x == k then None else Get(d, x)
    decreases |d|
  {
    if d != [] {
      GetRemove(d[1..], k, x);
      if d[0].0 != k {
        assert ([d[0]] + Remove(d[1..], k))[1..] == Remove(d[1..], k);
      }
    }
  }
}

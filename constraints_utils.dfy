/** Value coercers and the two SQL fragment generators that depend on the
    value: the organism subquery and the CATH / Enzyme classification
    subquery with one equality test per retained code component. */
module ConstraintsUtils {
  import opened Py

  /** `float(x)`: floating point is not modelled, so a parsed float is kept
      as the value it was parsed from. */
  datatype FloatValue = FloatOf(source: Raw)

  /** A coerced parameter value, as the coercers return it. */
  datatype Coerced =
    | CStr(s: string)
    | CInt(i: int)
    | CBool(b: bool)
    | CFloat(f: FloatValue)
    | CList(xs: seq<nat>)

  // ---------------------------------------------------------------------
  // The organism subquery

  const OrgText1 := "\n    entry.organismId IN ("
  const OrgText2 := "\n        SELECT  "
  const OrgText3 := "organism.organismId"
  const OrgText4 := "\n        FROM    organism"
  const OrgText5 := "\n        WHERE   "
  const OrgText6 := "organism.taxonomy LIKE "
  const OrgText7 := "\n    )"

  /** The subquery text before its placeholder. */
  const OrgHead := OrgText1 + OrgText2 + OrgText3 + OrgText4 + OrgText5 + OrgText6

  /** `organism_constraint`: it ignores its argument; the organism's name is
      bound to the single placeholder. */
  function OrganismConstraint(arg: Coerced): (r: string)
    ensures Occurrences(r, '?') == 1
    ensures r == OrgHead + "?" + OrgText7
  {
    assert '?' !in OrgText1 && '?' !in OrgText2 && '?' !in OrgText3;
    assert '?' !in OrgText4 && '?' !in OrgText5 && '?' !in OrgText6;
    assert '?' !in OrgText7;
    OnePlaceholder(OrgHead, OrgText7);
    OrgHead + "?" + OrgText7
  }

  /** Text with a single `?` between two placeholder-free parts. */
  lemma OnePlaceholder(head: string, tail: string)
    requires '?' !in head && '?' !in tail
    ensures Occurrences(head + "?" + tail, '?') == 1
  {
    OccurrencesAbsent(head, '?');
    OccurrencesAbsent(tail, '?');
    OccurrencesConcat(head, "?", '?');
    OccurrencesConcat(head + "?", tail, '?');
  }

  // ---------------------------------------------------------------------
  // CATH / Enzyme codes

  const CathEnzymeError := "CATH/Enzyme class must be in format: 1.2.3.4 or 1.2.*.*"

  /** The number of `*` tokens. */
  function WildcardCount(ts: seq<string>): (n: nat)
    ensures n <= |ts|
  {
    if ts == [] then 0 else (if ts[0] == "*" then 1 else 0) + WildcardCount(ts[1..])
  }

  /** The first `k` tokens are digit strings and the rest are `*`. */
  predicate ConcreteThenWildcards(ts: seq<string>, k: nat) {
    k <= |ts| &&
    (forall i :: 0 <= i < k ==> IsDigits(ts[i])) &&
    (forall i :: k <= i < |ts| ==> ts[i] == "*")
  }

  /** A well-formed code, stated independently of the checks the parser
      makes: one to four components, concrete digit strings followed by a
      contiguous run of wildcards, and that run is non-empty unless all four
      components are given. */
  ghost predicate WellFormedCode(ts: seq<string>) {
    1 <= |ts| <= 4 &&
    exists k :: 0 <= k <= |ts| && ConcreteThenWildcards(ts, k) && (|ts| == 4 || k < |ts|)
  }

  /** `[x for x in xs if x is not None]`. */
  function Present(opts: seq<Option<nat>>): seq<nat> {
    if opts == [] then []
    else (if opts[0].Some? then [opts[0].value] else []) + Present(opts[1..])
  }

  /** The leading components as integers. */
  function LeadingValues(ts: seq<string>, k: nat): (r: seq<nat>)
    requires ConcreteThenWildcards(ts, k)
    ensures |r| == k
  {
    seq(k, i requires 0 <= i < k => DigitsValue(ts[i]))
  }

  /** `class_param`: validates a CATH / Enzyme code and returns the integer
      values of its concrete components, wildcards removed. Every rejected
      string gets the same message; a value that is not a string has no
      `split`. */
  function ClassParam(arg: Raw): (r: Result<seq<nat>>)
    ensures arg.Str? ==> (r.Ok? <==> WellFormedCode(Split(arg.s, '.')))
    ensures r.Ok? ==>
      arg.Str? &&
      (var ts := Split(arg.s, '.');
       var k := |ts| - WildcardCount(ts);
       ConcreteThenWildcards(ts, k) && r.value == LeadingValues(ts, k))
    ensures r.Err? ==>
      r.error == if arg.Str? then AssertionError(CathEnzymeError) else AttributeError(TypeName(arg), "split")
  {
    match arg
    case Str(s) =>
      var split := Split(s, '.');
      if !(1 <= |split| <= 4) then Err(AssertionError(CathEnzymeError))
      else if !(|split| == 4 || split[|split| - 1] == "*") then Err(AssertionError(CathEnzymeError))
      else if !(forall i :: 0 <= i < |split| && split[i] != "*" ==> IsDigits(split[i])) then
        Err(AssertionError(CathEnzymeError))
      else
        var opts := seq(|split|, i requires 0 <= i < |split| =>
                          if split[i] == "*" then None else Some(DigitsValue(split[i])));
        var correctOrder := !exists i :: 0 <= i < |opts| - 1 && opts[i].None? && opts[i + 1].Some?;
        ClassParamCorrect(split, opts);
        if !correctOrder then Err(AssertionError(CathEnzymeError))
        else Ok(Present(opts))
    case _ => Err(AttributeError(TypeName(arg), "split"))
  }

  /** The checks `class_param` makes agree with `WellFormedCode`, and the
      values it keeps are the leading ones. */
  lemma ClassParamCorrect(ts: seq<string>, opts: seq<Option<nat>>)
    requires 1 <= |ts| <= 4 && (|ts| == 4 || ts[|ts| - 1] == "*")
    requires |opts| == |ts|
    requires forall i :: 0 <= i < |ts| ==>
      if ts[i] == "*" then opts[i] == None else IsDigits(ts[i]) && opts[i] == Some(DigitsValue(ts[i]))
    ensures (!exists i :: 0 <= i < |opts| - 1 && opts[i].None? && opts[i + 1].Some?) <==> WellFormedCode(ts)
    ensures WellFormedCode(ts) ==>
      var k := |ts| - WildcardCount(ts);
      ConcreteThenWildcards(ts, k) && Present(opts) == LeadingValues(ts, k)
  {
    var k := FirstWildcard(ts, 0);
    if !exists i :: 0 <= i < |opts| - 1 && opts[i].None? && opts[i + 1].Some? {
      forall i | k <= i < |ts| ensures ts[i] == "*" {
        WildcardsStay(ts, opts, k, i);
      }
      assert ConcreteThenWildcards(ts, k);
      assert |ts| == 4 || k < |ts| by {
        if |ts| != 4 { assert ts[|ts| - 1] == "*"; }
      }
    }
    if WellFormedCode(ts) {
      var j :| 0 <= j <= |ts| && ConcreteThenWildcards(ts, j) && (|ts| == 4 || j < |ts|);
      forall i | 0 <= i < |opts| - 1 && opts[i].None? ensures opts[i + 1].None? {
        assert ts[i] == "*";
        StarNotDigits();
      }
      StarNotDigits();
      WildcardCountSuffix(ts, j);
      PresentPrefix(ts, opts, j);
    }
  }

  lemma StarNotDigits()
    ensures !IsDigits("*")
  {
    assert "*"[0] == '*';
  }

  /** The index of the first `*` at or after `from`, or `|ts|`. */
  function FirstWildcard(ts: seq<string>, from: nat): (k: nat)
    requires from <= |ts|
    ensures from <= k <= |ts|
    ensures forall i :: from <= i < k ==> ts[i] != "*"
    ensures k < |ts| ==> ts[k] == "*"
    decreases |ts| - from
  {
    if from == |ts| || ts[from] == "*" then from else FirstWildcard(ts, from + 1)
  }

  lemma {:induction false} WildcardsStay(ts: seq<string>, opts: seq<Option<nat>>, k: nat, i: nat)
    requires |opts| == |ts| && k <= i < |ts|
    requires forall j :: 0 <= j < |ts| ==> (opts[j].None? <==> ts[j] == "*")
    requires ts[k] == "*"
    requires !exists j :: 0 <= j < |opts| - 1 && opts[j].None? && opts[j + 1].Some?
    ensures ts[i] == "*"
    decreases i - k
  {
    if i > k {
      WildcardsStay(ts, opts, k, i - 1);
      assert opts[i - 1].None?;
    }
  }

  lemma {:induction false} WildcardCountSuffix(ts: seq<string>, k: nat)
    requires ConcreteThenWildcards(ts, k)
    requires !IsDigits("*")
    ensures WildcardCount(ts) == |ts| - k
    decreases |ts|
  {
    if ts != [] {
      if k > 0 {
        assert ts[0] != "*";
        WildcardCountSuffix(ts[1..], k - 1);
      } else {
        WildcardCountSuffix(ts[1..], 0);
      }
    }
  }

  lemma {:induction false} PresentPrefix(ts: seq<string>, opts: seq<Option<nat>>, k: nat)
    requires ConcreteThenWildcards(ts, k) && |opts| == |ts|
    requires !IsDigits("*")
    requires forall i :: 0 <= i < |ts| ==>
      opts[i] == if ts[i] == "*" then None else Some(DigitsValue(ts[i]))
    ensures Present(opts) == LeadingValues(ts, k)
    decreases |ts|
  {
    if ts != [] {
      var ts', opts' := ts[1..], opts[1..];
      if k > 0 {
        assert ConcreteThenWildcards(ts', k - 1);
        PresentPrefix(ts', opts', k - 1);
        assert ts[0] != "*";
        assert LeadingValues(ts, k) == [DigitsValue(ts[0])] + LeadingValues(ts', k - 1);
      } else {
        assert ConcreteThenWildcards(ts', 0);
        PresentPrefix(ts', opts', 0);
      }
    }
  }

  /** The text of a code with the given concrete components followed by
      `wild` wildcards, e.g. `3.40.*.*`. */
  function CodeText(xs: seq<nat>, wild: nat): string {
    JoinWith(CodeTokens(xs, wild), ".")
  }

  function CodeTokens(xs: seq<nat>, wild: nat): (ts: seq<string>)
    ensures |ts| == |xs| + wild
    ensures ConcreteThenWildcards(ts, |xs|)
    ensures forall i :: 0 <= i < |ts| ==> '.' !in ts[i]
  {
    var ts := seq(|xs|, i requires 0 <= i < |xs| => NatToString(xs[i])) + seq(wild, _ => "*");
    forall i | 0 <= i < |ts| ensures '.' !in ts[i] && (i < |xs| ==> IsDigits(ts[i])) {
      if i < |xs| {
        assert ts[i] == NatToString(xs[i]);
        assert !IsDigit('.');
      } else {
        assert ts[i] == "*";
      }
    }
    ts
  }

  /** Round trip: a code written out from its concrete components, with a
      trailing wildcard run (non-empty unless all four are given), parses
      back to exactly those components. */
  lemma ClassParamRoundTrip(xs: seq<nat>, wild: nat)
    requires 1 <= |xs| + wild <= 4
    requires |xs| + wild == 4 || wild >= 1
    ensures ClassParam(Str(CodeText(xs, wild))) == Ok(xs)
  {
    var ts := CodeTokens(xs, wild);
    SplitOfJoin(ts, '.');
    assert Split(CodeText(xs, wild), '.') == ts;
    assert WellFormedCode(ts);
    StarNotDigits();
    WildcardCountSuffix(ts, |xs|);
    assert LeadingValues(ts, |xs|) == xs;
  }

  /** A code padded with `.*` to four components parses to its components. */
  lemma ClassParamPadded(xs: seq<nat>)
    requires |xs| <= 4
    ensures ClassParam(Str(CodeText(xs, 4 - |xs|))) == Ok(xs)
  {
    ClassParamRoundTrip(xs, 4 - |xs|);
  }

  /** A wildcard may not precede a concrete component. */
  lemma WildcardBeforeConcrete(ts: seq<string>, i: nat, j: nat)
    requires i < j < |ts| && ts[i] == "*" && IsDigits(ts[j])
    ensures !WellFormedCode(ts)
  {
    StarNotDigits();
  }

  /** Examples: fewer than four components must end in `*`, more than four
      are refused, a wildcard may not precede a concrete component, and a
      value that is not a string has no `split`. */
  lemma ClassParamRejectsShort()
    ensures ClassParam(Str("3")).Err?
  {
    SplitWhole("3", '.');
  }

  lemma ClassParamRejectsUnpadded()
    ensures ClassParam(Str("3.40.50")).Err?
  {
    assert "3.40.50" == JoinWith(["3", "40", "50"], ".");
    SplitOfJoin(["3", "40", "50"], '.');
  }

  lemma ClassParamRejectsGap()
    ensures ClassParam(Str("3.*.50.*")).Err?
  {
    var ts := ["3", "*", "50", "*"];
    JoinFour(ts, ".");
    assert "3.*.50.*" == "3" + "." + "*" + "." + "50" + "." + "*";
    SplitOfJoin(ts, '.');
    assert IsDigits(ts[2]);
    WildcardBeforeConcrete(ts, 1, 2);
  }

  lemma JoinFour(ts: seq<string>, sep: string)
    requires |ts| == 4
    ensures JoinWith(ts, sep) == ts[0] + sep + ts[1] + sep + ts[2] + sep + ts[3]
  {
    var t3 := ts[1..][1..];
    assert t3[1..][0] == ts[3];
    assert JoinWith(t3, sep) == ts[2] + sep + ts[3];
    assert JoinWith(ts[1..], sep) == ts[1] + sep + (ts[2] + sep + ts[3]);
  }

  lemma ClassParamRejectsLong()
    ensures ClassParam(Str("1.2.3.4.5")).Err?
  {
    var ts := ["1", "2", "3", "4", "5"];
    JoinFour(ts[1..], ".");
    assert JoinWith(ts, ".") == ts[0] + "." + JoinWith(ts[1..], ".");
    assert "1.2.3.4.5" == "1" + "." + ("2" + "." + "3" + "." + "4" + "." + "5");
    SplitOfJoin(ts, '.');
  }

  lemma ClassParamRejectsNonString()
    ensures ClassParam(Bool(true)) == Err(AttributeError("bool", "split"))
  {
  }

  lemma ClassParamAcceptsPadded()
    ensures ClassParam(Str("3.40.*.*")) == Ok([3, 40])
  {
    assert NatToString(3) == "3" && NatToString(40) == "40";
    assert CodeText([3, 40], 2) == "3.40.*.*";
    ClassParamRoundTrip([3, 40], 2);
  }

  // ---------------------------------------------------------------------
  // The classification subquery

  const ClassText1 := "entry.entryId IN ("
  const ClassText2 := "\n        SELECT  "
  const ClassText3 := "_class.entryId"
  const ClassText4 := "\n        FROM    "
  const ClassText5 := "_class\n        WHERE   ("
  const ClassText6 := ")\n    )"

  /** `{t}_class.{t}_{i} = ?`. */
  function ClassTest(t: string, i: nat): string {
    t + "_class." + t + "_" + NatToString(i) + " = ?"
  }

  /** The tests for components 1..n, in order. */
  function ClassTests(t: string, n: nat): (ts: seq<string>)
    ensures |ts| == n
  {
    seq(n, i requires 0 <= i < n => ClassTest(t, i + 1))
  }

  /** The subquery over `{t}_class` whose condition is the tests joined
      with ` AND `. */
  function ClassQuery(t: string, n: nat): string {
    ClassHead(t) + JoinWith(ClassTests(t, n), " AND ") + ClassText6
  }

  /** The subquery up to its condition. */
  function ClassHead(t: string): string {
    ClassText1 + ClassText2 + t + ClassText3 + ClassText4 + t + ClassText5
  }

  /** `class_constraint`: the table must be `cath` or `enzyme` and the value
      a list (already coerced by `class_param`); the fragment then holds one
      placeholder per retained component, and depends on the list only
      through its length. */
  function ClassConstraint(arg: Coerced, entryType: string): (r: Result<string>)
    ensures r.Ok? <==> (entryType == "cath" || entryType == "enzyme") && arg.CList?
    ensures r.Ok? ==> Occurrences(r.value, '?') == |arg.xs|
    ensures r.Ok? ==> r.value == ClassQuery(entryType, |arg.xs|)
    ensures entryType != "cath" && entryType != "enzyme" ==>
      r == Err(AssertionError("Entry type must be either cath or enzyme"))
    ensures (entryType == "cath" || entryType == "enzyme") && !arg.CList? ==>
      r == Err(AssertionError("Param should be pre-processed by _class_param"))
  {
    if entryType != "cath" && entryType != "enzyme" then
      Err(AssertionError("Entry type must be either cath or enzyme"))
    else if !arg.CList? then
      Err(AssertionError("Param should be pre-processed by _class_param"))
    else
      ClassQueryPlaceholders(entryType, |arg.xs|);
      Ok(ClassQuery(entryType, |arg.xs|))
  }

  lemma ClassQueryPlaceholders(t: string, n: nat)
    requires '?' !in t
    ensures Occurrences(ClassQuery(t, n), '?') == n
  {
    ClassHeadPlaceholders(t);
    ClassTestsPlaceholders(t, n);
    assert '?' !in ClassText6;
    OccurrencesAbsent(ClassText6, '?');
    OccurrencesConcat(ClassHead(t), JoinWith(ClassTests(t, n), " AND "), '?');
    OccurrencesConcat(ClassHead(t) + JoinWith(ClassTests(t, n), " AND "), ClassText6, '?');
  }

  lemma ClassHeadPlaceholders(t: string)
    requires '?' !in t
    ensures Occurrences(ClassHead(t), '?') == 0
  {
    assert '?' !in ClassText1 && '?' !in ClassText2 && '?' !in ClassText3;
    assert '?' !in ClassText4 && '?' !in ClassText5;
    assert '?' !in ClassHead(t);
    OccurrencesAbsent(ClassHead(t), '?');
  }

  lemma ClassTestsPlaceholders(t: string, n: nat)
    requires '?' !in t
    ensures Occurrences(JoinWith(ClassTests(t, n), " AND "), '?') == n
  {
    var tests := ClassTests(t, n);
    forall i | 0 <= i < n ensures Occurrences(tests[i], '?') == 1 {
      ClassTestPlaceholders(t, i + 1);
    }
    assert '?' !in " AND ";
    JoinPlaceholders(tests, " AND ");
  }

  lemma ClassTestPlaceholders(t: string, i: nat)
    requires '?' !in t
    ensures Occurrences(ClassTest(t, i), '?') == 1
  {
    var d := NatToString(i);
    assert '?' !in d by { assert !IsDigit('?'); }
    assert '?' !in "_class." && '?' !in "_" && '?' !in " = ";
    var head := t + "_class." + t + "_" + d + " = ";
    assert '?' !in head;
    OnePlaceholder(head, "");
    assert head + "?" + "" == ClassTest(t, i);
  }

  /** Joining pieces that each hold one placeholder, with a separator that
      holds none, gives one placeholder per piece. */
  lemma {:induction false} JoinPlaceholders(ts: seq<string>, sep: string)
    requires '?' !in sep
    requires forall i :: 0 <= i < |ts| ==> Occurrences(ts[i], '?') == 1
    ensures Occurrences(JoinWith(ts, sep), '?') == |ts|
    decreases |ts|
  {
    if |ts| > 1 {
      JoinPlaceholders(ts[1..], sep);
      OccurrencesAbsent(sep, '?');
      OccurrencesConcat(ts[0], sep, '?');
      OccurrencesConcat(ts[0] + sep, JoinWith(ts[1..], sep), '?');
    }
  }

  // ---------------------------------------------------------------------
  // Scalar coercers

  /** `to_int`: the integer `int()` gives, or the named failure. `int()` of a
      bool is 0 or 1. */
  function ToInt(arg: Raw, entry: string): (r: Result<int>)
    ensures arg.Str? ==> (r.Ok? <==> ParseInt(arg.s).Some?)
    ensures arg.Str? && r.Ok? ==> Some(r.value) == ParseInt(arg.s)
    ensures arg.Int? ==> r == Ok(arg.i)
    ensures arg.Bool? ==> r == Ok(if arg.b then 1 else 0)
    ensures r.Err? ==> r.error == AssertionError(entry + " must be an integer")
  {
    match arg
    case Str(s) =>
      (match ParseInt(s)
       case Some(i) => Ok(i)
       case None => Err(AssertionError(entry + " must be an integer")))
    case Bool(b) => Ok(if b then 1 else 0)
    case Int(i) => Ok(i)
  }

  /** `to_int(str(i)) == i`. */
  lemma ToIntRoundTrip(i: int, entry: string)
    ensures ToInt(Str(IntToString(i)), entry) == Ok(i)
  {
    ParseIntOfIntToString(i);
  }

  /** `to_float`, with the acceptance of a string left to `isFloat`. */
  function ToFloat(arg: Raw, entry: string, isFloat: string -> bool): (r: Result<FloatValue>)
    ensures r.Ok? ==> r.value == FloatOf(arg)
    ensures r.Err? <==> arg.Str? && !isFloat(arg.s)
    ensures r.Err? ==> r.error == AssertionError(entry + " must be a float")
  {
    if arg.Str? && !isFloat(arg.s) then Err(AssertionError(entry + " must be a float"))
    else Ok(FloatOf(arg))
  }

  const BoolTrueValues: set<string> := {"true", "t", "yes", "y", "1"}
  const BoolFalseValues: set<string> := {"false", "f", "no", "n", "0"}
  const BoolValues: set<string> := BoolTrueValues + BoolFalseValues

  function BoolError(entry: string): Error {
    AssertionError(entry + " must be a boolean [true/false, yes/no, 0/1]")
  }

  /** `to_bool` as written: it calls `lower()` on its argument, so any value
      that is not a string fails with an AttributeError. */
  function ToBoolAsWritten(arg: Raw, entry: string): (r: Result<bool>)
    ensures arg.Str? ==> (r == Ok(true) <==> Lower(arg.s) in BoolTrueValues)
    ensures arg.Str? ==> (r == Ok(false) <==> Lower(arg.s) in BoolFalseValues)
    ensures arg.Str? ==> (r.Err? <==> Lower(arg.s) !in BoolValues)
    ensures arg.Str? && r.Err? ==> r.error == BoolError(entry)
    ensures !arg.Str? ==> r == Err(AttributeError(TypeName(arg), "lower"))
  {
    match arg
    case Str(s) =>
      var a := Lower(s);
      if a !in BoolValues then Err(BoolError(entry)) else Ok(a in BoolTrueValues)
    case _ => Err(AttributeError(TypeName(arg), "lower"))
  }

  /** `to_bool` as evidently intended: a string is matched case-insensitively
      against the true and false spellings, and a value that already is a
      bool is returned as it is. */
  function ToBool(arg: Raw, entry: string): (r: Result<bool>)
    ensures arg.Str? ==> (r == Ok(true) <==> Lower(arg.s) in BoolTrueValues)
    ensures arg.Str? ==> (r == Ok(false) <==> Lower(arg.s) in BoolFalseValues)
    ensures arg.Str? ==> (r.Err? <==> Lower(arg.s) !in BoolValues)
    ensures arg.Bool? ==> r == Ok(arg.b)
    ensures r.Err? ==> r.error == if arg.Str? then BoolError(entry) else AttributeError(TypeName(arg), "lower")
  {
    match arg
    case Bool(b) => Ok(b)
    case _ => ToBoolAsWritten(arg, entry)
  }

  /** On strings the correction changes nothing. */
  lemma ToBoolAgreesOnStrings(s: string, entry: string)
    ensures ToBool(Str(s), entry) == ToBoolAsWritten(Str(s), entry)
  {
  }

  /** The discrepancy: the as-written coercer rejects the bool values that
      its callers pass (the route's default `False`, `has_ptm=True`). */
  lemma ToBoolAsWrittenRejectsBools(b: bool, entry: string)
    ensures ToBoolAsWritten(Bool(b), entry) == Err(AttributeError("bool", "lower"))
    ensures ToBool(Bool(b), entry) == Ok(b)
  {
  }

  /** Matching ignores ASCII case. */
  lemma ToBoolIgnoresCase(s: string, entry: string)
    ensures ToBool(Str(Upper(s)), entry) == ToBool(Str(s), entry)
  {
    LowerUpper(s);
  }

  lemma LowerUpper(s: string)
    ensures Lower(Upper(s)) == Lower(s)
  {
    var a, b := Lower(Upper(s)), Lower(s);
    forall i | 0 <= i < |s| ensures a[i] == b[i] {
      assert a[i] == LowerChar(UpperChar(s[i]));
    }
  }
}

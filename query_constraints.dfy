/** The constraint templates: for every registry member, the SQL fragment
    it contributes and the coercer that turns the raw value into the bound
    value(s). The three tables are merged into `ConstraintsTemplate`, which
    covers the registry exactly. */
module QueryConstraints {
  import opened Py
  import opened SelectorParams
  import opened ConstraintsUtils

  /** How a member's fragment is produced. */
  datatype FragmentKind =
    | Compare(column: string, op: string)   // the constant `column op ?`
    | OrganismLike                          // `organism_constraint`
    | ClassOf(entryType: string)            // `class_constraint` on a table

  /** How a member's raw value is coerced. */
  datatype Coercer =
    | AsStr                // `str(x)`
    | UpperStr             // `str(x).upper()`
    | IntOf                // `to_int`
    | FloatVal              // `to_float`
    | BoolOf               // `to_bool`
    | OrganismPattern      // `f'%:{x}:%'`
    | ClassCode            // `class_param`

  datatype Template = Template(fragment: FragmentKind, coercer: Coercer)

  const ConstraintsSimple: map<ProteinParam, Template> := map[
    Id := Template(Compare("entry.entryId", "="), AsStr),
    Sequence := Template(Compare("entry.sequence", "="), UpperStr),
    MinLength := Template(Compare("entry.sequenceLength", ">="), IntOf),
    MaxLength := Template(Compare("entry.sequenceLength", "<="), IntOf)
  ]

  const ConstraintsStruct: map<ProteinParam, Template> := map[
    MinHelix := Template(Compare("entry.structhelix", ">="), FloatVal),
    MaxHelix := Template(Compare("entry.structhelix", "<="), FloatVal),
    MinTurn := Template(Compare("entry.structturn", ">="), FloatVal),
    MaxTurn := Template(Compare("entry.structturn", "<="), FloatVal),
    MinStrand := Template(Compare("entry.structstrand", ">="), FloatVal),
    MaxStrand := Template(Compare("entry.structstrand", "<="), FloatVal),
    HasPtm := Template(Compare("entry.hasPTM", "="), BoolOf),
    HasSubstrate := Template(Compare("entry.hasSubstrate", "="), BoolOf),
    HasPdb := Template(Compare("entry.hasPDB", "="), BoolOf)
  ]

  const ConstraintsSpecial: map<ProteinParam, Template> := map[
    Organism := Template(OrganismLike, OrganismPattern),
    Cath := Template(ClassOf("cath"), ClassCode),
    Enzyme := Template(ClassOf("enzyme"), ClassCode)
  ]

  /** `{**simple, **struct, **special}`: a later table wins on a shared key. */
  const ConstraintsTemplate: map<ProteinParam, Template> :=
    ConstraintsSimple + ConstraintsStruct + ConstraintsSpecial

  lemma SimpleKeys()
    ensures ConstraintsSimple.Keys == {Id, Sequence, MinLength, MaxLength}
  {
  }

  lemma StructKeys()
    ensures ConstraintsStruct.Keys ==
      {MinHelix, MaxHelix, MinTurn, MaxTurn, MinStrand, MaxStrand, HasPtm, HasSubstrate, HasPdb}
  {
  }

  lemma SpecialKeys()
    ensures ConstraintsSpecial.Keys == {Organism, Cath, Enzyme}
  {
  }

  /** The completeness assertion holds: the merged table's keys are exactly
      the registry's members, and no table overrides another. */
  lemma TemplateComplete()
    ensures ConstraintsTemplate.Keys == Members
    ensures ConstraintsSimple.Keys !! ConstraintsStruct.Keys
    ensures ConstraintsSimple.Keys !! ConstraintsSpecial.Keys
    ensures ConstraintsStruct.Keys !! ConstraintsSpecial.Keys
  {
    MergedKeys();
    SimpleStructDisjoint();
    SpecialDisjoint();
  }

  lemma MergedKeys()
    ensures ConstraintsTemplate.Keys == Members
  {
    SimpleKeys();
    StructKeys();
    SpecialKeys();
    assert ConstraintsTemplate.Keys == ConstraintsSimple.Keys + ConstraintsStruct.Keys + ConstraintsSpecial.Keys;
  }

  lemma SimpleStructDisjoint()
    ensures ConstraintsSimple.Keys !! ConstraintsStruct.Keys
  {
    SimpleKeys();
    StructKeys();
  }

  lemma SpecialDisjoint()
    ensures ConstraintsSimple.Keys !! ConstraintsSpecial.Keys
    ensures ConstraintsStruct.Keys !! ConstraintsSpecial.Keys
  {
    SimpleKeys();
    StructKeys();
    SpecialKeys();
  }

  /** The template of a member, from the table that holds it. */
  function TemplateOf(p: ProteinParam): Template {
    if p in ConstraintsSpecial then ConstraintsSpecial[p]
    else if p in ConstraintsStruct then ConstraintsStruct[p]
    else
      MembersComplete(p);
      SimpleKeys();
      StructKeys();
      SpecialKeys();
      ConstraintsSimple[p]
  }

  /** Every member has a template, and it is the merged table's entry. */
  lemma TemplateOfMerged(p: ProteinParam)
    ensures p in ConstraintsTemplate && TemplateOf(p) == ConstraintsTemplate[p]
  {
    TemplateComplete();
    MembersComplete(p);
  }

  /** Looking a template up by a plain string key, as the `str` mix-in
      allows: found exactly for the registry's names. */
  function TemplateFor(name: string): (r: Option<Template>)
    ensures r.Some? <==> name in Names()
    ensures r.Some? ==> exists p :: Value(p) == name && r.value == TemplateOf(p)
  {
    match FromValue(name)
    case Some(p) => ValueInjective(p, p); Some(TemplateOf(p))
    case None => None
  }

  /** The value(s) bound for a coerced value: a class code binds one value
      per retained component, everything else exactly one. */
  function BoundCount(v: Coerced): nat {
    if v.CList? then |v.xs| else 1
  }

  /** Applying a member's coercer; failures name the member by its value. */
  function Coerce(c: Coercer, p: ProteinParam, raw: Raw, isFloat: string -> bool): (r: Result<Coerced>)
    ensures c == AsStr ==> r == Ok(CStr(PyStr(raw)))
    ensures c == UpperStr ==> r.Ok? && r.value.CStr? && |r.value.s| == |PyStr(raw)|
    ensures c == UpperStr ==> forall i :: 0 <= i < |r.value.s| ==> !IsLowerAscii(r.value.s[i])
    ensures c == OrganismPattern ==> r == Ok(CStr("%:" + PyStr(raw) + ":%"))
    ensures c == IntOf ==> r.Ok? == ToInt(raw, Value(p)).Ok?
    ensures c == BoolOf ==> r.Ok? == ToBool(raw, Value(p)).Ok?
    ensures c == FloatVal ==> r.Ok? == ToFloat(raw, Value(p), isFloat).Ok?
    ensures r.Ok? && c == IntOf ==> r.value == CInt(ToInt(raw, Value(p)).value)
    ensures r.Ok? && c == BoolOf ==> r.value == CBool(ToBool(raw, Value(p)).value)
    ensures r.Ok? && c == FloatVal ==> r.value == CFloat(ToFloat(raw, Value(p), isFloat).value)
    ensures c == ClassCode ==> r.Ok? == ClassParam(raw).Ok?
    ensures r.Ok? && c == ClassCode ==> r.value == CList(ClassParam(raw).value)
    ensures r.Ok? && c != ClassCode ==> !r.value.CList?
    ensures r.Err? && c == IntOf ==> r.error == AssertionError(Value(p) + " must be an integer")
    ensures r.Err? && c == FloatVal ==> r.error == AssertionError(Value(p) + " must be a float")
    ensures r.Err? && c == BoolOf && raw.Str? ==> r.error == BoolError(Value(p))
  {
    match c
    case AsStr => Ok(CStr(PyStr(raw)))
    case UpperStr => Ok(CStr(Upper(PyStr(raw))))
    case IntOf => var i :- ToInt(raw, Value(p)); Ok(CInt(i))
    case FloatVal => var f :- ToFloat(raw, Value(p), isFloat); Ok(CFloat(f))
    case BoolOf => var b :- ToBool(raw, Value(p)); Ok(CBool(b))
    case OrganismPattern => Ok(CStr("%:" + PyStr(raw) + ":%"))
    case ClassCode => var xs :- ClassParam(raw); Ok(CList(xs))
  }

  /** The fragment a template contributes for a coerced value. */
  function Fragment(k: FragmentKind, v: Coerced): Result<string> {
    match k
    case Compare(column, op) => Ok(column + " " + op + " ?")
    case OrganismLike => Ok(OrganismConstraint(v))
    case ClassOf(t) => ClassConstraint(v, t)
  }

  /** The simple and structural members. */
  predicate IsConstantMember(p: ProteinParam) {
    p in ConstraintsSimple || p in ConstraintsStruct
  }

  /** A constant comparison `column op ?`: no placeholder in the column or
      the operator, and a scalar coercer. */
  predicate ConstantCompare(t: Template) {
    t.fragment.Compare? && '?' !in t.fragment.column && '?' !in t.fragment.op && t.coercer != ClassCode
  }

  /** The simple and structural templates are constant comparisons. */
  lemma ConstantTemplate(p: ProteinParam)
    requires IsConstantMember(p)
    ensures ConstantCompare(TemplateOf(p))
  {
    SimpleKeys();
    StructKeys();
    SpecialKeys();
    if p in ConstraintsSimple {
      assert TemplateOf(p) == ConstraintsSimple[p];
      SimpleTemplate();
    } else {
      assert TemplateOf(p) == ConstraintsStruct[p];
      StructTemplate();
    }
  }

  lemma SimpleTemplate()
    ensures forall p | p in ConstraintsSimple :: ConstantCompare(ConstraintsSimple[p])
  {
    SimpleKeys();
    PlaceholderFreeText();
  }

  lemma StructTemplate()
    ensures forall p | p in ConstraintsStruct :: ConstantCompare(ConstraintsStruct[p])
  {
    StructKeys();
    PlaceholderFreeText();
  }

  /** The columns and operators of the constant comparisons. */
  lemma PlaceholderFreeText()
    ensures '?' !in "=" && '?' !in ">=" && '?' !in "<="
    ensures '?' !in "entry.entryId" && '?' !in "entry.sequence" && '?' !in "entry.sequenceLength"
    ensures '?' !in "entry.structhelix" && '?' !in "entry.structturn" && '?' !in "entry.structstrand"
    ensures '?' !in "entry.hasPTM" && '?' !in "entry.hasSubstrate" && '?' !in "entry.hasPDB"
  {
  }

  /** Every simple and structural fragment is one constant `column op ?`
      with exactly one placeholder, whatever the value, and its coercer
      yields one bound value. */
  lemma ConstantFragments(p: ProteinParam, v: Coerced, w: Coerced, raw: Raw, isFloat: string -> bool)
    requires IsConstantMember(p)
    ensures ConstantCompare(TemplateOf(p))
    ensures Fragment(TemplateOf(p).fragment, v) == Fragment(TemplateOf(p).fragment, w)
    ensures Fragment(TemplateOf(p).fragment, v).Ok?
    ensures Occurrences(Fragment(TemplateOf(p).fragment, v).value, '?') == 1
    ensures Coerce(TemplateOf(p).coercer, p, raw, isFloat).Ok? ==>
      BoundCount(Coerce(TemplateOf(p).coercer, p, raw, isFloat).value) == 1
  {
    ConstantTemplate(p);
    var t := TemplateOf(p);
    var column, op := t.fragment.column, t.fragment.op;
    OnePlaceholder(column + " " + op + " ", "");
    assert column + " " + op + " " + "?" + "" == column + " " + op + " ?";
  }

  /** Each minimum / maximum pair compares the same column, with `>=` for
      the minimum and `<=` for the maximum. */
  lemma MinMaxPairs()
    ensures TemplateOf(MinLength).fragment == Compare("entry.sequenceLength", ">=")
    ensures TemplateOf(MaxLength).fragment == Compare("entry.sequenceLength", "<=")
    ensures TemplateOf(MinLength).coercer == IntOf && TemplateOf(MaxLength).coercer == IntOf
    ensures TemplateOf(MinHelix).fragment == Compare("entry.structhelix", ">=")
    ensures TemplateOf(MaxHelix).fragment == Compare("entry.structhelix", "<=")
    ensures TemplateOf(MinTurn).fragment == Compare("entry.structturn", ">=")
    ensures TemplateOf(MaxTurn).fragment == Compare("entry.structturn", "<=")
    ensures TemplateOf(MinStrand).fragment == Compare("entry.structstrand", ">=")
    ensures TemplateOf(MaxStrand).fragment == Compare("entry.structstrand", "<=")
  {
    LengthPair();
    FractionPairs();
  }

  lemma LengthPair()
    ensures TemplateOf(MinLength) == Template(Compare("entry.sequenceLength", ">="), IntOf)
    ensures TemplateOf(MaxLength) == Template(Compare("entry.sequenceLength", "<="), IntOf)
  {
  }

  lemma FractionPairs()
    ensures TemplateOf(MinHelix) == Template(Compare("entry.structhelix", ">="), FloatVal)
    ensures TemplateOf(MaxHelix) == Template(Compare("entry.structhelix", "<="), FloatVal)
    ensures TemplateOf(MinTurn) == Template(Compare("entry.structturn", ">="), FloatVal)
    ensures TemplateOf(MaxTurn) == Template(Compare("entry.structturn", "<="), FloatVal)
    ensures TemplateOf(MinStrand) == Template(Compare("entry.structstrand", ">="), FloatVal)
    ensures TemplateOf(MaxStrand) == Template(Compare("entry.structstrand", "<="), FloatVal)
  {
  }

  /** The sequence is bound upper-cased, the UniProt id as `str()` of the
      value (a string unchanged), and the organism as `%:x:%`. */
  lemma SequenceCoercer(raw: Raw, isFloat: string -> bool)
    ensures TemplateOf(Sequence).coercer == UpperStr
    ensures Coerce(UpperStr, Sequence, raw, isFloat) == Ok(CStr(Upper(PyStr(raw))))
  {
  }

  lemma IdCoercer(s: string, isFloat: string -> bool)
    ensures TemplateOf(Id).coercer == AsStr
    ensures Coerce(AsStr, Id, Str(s), isFloat) == Ok(CStr(s))
  {
  }

  lemma OrganismCoercer(s: string, isFloat: string -> bool)
    ensures TemplateOf(Organism) == Template(OrganismLike, OrganismPattern)
    ensures Coerce(OrganismPattern, Organism, Str(s), isFloat) == Ok(CStr("%:" + s + ":%"))
  {
  }

  /** The three flags are coerced by `to_bool` and compared for equality
      with their column. */
  lemma FlagTemplates()
    ensures TemplateOf(HasPtm) == Template(Compare("entry.hasPTM", "="), BoolOf)
    ensures TemplateOf(HasSubstrate) == Template(Compare("entry.hasSubstrate", "="), BoolOf)
    ensures TemplateOf(HasPdb) == Template(Compare("entry.hasPDB", "="), BoolOf)
  {
  }

  /** Placeholders and bound values always match: whenever a member's
      coercer accepts a raw value, the member's fragment for the coerced
      value exists and holds exactly as many `?` as values are bound. */
  lemma PlaceholdersMatchBoundValues(p: ProteinParam, raw: Raw, isFloat: string -> bool)
    requires Coerce(TemplateOf(p).coercer, p, raw, isFloat).Ok?
    ensures
      var v := Coerce(TemplateOf(p).coercer, p, raw, isFloat).value;
      var f := Fragment(TemplateOf(p).fragment, v);
      f.Ok? && Occurrences(f.value, '?') == BoundCount(v)
  {
    var v := Coerce(TemplateOf(p).coercer, p, raw, isFloat).value;
    if IsConstantMember(p) {
      ConstantFragments(p, v, v, raw, isFloat);
    } else {
      SpecialFragments(p, raw, isFloat);
    }
  }

  /** The organism fragment has one `?` for its one value; a class fragment
      has one per retained component. */
  lemma SpecialFragments(p: ProteinParam, raw: Raw, isFloat: string -> bool)
    requires !IsConstantMember(p)
    requires Coerce(TemplateOf(p).coercer, p, raw, isFloat).Ok?
    ensures
      var v := Coerce(TemplateOf(p).coercer, p, raw, isFloat).value;
      var f := Fragment(TemplateOf(p).fragment, v);
      f.Ok? && Occurrences(f.value, '?') == BoundCount(v)
  {
    MembersComplete(p);
    SimpleKeys();
    StructKeys();
    SpecialTemplates();
    var v := Coerce(TemplateOf(p).coercer, p, raw, isFloat).value;
    if p == Organism {
      assert BoundCount(v) == 1;
    } else {
      assert p == Cath || p == Enzyme;
      assert v.CList?;
    }
  }

  lemma SpecialTemplates()
    ensures TemplateOf(Organism) == Template(OrganismLike, OrganismPattern)
    ensures TemplateOf(Cath) == Template(ClassOf("cath"), ClassCode)
    ensures TemplateOf(Enzyme) == Template(ClassOf("enzyme"), ClassCode)
  {
  }
}

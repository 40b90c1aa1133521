/** The closed registry of search parameter names (`ProteinParams`).
    The enum mixes in `str`, so each member compares equal to, and hashes
    like, its string value: a plain string key such as "cath" is accepted
    wherever the member is. The model therefore works with the values. */
module SelectorParams {
  import opened Py

  datatype ProteinParam =
    | Id | Sequence
    | MinLength | MaxLength
    | MinHelix | MaxHelix | MinTurn | MaxTurn | MinStrand | MaxStrand
    | Organism | Cath | Enzyme
    | HasSubstrate | HasPtm
    | HasPdb

  /** The member's string value. */
  function Value(p: ProteinParam): string {
    match p
    case Id => "uniprot_id"
    case Sequence => "sequence"
    case MinLength => "min_length"
    case MaxLength => "max_length"
    case MinHelix => "min_helix"
    case MaxHelix => "max_helix"
    case MinTurn => "min_turn"
    case MaxTurn => "max_turn"
    case MinStrand => "min_strand"
    case MaxStrand => "max_strand"
    case Organism => "organism"
    case Cath => "cath"
    case Enzyme => "enzyme"
    case HasSubstrate => "has_substrate"
    case HasPtm => "has_ptm"
    case HasPdb => "has_pdb"
  }

  /** `set(ProteinParams)`. */
  const Members: set<ProteinParam> :=
    {Id, Sequence, MinLength, MaxLength, MinHelix, MaxHelix, MinTurn, MaxTurn,
     MinStrand, MaxStrand, Organism, Cath, Enzyme, HasSubstrate, HasPtm, HasPdb}

  /** The strings a key may be: the members' values. */
  function Names(): set<string> {
    set p | p in Members :: Value(p)
  }

  /** `ProteinParams(name)`: the member whose value is `name`, if any. */
  function FromValue(name: string): (r: Option<ProteinParam>)
    ensures r.Some? ==> Value(r.value) == name
    ensures r.None? ==> name !in Names()
  {
    if name == "uniprot_id" then Some(Id)
    else if name == "sequence" then Some(Sequence)
    else if name == "min_length" then Some(MinLength)
    else if name == "max_length" then Some(MaxLength)
    else if name == "min_helix" then Some(MinHelix)
    else if name == "max_helix" then Some(MaxHelix)
    else if name == "min_turn" then Some(MinTurn)
    else if name == "max_turn" then Some(MaxTurn)
    else if name == "min_strand" then Some(MinStrand)
    else if name == "max_strand" then Some(MaxStrand)
    else if name == "organism" then Some(Organism)
    else if name == "cath" then Some(Cath)
    else if name == "enzyme" then Some(Enzyme)
    else if name == "has_substrate" then Some(HasSubstrate)
    else if name == "has_ptm" then Some(HasPtm)
    else if name == "has_pdb" then Some(HasPdb)
    else None
  }

  /** The enumeration is closed: every member is in `Members`. */
  lemma MembersComplete(p: ProteinParam)
    ensures p in Members
  {
  }

  /** The registry holds exactly these sixteen names and no others. */
  lemma NamesExactly()
    ensures Names() == {"uniprot_id", "sequence", "min_length", "max_length",
                        "min_helix", "max_helix", "min_turn", "max_turn",
                        "min_strand", "max_strand", "organism", "cath", "enzyme",
                        "has_substrate", "has_ptm", "has_pdb"}
  {
    var expected := {"uniprot_id", "sequence", "min_length", "max_length",
                     "min_helix", "max_helix", "min_turn", "max_turn",
                     "min_strand", "max_strand", "organism", "cath", "enzyme",
                     "has_substrate", "has_ptm", "has_pdb"};
    var values := {Value(Id), Value(Sequence), Value(MinLength), Value(MaxLength),
                   Value(MinHelix), Value(MaxHelix), Value(MinTurn), Value(MaxTurn),
                   Value(MinStrand), Value(MaxStrand), Value(Organism), Value(Cath), Value(Enzyme),
                   Value(HasSubstrate), Value(HasPtm), Value(HasPdb)};
    assert values == expected;
    forall name | name in Names() ensures name in values {
      var p :| p in Members && Value(p) == name;
    }
    forall name | name in values ensures name in Names() {
    }
  }

  /** The values are pairwise distinct, so looking a member up by its value
      is a function, and it inverts `Value`. */
  lemma ValueInjective(p: ProteinParam, q: ProteinParam)
    ensures Value(p) == Value(q) ==> p == q
    ensures FromValue(Value(p)) == Some(p)
  {
    FromValueOfValue(p);
    FromValueOfValue(q);
  }

  lemma FromValueOfValue(p: ProteinParam)
    ensures FromValue(Value(p)) == Some(p)
  {
    match p
    case Id => case Sequence => case MinLength => case MaxLength =>
    case MinHelix => case MaxHelix => case MinTurn => case MaxTurn =>
    case MinStrand => case MaxStrand => case Organism => case Cath =>
    case Enzyme => case HasSubstrate => case HasPtm => case HasPdb =>
  }

  /** Names that appear in the source only as comments, and the misspelt
      `has_pbd` keyword, are not members. */
  lemma NotMembers()
    ensures "disease" !in Names() && "cofactor" !in Names() && "has_pbd" !in Names()
  {
    NotAName("disease");
    NotAName("cofactor");
    NotAName("has_pbd");
  }

  lemma NotAName(s: string)
    requires FromValue(s).None?
    ensures s !in Names()
  {
  }
}

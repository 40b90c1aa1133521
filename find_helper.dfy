/** The helpers behind `find` and `load_matrices`: key validation, query
    building (as the ordered record of constraints handed to the query
    builder), the query result frame, and the matrix loader that looks a
    sequence's matrix up by its digest. */
module FindHelper {
  import opened Py
  import opened SelectorParams

  // ---------------------------------------------------------------------
  // Key validation

  const BothGivenError := "Use either a dictionary or keywords, not both"

  function UndefinedKeyError(key: string): string {
    "\"" + key + "\" is not a defined constraint"
  }

  /** The first key, in iteration order, that is not among `keys` (the
      registry names, as `get_valid_find_params` uses it). */
  function FirstUnknown(d: Dict, keys: set<string>): (r: Option<string>)
    ensures r.None? <==> forall i :: 0 <= i < |d| ==> d[i].0 in keys
    ensures r.Some? ==> exists i :: 0 <= i < |d| && d[i].0 == r.value && r.value !in keys &&
                                    forall j :: 0 <= j < i ==> d[j].0 in keys
    decreases |d|
  {
    if d == [] then None
    else if d[0].0 !in keys then Some(d[0].0)
    else
      var r := FirstUnknown(d[1..], keys);
      assert forall i :: 1 <= i < |d| ==> d[i] == d[1..][i - 1];
      r
  }

  /** The first key, found at its position after only valid names. */
  lemma {:induction false} FirstUnknownAt(d: Dict, keys: set<string>, i: nat)
    requires i < |d| && d[i].0 !in keys
    requires forall j :: 0 <= j < i ==> d[j].0 in keys
    ensures FirstUnknown(d, keys) == Some(d[i].0)
    decreases i
  {
    if i > 0 {
      assert d[0].0 in keys;
      assert forall j :: 0 <= j < i - 1 ==> d[1..][j] == d[j + 1];
      FirstUnknownAt(d[1..], keys, i - 1);
    }
  }

  /** The dict the constraints are taken from. */
  function Chosen(cd: Option<Dict>, kwargs: Dict): Dict {
    if cd.None? then kwargs else cd.value
  }

  /** What `get_valid_find_params` returns: the constraint dict (the keyword
      arguments when no dict is given), once every key is a registry name. */
  function ValidFindParams(cd: Option<Dict>, kwargs: Dict): Result<Dict> {
    if cd.Some? && kwargs != [] then Err(AssertionError(BothGivenError))
    else
      var d := Chosen(cd, kwargs);
      match FirstUnknown(d, Names())
      case Some(k) => Err(AssertionError(UndefinedKeyError(k)))
      case None => Ok(d)
  }

  /** The loop of `get_valid_find_params`: one membership check per key, in
      iteration order, stopping at the first key outside `keys`. */
  method CheckKeys(d: Dict, keys: set<string>) returns (r: Option<string>)
    ensures r == FirstUnknown(d, keys)
  {
    var i := 0;
    while i < |d|
      invariant 0 <= i <= |d|
      invariant forall j :: 0 <= j < i ==> d[j].0 in keys
    {
      if d[i].0 !in keys {
        FirstUnknownAt(d, keys, i);
        return Some(d[i].0);
      }
      i := i + 1;
    }
    return None;
  }

  /** `get_valid_find_params`: the assertion on both inputs, then the check
      of every key against the registry names. */
  method GetValidFindParams(cd: Option<Dict>, kwargs: Dict) returns (r: Result<Dict>)
    ensures r == ValidFindParams(cd, kwargs)
  {
    if cd.Some? && kwargs != [] {
      return Err(AssertionError(BothGivenError));
    }
    var d := if cd.None? then kwargs else cd.value;
    var unknown := CheckKeys(d, Names());
    if unknown.Some? {
      return Err(AssertionError(UndefinedKeyError(unknown.value)));
    }
    return Ok(d);
  }

  /** A dict and keyword arguments together are refused. */
  lemma BothGivenRejected(d: Dict, kwargs: Dict)
    requires kwargs != []
    ensures ValidFindParams(Some(d), kwargs) == Err(AssertionError(BothGivenError))
  {
  }

  /** Without a dict, the keyword arguments are the constraints; an empty
      set of constraints is accepted. */
  lemma KwargsBecomeConstraints(kwargs: Dict)
    ensures ValidFindParams(None, kwargs) == ValidFindParams(Some(kwargs), [])
    ensures ValidFindParams(None, []) == Ok([])
    ensures ValidFindParams(Some([]), []) == Ok([])
  {
  }

  /** Validation succeeds exactly when not both inputs are given and every
      key of the chosen dict is a registry name. */
  lemma ValidFindParamsIff(cd: Option<Dict>, kwargs: Dict)
    ensures ValidFindParams(cd, kwargs).Ok? <==>
      !(cd.Some? && kwargs != []) && KeySet(Chosen(cd, kwargs)) <= Names()
  {
    var d := Chosen(cd, kwargs);
    if KeySet(d) <= Names() {
      forall i | 0 <= i < |d| ensures d[i].0 in Names() { assert d[i].0 in KeySet(d); }
    }
  }

  /** A key at position `i` that is not a registry name, after only
      registry names, is the one the failure names. */
  lemma FirstUnknownKeyNamed(cd: Option<Dict>, kwargs: Dict, i: nat)
    requires !(cd.Some? && kwargs != [])
    requires i < |Chosen(cd, kwargs)| && Chosen(cd, kwargs)[i].0 !in Names()
    requires forall j :: 0 <= j < i ==> Chosen(cd, kwargs)[j].0 in Names()
    ensures ValidFindParams(cd, kwargs) == Err(AssertionError(UndefinedKeyError(Chosen(cd, kwargs)[i].0)))
  {
    FirstUnknownAt(Chosen(cd, kwargs), Names(), i);
  }

  /** Success hands the dict back unchanged, keys, values and order. */
  lemma ValidParamsUnchanged(cd: Option<Dict>, kwargs: Dict)
    requires ValidFindParams(cd, kwargs).Ok?
    ensures ValidFindParams(cd, kwargs).value == Chosen(cd, kwargs)
    ensures KeySet(ValidFindParams(cd, kwargs).value) <= Names()
  {
  }

  // ---------------------------------------------------------------------
  // Query building

  /** What the query builder is given: the constraints in the order they
      were added. How it assembles them is not part of this model. */
  datatype Query = Query(constraints: seq<(string, Raw)>)

  /** The query builder, as far as `build_query_from_constraints` uses it. */
  class QueryBuilder {
    var added: seq<(string, Raw)>

    constructor ()
      ensures added == []
    {
      added := [];
    }

    method AddConstraint(key: string, value: Raw)
      modifies this
      ensures added == old(added) + [(key, value)]
    {
      added := added + [(key, value)];
    }

    function Build(): Query
      reads this
    {
      Query(added)
    }
  }

  /** `build_query_from_constraints`: one `add_constraint` per item, in the
      dict's iteration order. */
  method BuildQueryFromConstraints(d: Dict) returns (q: Query)
    ensures q.constraints == d
    ensures |q.constraints| == |d| && forall i :: 0 <= i < |d| ==> q.constraints[i].0 == d[i].0
  {
    var builder := new QueryBuilder();
    var i := 0;
    while i < |d|
      invariant 0 <= i <= |d|
      invariant builder.added == d[..i]
    {
      builder.AddConstraint(d[i].0, d[i].1);
      i := i + 1;
    }
    assert d[..|d|] == d;
    q := builder.Build();
  }

  // ---------------------------------------------------------------------
  // Result rows and matrices

  /** A stored matrix dataset; its numeric content is not modelled. */
  type Dataset(==)

  /** The formats a matrix can be handed back in. `Json` stands for the
      plain function `MatrixFormat.JSON`; the other three are the enum's
      members, each holding its conversion as `func`. */
  datatype MatrixFormat = Numpy | Pandas | List | Json

  /** A dataset converted to a format; the conversions themselves are not
      modelled, so a converted matrix is known by its format and dataset. */
  datatype Matrix = Formatted(format: MatrixFormat, data: Dataset)

  /** The `matrix` column of a row: absent, or present holding a matrix or
      `None`. */
  datatype MatrixColumn = Absent | Present(value: Option<Matrix>)

  /** A result row: its sequence, the other columns in order, and the
      `matrix` column. */
  datatype Row = Row(sequence: string, columns: seq<Raw>, matrix: MatrixColumn)

  /** The database: the rows a query selects from the file at a path. */
  type Executor = (string, Query) -> Result<seq<Row>>

  /** A data frame that callers hold on to and that `load_matrices` changes
      in place. */
  class Frame {
    var rows: seq<Row>

    constructor (rows: seq<Row>)
      ensures this.rows == rows
    {
      this.rows := rows;
    }
  }

  // ---------------------------------------------------------------------
  // The matrix loader

  /** `CoevolutionMatrixLoader`: the matrix file, opened once, and the
      format matrices are returned in. `open` stands for reading the file's
      datasets, keyed by digest; `md5` for the digest function. */
  class CoevolutionMatrixLoader {
    const matrixPath: string
    const matDb: map<string, Dataset>
    const matFormatter: MatrixFormat
    const md5: string -> string

    constructor (matrixPath: string, open: string -> map<string, Dataset>,
                 matFormat: MatrixFormat, md5: string -> string)
      ensures this.matrixPath == matrixPath && this.matDb == open(matrixPath)
      ensures this.matFormatter == matFormat && this.md5 == md5
    {
      this.matrixPath := matrixPath;
      this.matDb := open(matrixPath);
      this.matFormatter := matFormat;
      this.md5 := md5;
    }

    /** `load_coevolution_matrix` as evidently intended: the dataset stored
        under the sequence's digest, converted by the format's `func`; a miss
        is `None`, not an error. */
    function LoadCoevolutionMatrix(sequence: string): (r: Option<Matrix>)
      ensures r.Some? <==> md5(sequence) in matDb
      ensures r.Some? ==> r.value == Formatted(matFormatter, matDb[md5(sequence)])
    {
      var digest := md5(sequence);
      if digest in matDb then Some(Formatted(matFormatter, matDb[digest])) else None
    }

    /** `load_coevolution_matrix` as written: a miss is still `None`, but a
        hit calls the format itself, and only `JSON`, which the enum keeps
        as a plain function, can be called; the other three are tuple-valued
        enum members. */
    function LoadCoevolutionMatrixAsWritten(sequence: string): (r: Result<Option<Matrix>>)
      ensures md5(sequence) !in matDb ==> r == Ok(None)
      ensures md5(sequence) in matDb ==> (r.Ok? <==> matFormatter == Json)
      ensures r.Ok? ==> r.value == LoadCoevolutionMatrix(sequence)
      ensures r.Err? ==> r.error == TypeError(NotCallableError)
    {
      var digest := md5(sequence);
      if digest !in matDb then Ok(None)
      else if matFormatter == Json then Ok(Some(Formatted(Json, matDb[digest])))
      else Err(TypeError(NotCallableError))
    }
  }

  const NotCallableError := "'MatrixFormat' object is not callable"

  /** The discrepancy: with the default format a stored matrix makes the
      as-written loader fail, where the corrected one returns it; with the
      format the route passes, the two agree. */
  lemma DefaultFormatFailsOnHit(cml: CoevolutionMatrixLoader, sequence: string)
    requires cml.md5(sequence) in cml.matDb
    ensures cml.matFormatter == Numpy ==>
      cml.LoadCoevolutionMatrixAsWritten(sequence) == Err(TypeError(NotCallableError)) &&
      cml.LoadCoevolutionMatrix(sequence) == Some(Formatted(Numpy, cml.matDb[cml.md5(sequence)]))
    ensures cml.matFormatter == Json ==>
      cml.LoadCoevolutionMatrixAsWritten(sequence) == Ok(cml.LoadCoevolutionMatrix(sequence))
  {
  }

  /** The lookup a loader built from these arguments makes. A loader is an
      object that only a method can create, so the functions that specify
      `load_matrices` use this form; `LoadMatricesInto`'s loop invariant ties
      it to the loader's `LoadCoevolutionMatrix`. */
  function Lookup(matPath: string, open: string -> map<string, Dataset>,
                  fmt: MatrixFormat, md5: string -> string, sequence: string): Option<Matrix>
  {
    var db := open(matPath);
    if md5(sequence) in db then Some(Formatted(fmt, db[md5(sequence)])) else None
  }

  /** Every row with its `matrix` column replaced by the lookup of its own
      sequence. */
  function WithMatrices(rows: seq<Row>, matPath: string, open: string -> map<string, Dataset>,
                        fmt: MatrixFormat, md5: string -> string): (r: seq<Row>)
    ensures |r| == |rows|
    ensures forall i :: 0 <= i < |rows| ==>
      r[i].sequence == rows[i].sequence && r[i].columns == rows[i].columns &&
      r[i].matrix == Present(Lookup(matPath, open, fmt, md5, rows[i].sequence))
  {
    seq(|rows|, i requires 0 <= i < |rows| =>
      rows[i].(matrix := Present(Lookup(matPath, open, fmt, md5, rows[i].sequence))))
  }

  const MatPathError := "mat_path has to be set. `pycom.mat` can be downloaded from https://pycom.brunel.ac.uk/downloads/"

  function MaxLoadError(n: nat, maxLoad: int): string {
    "Attempting to load " + IntToString(n) + " matrices, max_load is " + IntToString(maxLoad)
      + ". Consider using PyCom.paginate(), or increasing max_load parameter"
  }

  /** The outcome of `load_matrices` on rows: the two checks, in order,
      before any loader exists; then the new rows. */
  function LoadMatricesResult(matPath: Option<string>, rows: seq<Row>, maxLoad: int,
                              open: string -> map<string, Dataset>, fmt: MatrixFormat,
                              md5: string -> string): Result<seq<Row>>
  {
    if matPath.None? then Err(AssertionError(MatPathError))
    else if |rows| > maxLoad then Err(AssertionError(MaxLoadError(|rows|, maxLoad)))
    else Ok(WithMatrices(rows, matPath.value, open, fmt, md5))
  }

  /** The body `load_matrices` shares between the two interfaces: the
      checks, then one lookup per row written into the frame's `matrix`
      column; on failure the frame is untouched. */
  method LoadMatricesInto(matPath: Option<string>, df: Frame, maxLoad: int,
                          open: string -> map<string, Dataset>, fmt: MatrixFormat,
                          md5: string -> string) returns (r: Result<Frame>)
    modifies df
    ensures r.Ok? ==> r.value == df
    ensures r.Err? ==> df.rows == old(df.rows)
    ensures r.Ok? <==> LoadMatricesResult(matPath, old(df.rows), maxLoad, open, fmt, md5).Ok?
    ensures r.Ok? ==> df.rows == LoadMatricesResult(matPath, old(df.rows), maxLoad, open, fmt, md5).value
    ensures r.Err? ==> r.error == LoadMatricesResult(matPath, old(df.rows), maxLoad, open, fmt, md5).error
  {
    if matPath.None? {
      return Err(AssertionError(MatPathError));
    }
    if |df.rows| > maxLoad {
      return Err(AssertionError(MaxLoadError(|df.rows|, maxLoad)));
    }
    var cml := new CoevolutionMatrixLoader(matPath.value, open, fmt, md5);
    var i := 0;
    while i < |df.rows|
      invariant 0 <= i <= |df.rows| == |old(df.rows)|
      invariant forall j :: 0 <= j < i ==>
        df.rows[j] == old(df.rows)[j].(matrix := Present(Lookup(matPath.value, open, fmt, md5, old(df.rows)[j].sequence)))
      invariant forall j :: i <= j < |df.rows| ==> df.rows[j] == old(df.rows)[j]
    {
      var row := df.rows[i];
      df.rows := df.rows[i := row.(matrix := Present(cml.LoadCoevolutionMatrix(row.sequence)))];
      i := i + 1;
    }
    return Ok(df);
  }

  /** Loading changes only the `matrix` column, and a row whose sequence
      has no stored matrix gets `None`. */
  lemma LoadTouchesOnlyMatrix(matPath: Option<string>, rows: seq<Row>, maxLoad: int,
                              open: string -> map<string, Dataset>, fmt: MatrixFormat,
                              md5: string -> string, i: nat)
    requires LoadMatricesResult(matPath, rows, maxLoad, open, fmt, md5).Ok?
    requires i < |rows|
    ensures var r := LoadMatricesResult(matPath, rows, maxLoad, open, fmt, md5).value;
      |r| == |rows| && r[i].sequence == rows[i].sequence && r[i].columns == rows[i].columns &&
      (md5(rows[i].sequence) !in open(matPath.value) ==> r[i].matrix == Present(None))
  {
  }

  /** Both checks come before anything is loaded: an unset path fails
      whatever the rows, and too many rows fail whatever the store. */
  lemma LoadChecksFirst(rows: seq<Row>, maxLoad: int, matPath: string,
                        open: string -> map<string, Dataset>, fmt: MatrixFormat,
                        md5: string -> string)
    ensures LoadMatricesResult(None, rows, maxLoad, open, fmt, md5) == Err(AssertionError(MatPathError))
    ensures |rows| > maxLoad ==>
      LoadMatricesResult(Some(matPath), rows, maxLoad, open, fmt, md5) ==
        Err(AssertionError(MaxLoadError(|rows|, maxLoad)))
    ensures LoadMatricesResult(Some(matPath), rows, maxLoad, open, fmt, md5).Ok? <==> |rows| <= maxLoad
  {
  }

  // ---------------------------------------------------------------------
  // The shared find pipeline

  /** Every row with a `matrix` column holding `None`. */
  function WithNullMatrix(rows: seq<Row>): (r: seq<Row>)
    ensures |r| == |rows|
    ensures forall i :: 0 <= i < |rows| ==>
      r[i] == Row(rows[i].sequence, rows[i].columns, Present(None))
  {
    seq(|rows|, i requires 0 <= i < |rows| => rows[i].(matrix := Present(None)))
  }

  /** Validate, then build, then query; every returned row's `matrix` is
      `None`. */
  function FindRows(dbPath: string, cd: Option<Dict>, kwargs: Dict, exec: Executor): Result<seq<Row>> {
    var constraints :- ValidFindParams(cd, kwargs);
    var rows :- exec(dbPath, Query(constraints));
    Ok(WithNullMatrix(rows))
  }

  /** The database is asked only for validated constraints, in the order
      they were given, and a rejected key means it is not asked at all. */
  lemma FindRowsQueriesValidated(dbPath: string, cd: Option<Dict>, kwargs: Dict, exec: Executor)
    ensures ValidFindParams(cd, kwargs).Err? ==>
      FindRows(dbPath, cd, kwargs, exec) == Err(ValidFindParams(cd, kwargs).error)
    ensures ValidFindParams(cd, kwargs).Ok? ==>
      var q := Query(ValidFindParams(cd, kwargs).value);
      (FindRows(dbPath, cd, kwargs, exec).Ok? <==> exec(dbPath, q).Ok?) &&
      (FindRows(dbPath, cd, kwargs, exec).Ok? ==>
         FindRows(dbPath, cd, kwargs, exec).value == WithNullMatrix(exec(dbPath, q).value))
  {
  }

  /** The pipeline `find` runs: validate, build, query, then set the
      `matrix` column of the fresh result frame to `None`. */
  method FindFrame(dbPath: string, cd: Option<Dict>, kwargs: Dict, exec: Executor) returns (r: Result<Frame>)
    ensures r.Ok? <==> FindRows(dbPath, cd, kwargs, exec).Ok?
    ensures r.Ok? ==> fresh(r.value) && r.value.rows == FindRows(dbPath, cd, kwargs, exec).value
    ensures r.Err? ==> r.error == FindRows(dbPath, cd, kwargs, exec).error
  {
    var constraints :- GetValidFindParams(cd, kwargs);
    var query := BuildQueryFromConstraints(constraints);
    var rows :- exec(dbPath, query);
    var frame := new Frame(rows);
    frame.rows := WithNullMatrix(frame.rows);
    return Ok(frame);
  }

  /** Keyword arguments that are all registry names reach the database, and
      whatever it selects comes back with `matrix` set to `None`. */
  lemma FindAcceptsRegisteredKeys(dbPath: string, kwargs: Dict, exec: Executor)
    requires KeySet(kwargs) <= Names()
    requires exec(dbPath, Query(kwargs)).Ok?
    ensures FindRows(dbPath, None, kwargs, exec) == Ok(WithNullMatrix(exec(dbPath, Query(kwargs)).value))
  {
    ValidFindParamsIff(None, kwargs);
  }
}

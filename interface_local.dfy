/** The local interface `PyComLocal`: construction, `find` and
    `load_matrices`. Its `paginate` is the same function as
    `PyCom.paginate`. Its `find` passes an extra `remote=False` keyword to
    the validator; the validator files that keyword with the constraints,
    so the call as written can never succeed. */
module InterfaceLocal {
  import opened Py
  import opened SelectorParams
  import opened FindHelper
  import opened FormatUtil
  import Interface

  class PyComLocal {
    const dbPath: string
    const matPath: Option<string>

    constructor (dbPath: string, matPath: Option<string>)
      ensures this.dbPath == dbPath && this.matPath == matPath
    {
      this.dbPath := dbPath;
      this.matPath := matPath;
    }

    /** `PyComLocal(db_path, mat_path)`: both paths go through `user_path`,
        and a missing database path is refused. */
    static method Create(dbPath: Option<string>, matPath: Option<string>,
                         expand: string -> string) returns (r: Result<PyComLocal>)
      ensures r.Err? <==> dbPath.None?
      ensures r.Err? ==> r.error == AssertionError(Interface.DbPathError)
      ensures r.Ok? ==> fresh(r.value) && Some(r.value.dbPath) == UserPath(dbPath, expand)
      ensures r.Ok? ==> r.value.matPath == UserPath(matPath, expand)
    {
      var db := UserPath(dbPath, expand);
      if db.None? {
        return Err(AssertionError(Interface.DbPathError));
      }
      var c := new PyComLocal(db.value, UserPath(matPath, expand));
      return Ok(c);
    }

    /** `find`, as evidently intended: the constraints are validated as the
        dict or the keyword arguments (not both), then built and queried;
        every row of the new frame has `matrix` set to `None`. */
    method Find(cd: Option<Dict>, kwargs: Dict, exec: Executor) returns (r: Result<Frame>)
      ensures r.Ok? <==> FindRows(dbPath, cd, kwargs, exec).Ok?
      ensures r.Ok? ==> fresh(r.value) && r.value.rows == FindRows(dbPath, cd, kwargs, exec).value
      ensures r.Ok? ==> forall i :: 0 <= i < |r.value.rows| ==> r.value.rows[i].matrix == Present(None)
      ensures r.Err? ==> r.error == FindRows(dbPath, cd, kwargs, exec).error
    {
      r := FindFrame(dbPath, cd, kwargs, exec);
    }

    /** `load_matrices`: the path and ceiling checks, then the frame's
        `matrix` column is overwritten in place with one lookup per row. */
    method LoadMatrices(df: Frame, maxLoad: int, fmt: MatrixFormat,
                        open: string -> map<string, Dataset>, md5: string -> string) returns (r: Result<Frame>)
      modifies df
      ensures r.Ok? ==> r.value == df
      ensures r.Err? ==> df.rows == old(df.rows)
      ensures r.Ok? <==> LoadMatricesResult(matPath, old(df.rows), maxLoad, open, fmt, md5).Ok?
      ensures r.Ok? ==> df.rows == LoadMatricesResult(matPath, old(df.rows), maxLoad, open, fmt, md5).value
      ensures r.Err? ==> r.error == LoadMatricesResult(matPath, old(df.rows), maxLoad, open, fmt, md5).error
    {
      r := LoadMatricesInto(matPath, df, maxLoad, open, fmt, md5);
    }
  }

  /** The first of the caller's keyword names that clashes with a keyword
      the call already passes explicitly. */
  function FirstClash(kwargs: Dict): (r: Option<string>)
    ensures r.Some? ==> r.value in {"remote", "constraint_dict"} && r.value in KeySet(kwargs)
    ensures r.None? ==> "remote" !in KeySet(kwargs) && "constraint_dict" !in KeySet(kwargs)
    decreases |kwargs|
  {
    if kwargs == [] then None
    else if kwargs[0].0 == "remote" || kwargs[0].0 == "constraint_dict" then Some(kwargs[0].0)
    else
      KeySetCons(kwargs[0], kwargs[1..]);
      assert [kwargs[0]] + kwargs[1..] == kwargs;
      FirstClash(kwargs[1..])
  }

  /** `get_valid_find_params(remote=False, constraint_dict=cd, **kwargs)`, as
      `PyComLocal.find` calls it: a caller keyword named `remote` or
      `constraint_dict` is a duplicate keyword; otherwise `remote` lands
      first among the validator's keyword arguments. */
  function LocalFindParamsAsWritten(cd: Option<Dict>, kwargs: Dict): Result<Dict> {
    match FirstClash(kwargs)
    case Some(k) => Err(TypeError("get_valid_find_params() got multiple values for keyword argument '" + k + "'"))
    case None => ValidFindParams(cd, [("remote", Bool(false))] + kwargs)
  }

  /** The discrepancy: as written, validation in `PyComLocal.find` fails for
      every input, with or without a dict; the corrected `Find` accepts, for
      instance, no constraints at all. */
  lemma LocalFindAsWrittenAlwaysFails(cd: Option<Dict>, kwargs: Dict)
    ensures LocalFindParamsAsWritten(cd, kwargs).Err?
    ensures FirstClash(kwargs).None? && cd.Some? ==>
      LocalFindParamsAsWritten(cd, kwargs) == Err(AssertionError(BothGivenError))
    ensures FirstClash(kwargs).None? && cd.None? ==>
      LocalFindParamsAsWritten(cd, kwargs) == Err(AssertionError(UndefinedKeyError("remote")))
    ensures ValidFindParams(None, []) == Ok([])
  {
    if FirstClash(kwargs).None? && cd.None? {
      var d := [("remote", Bool(false))] + kwargs;
      NotRemote();
      FirstUnknownAt(d, Names(), 0);
    }
  }

  /** `remote` is not a registry name. */
  lemma NotRemote()
    ensures "remote" !in Names()
  {
    assert FromValue("remote").None?;
  }
}

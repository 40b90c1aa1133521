/** The `find` route of the web server: the request data is the query
    string overridden by the JSON body; the output controls `matrix`,
    `page` and `page_size` are popped from it; every remaining key must be
    a registry name; then the shared interface finds, paginates, loads or
    drops the matrices, and the page metadata is computed. */
module BackEnd {
  import opened Py
  import opened SelectorParams
  import opened ConstraintsUtils
  import opened FindHelper
  import opened Interface

  /** The request body: none, one the JSON parser rejects, or an object. */
  datatype Body = NoBody | Malformed | Object(fields: Dict)

  datatype Response = Response(
    results: seq<Row>,
    page: int,
    totalPages: int,
    resultCount: nat,
    showing: string)

  /** The `max_load` default of `load_matrices`. */
  const MaxLoad := 1000

  const InvalidJsonError := "Invalid JSON body"
  const MatrixPageSizeError := "page_size cannot be larger than 10 when loading matrices"

  /** The request data: the query-string arguments, updated with the body's
      fields. */
  function MergedData(args: Dict, body: Body): Result<Dict> {
    match body
    case NoBody => Ok(args)
    case Malformed => Err(AssertionError(InvalidJsonError))
    case Object(fields) => Ok(Update(args, fields))
  }

  /** The parsed output controls and the remaining constraints. */
  datatype Controls = Controls(loadMatrices: bool, page: int, pageSize: int, constraints: Dict)

  /** Merging, then the three pops with their coercions, in order. The
      defaults of `page` and `page_size` are the values the framework parsed
      from the query string. */
  function ParseRequest(args: Dict, body: Body, page0: int, pageSize0: int): Result<Controls> {
    var data :- MergedData(args, body);
    var load :- ToBool(PopValue(data, "matrix", Bool(false)), "matrix parameter");
    var data1 := Remove(data, "matrix");
    var page :- ToInt(PopValue(data1, "page", Int(page0)), "page parameter");
    var data2 := Remove(data1, "page");
    var pageSize :- ToInt(PopValue(data2, "page_size", Int(pageSize0)), "page_size parameter");
    Ok(Controls(load, page, pageSize, Remove(data2, "page_size")))
  }

  /** Every row without its `matrix` column. */
  function DropMatrix(rows: seq<Row>): (r: seq<Row>)
    ensures |r| == |rows|
    ensures forall i :: 0 <= i < |rows| ==> r[i] == Row(rows[i].sequence, rows[i].columns, Absent)
  {
    seq(|rows|, i requires 0 <= i < |rows| => rows[i].(matrix := Absent))
  }

  /** `f'{(page-1)*page_size+1}-{min(page*page_size, count)}'`. */
  function Showing(page: int, pageSize: int, count: nat): string {
    IntToString((page - 1) * pageSize + 1) + "-" + IntToString(Min(page * pageSize, count))
  }

  /** The whole route, as a function of the request and the server's
      `PyCom` instance. */
  function FindRoute(args: Dict, body: Body, page0: int, pageSize0: int, pyc: PyCom,
                     exec: Executor, open: string -> map<string, Dataset>,
                     md5: string -> string): Result<Response>
  {
    var c :- ParseRequest(args, body, page0, pageSize0);
    RespondTo(c, pyc, exec, open, md5)
  }

  /** The route once the controls are parsed: the key check, the page size
      cap, then the response. The cap also refuses a negative page size,
      which as written slips past it (see `RespondToAsWritten`). */
  function RespondTo(c: Controls, pyc: PyCom, exec: Executor,
                     open: string -> map<string, Dataset>, md5: string -> string): Result<Response>
  {
    var invalid := KeySet(c.constraints) - Names();
    if invalid != {} then Err(InvalidParameters(invalid))
    else if c.loadMatrices && (c.pageSize > 10 || c.pageSize < 0) then Err(AssertionError(MatrixPageSizeError))
    else FoundResponse(c, pyc, exec, open, md5)
  }

  /** The route after parsing as written: the cap only checks
      `page_size <= 10`. */
  function RespondToAsWritten(c: Controls, pyc: PyCom, exec: Executor,
                              open: string -> map<string, Dataset>, md5: string -> string): Result<Response>
  {
    var invalid := KeySet(c.constraints) - Names();
    if invalid != {} then Err(InvalidParameters(invalid))
    else if c.loadMatrices && c.pageSize > 10 then Err(AssertionError(MatrixPageSizeError))
    else FoundResponse(c, pyc, exec, open, md5)
  }

  /** Past the checks: find the rows, then answer with one page of them. */
  function FoundResponse(c: Controls, pyc: PyCom, exec: Executor,
                         open: string -> map<string, Dataset>, md5: string -> string): Result<Response>
  {
    var entries :- FindRows(pyc.dbPath, Some(c.constraints), [], exec);
    PageOf(c, entries, pyc, open, md5)
  }

  /** Paginate the found rows, load or drop the matrices, add the metadata. */
  function PageOf(c: Controls, entries: seq<Row>, pyc: PyCom,
                  open: string -> map<string, Dataset>, md5: string -> string): Result<Response>
  {
    var selection :- PyCom.Paginate(entries, c.page, c.pageSize);
    var results :- SelectionResults(c.loadMatrices, selection, pyc, open, md5);
    PageResponse(results, c.page, c.pageSize, |entries|)
  }

  /** The selected rows with matrices loaded (in JSON format), or with the
      `matrix` column dropped. */
  function SelectionResults(load: bool, selection: seq<Row>, pyc: PyCom,
                            open: string -> map<string, Dataset>, md5: string -> string): Result<seq<Row>>
  {
    if load then LoadMatricesResult(pyc.matPath, selection, MaxLoad, open, Json, md5)
    else Ok(DropMatrix(selection))
  }

  /** The response body; the page count divides by the page size. */
  function PageResponse(results: seq<Row>, page: int, pageSize: int, count: nat): Result<Response> {
    if pageSize == 0 then Err(ZeroDivisionError)
    else Ok(Response(results, page, FloorDiv(count, pageSize) + 1, count, Showing(page, pageSize, count)))
  }

  /** The request dict the route pops from. */
  class RequestData {
    var items: Dict

    constructor (items: Dict)
      ensures this.items == items
    {
      this.items := items;
    }

    /** `data.update(e)`. */
    method Update(e: Dict)
      modifies this
      ensures items == Py.Update(old(items), e)
    {
      items := Py.Update(items, e);
    }

    /** `data.pop(k, default)`. */
    method Pop(k: string, default: Raw) returns (v: Raw)
      modifies this
      ensures v == PopValue(old(items), k, default)
      ensures items == Remove(old(items), k)
    {
      v := PopValue(items, k, default);
      items := Remove(items, k);
    }
  }

  /** The route handler, step by step over a mutable request dict and the
      result frames. Each method below runs one stage of the handler as the
      source does, changing the request dict and frames in place; its
      contract ties it to the function of the same stage above, and the
      lemmas about the route, which cannot call methods, are stated on
      those functions. */
  method Find(args: Dict, body: Body, page0: int, pageSize0: int, pyc: PyCom,
              exec: Executor, open: string -> map<string, Dataset>,
              md5: string -> string) returns (r: Result<Response>)
    ensures r == FindRoute(args, body, page0, pageSize0, pyc, exec, open, md5)
  {
    var c :- ParseControls(args, body, page0, pageSize0);
    r := Respond(c, pyc, exec, open, md5);
  }

  /** Merging and popping, on the request dict. */
  method ParseControls(args: Dict, body: Body, page0: int, pageSize0: int) returns (r: Result<Controls>)
    ensures r == ParseRequest(args, body, page0, pageSize0)
  {
    var data := new RequestData(args);
    if body.Malformed? {
      return Err(AssertionError(InvalidJsonError));
    }
    if body.Object? {
      data.Update(body.fields);
    }
    var m := data.Pop("matrix", Bool(false));
    var load :- ToBool(m, "matrix parameter");
    var p := data.Pop("page", Int(page0));
    var page :- ToInt(p, "page parameter");
    var ps := data.Pop("page_size", Int(pageSize0));
    var pageSize :- ToInt(ps, "page_size parameter");
    return Ok(Controls(load, page, pageSize, data.items));
  }

  /** The checks, then find, paginate, and load or drop the matrices. */
  method Respond(c: Controls, pyc: PyCom, exec: Executor,
                 open: string -> map<string, Dataset>, md5: string -> string) returns (r: Result<Response>)
    ensures r == RespondTo(c, pyc, exec, open, md5)
  {
    var invalid := KeySet(c.constraints) - Names();
    if invalid != {} {
      return Err(InvalidParameters(invalid));
    }
    if c.loadMatrices && (c.pageSize > 10 || c.pageSize < 0) {
      return Err(AssertionError(MatrixPageSizeError));
    }
    r := RespondFound(c, pyc, exec, open, md5);
  }

  /** `pycom.find` with the remaining constraints, then one page. */
  method RespondFound(c: Controls, pyc: PyCom, exec: Executor,
                      open: string -> map<string, Dataset>, md5: string -> string) returns (r: Result<Response>)
    ensures r == FoundResponse(c, pyc, exec, open, md5)
  {
    var entries :- pyc.Find(Some(c.constraints), [], exec);
    r := RespondPage(c, entries, pyc, open, md5);
  }

  /** `pycom.paginate`, then `load_matrices` on the selection (a new frame)
      or the drop of its `matrix` column, then the page metadata. */
  method RespondPage(c: Controls, entries: Frame, pyc: PyCom,
                     open: string -> map<string, Dataset>, md5: string -> string) returns (r: Result<Response>)
    ensures r == PageOf(c, entries.rows, pyc, open, md5)
  {
    var window :- PyCom.Paginate(entries.rows, c.page, c.pageSize);
    var selection := new Frame(window);
    if c.loadMatrices {
      var loaded :- pyc.LoadMatrices(selection, MaxLoad, Json, open, md5);
    } else {
      selection := new Frame(DropMatrix(selection.rows));
    }
    if c.pageSize == 0 {
      return Err(ZeroDivisionError);
    }
    var count := |entries.rows|;
    return Ok(Response(selection.rows, c.page, FloorDiv(count, c.pageSize) + 1, count,
                       Showing(c.page, c.pageSize, count)));
  }

  // ---------------------------------------------------------------------
  // Properties of the route

  /** A key in the body overrides the same key in the query string; other
      query-string keys keep their values. */
  lemma BodyOverridesQuery(args: Dict, fields: Dict, k: string)
    requires DistinctKeys(fields)
    ensures MergedData(args, Object(fields)).Ok?
    ensures Get(MergedData(args, Object(fields)).value, k) ==
      if k in KeySet(fields) then Get(fields, k) else Get(args, k)
  {
    GetUpdate(args, fields, k);
  }

  /** The output controls are removed before the keys are checked, so the
      constraints are the request's keys without them. */
  lemma ControlsRemoved(args: Dict, body: Body, page0: int, pageSize0: int)
    requires ParseRequest(args, body, page0, pageSize0).Ok?
    ensures KeySet(ParseRequest(args, body, page0, pageSize0).value.constraints) ==
      KeySet(MergedData(args, body).value) - {"matrix", "page", "page_size"}
  {
    var data := MergedData(args, body).value;
    KeySetRemove(data, "matrix");
    KeySetRemove(Remove(data, "matrix"), "page");
    KeySetRemove(Remove(Remove(data, "matrix"), "page"), "page_size");
  }

  /** Without `page` or `page_size` in the request, the framework's values
      are used; a request value given as decimal text is parsed. Without
      `matrix`, no matrices are loaded. */
  lemma ControlDefaults(args: Dict, body: Body, page0: int, pageSize0: int)
    requires MergedData(args, body).Ok?
    requires var data := MergedData(args, body).value;
      "matrix" !in KeySet(data) && "page" !in KeySet(data) && "page_size" !in KeySet(data)
    ensures ParseRequest(args, body, page0, pageSize0) ==
      Ok(Controls(false, page0, pageSize0, MergedData(args, body).value))
  {
    var data := MergedData(args, body).value;
    RemoveAbsent(data, "matrix");
    RemoveAbsent(data, "page");
    RemoveAbsent(data, "page_size");
  }

  lemma {:induction false} RemoveAbsent(d: Dict, k: string)
    requires k !in KeySet(d)
    ensures Remove(d, k) == d
    decreases |d|
  {
    if d != [] {
      KeySetCons(d[0], d[1..]);
      assert [d[0]] + d[1..] == d;
      RemoveAbsent(d[1..], k);
    }
  }

  /** A page number sent as text, in the query string or in the body, is
      parsed as that integer. */
  lemma PageParsed(args: Dict, body: Body, page0: int, pageSize0: int, n: int)
    requires ParseRequest(args, body, page0, pageSize0).Ok?
    requires MergedData(args, body).Ok?
    requires Get(MergedData(args, body).value, "page") == Some(Str(IntToString(n)))
    ensures ParseRequest(args, body, page0, pageSize0).value.page == n
  {
    GetRemove(MergedData(args, body).value, "matrix", "page");
    ParseIntOfIntToString(n);
  }

  /** Every remaining key outside the registry is reported, all of them
      together, and only those. */
  lemma InvalidKeysReported(args: Dict, body: Body, page0: int, pageSize0: int, pyc: PyCom,
                            exec: Executor, open: string -> map<string, Dataset>,
                            md5: string -> string)
    requires ParseRequest(args, body, page0, pageSize0).Ok?
    requires ExternalErrors(exec)
    ensures var bad := KeySet(MergedData(args, body).value) - {"matrix", "page", "page_size"} - Names();
      bad != {} <==>
        FindRoute(args, body, page0, pageSize0, pyc, exec, open, md5) == Err(InvalidParameters(bad))
  {
    ControlsRemoved(args, body, page0, pageSize0);
    var c := ParseRequest(args, body, page0, pageSize0).value;
    var bad := KeySet(MergedData(args, body).value) - {"matrix", "page", "page_size"} - Names();
    assert KeySet(c.constraints) - Names() == bad;
    assert FindRoute(args, body, page0, pageSize0, pyc, exec, open, md5) == RespondTo(c, pyc, exec, open, md5);
    if bad == {} {
      assert RespondTo(c, pyc, exec, open, md5) != Err(InvalidParameters(bad)) by {
        RespondNotInvalid(c, pyc, exec, open, md5);
      }
    }
  }

  /** The database layer fails only with its own errors. */
  ghost predicate ExternalErrors(exec: Executor) {
    forall db, q :: exec(db, q).Err? ==> exec(db, q).error.External?
  }

  /** Past the key check, no failure is a report of invalid keys. */
  lemma RespondNotInvalid(c: Controls, pyc: PyCom, exec: Executor,
                          open: string -> map<string, Dataset>, md5: string -> string)
    requires KeySet(c.constraints) <= Names()
    requires ExternalErrors(exec)
    ensures RespondTo(c, pyc, exec, open, md5).Err? ==>
      !RespondTo(c, pyc, exec, open, md5).error.InvalidParameters?
  {
    FindRowsQueriesValidated(pyc.dbPath, Some(c.constraints), [], exec);
    ValidFindParamsIff(Some(c.constraints), []);
  }

  /** With matrices requested, the page size is between 0 and 10 and
      bounds the number of results. */
  lemma MatrixPageSizeCap(c: Controls, pyc: PyCom, exec: Executor,
                          open: string -> map<string, Dataset>, md5: string -> string)
    requires c.loadMatrices
    requires RespondTo(c, pyc, exec, open, md5).Ok?
    ensures 0 <= c.pageSize <= 10
    ensures |RespondTo(c, pyc, exec, open, md5).value.results| <= c.pageSize
  {
    var entries := FindRows(pyc.dbPath, Some(c.constraints), [], exec).value;
    var selection := PyCom.Paginate(entries, c.page, c.pageSize).value;
    var results := SelectionResults(true, selection, pyc, open, md5).value;
    assert |results| == |selection|;
    assert RespondTo(c, pyc, exec, open, md5).value.results == results;
    PaginateWindow(entries, c.page, c.pageSize);
  }

  /** The page size cap is checked before anything is found. */
  lemma MatrixPageSizeRejected(c: Controls, pyc: PyCom, exec: Executor,
                               open: string -> map<string, Dataset>, md5: string -> string)
    requires KeySet(c.constraints) <= Names()
    requires c.loadMatrices && (c.pageSize > 10 || c.pageSize < 0)
    ensures RespondTo(c, pyc, exec, open, md5) == Err(AssertionError(MatrixPageSizeError))
  {
  }

  /** The discrepancy: as written, `page_size = -1` (sent in the JSON body,
      which bypasses the query-string bounds) passes the cap, and the slice
      `entries[0:-1]` loads a matrix for all but the last of twelve rows. */
  lemma NegativePageSizeAsWritten(pyc: PyCom, exec: Executor, open: string -> map<string, Dataset>,
                                  md5: string -> string, rows: seq<Row>)
    requires pyc.matPath.Some?
    requires exec(pyc.dbPath, Query([])) == Ok(rows) && |rows| == 12
    ensures var c := Controls(true, 1, -1, []);
      RespondToAsWritten(c, pyc, exec, open, md5).Ok? &&
      |RespondToAsWritten(c, pyc, exec, open, md5).value.results| == 11 &&
      RespondTo(c, pyc, exec, open, md5) == Err(AssertionError(MatrixPageSizeError))
  {
    var c := Controls(true, 1, -1, []);
    assert KeySet([]) == {};
    assert ValidFindParams(Some([]), []) == Ok([]);
    var entries := WithNullMatrix(rows);
    assert FindRows(pyc.dbPath, Some([]), [], exec) == Ok(entries);
    var selection := entries[0..11];
    assert PyCom.Paginate(entries, 1, -1) == Ok(selection);
    assert SelectionResults(true, selection, pyc, open, md5).value ==
      WithMatrices(selection, pyc.matPath.value, open, Json, md5);
  }

  /** Without matrices the `matrix` column is dropped from every result;
      with them every result holds the lookup of its own sequence. */
  lemma MatrixColumnOfResults(c: Controls, pyc: PyCom, exec: Executor,
                              open: string -> map<string, Dataset>, md5: string -> string)
    requires RespondTo(c, pyc, exec, open, md5).Ok?
    ensures var rs := RespondTo(c, pyc, exec, open, md5).value.results;
      forall i :: 0 <= i < |rs| ==>
        rs[i].matrix == if c.loadMatrices then Present(Lookup(pyc.matPath.value, open, Json, md5, rs[i].sequence))
                        else Absent
  {
  }

  /** The page metadata of a successful response. */
  lemma ResponseMetadata(c: Controls, pyc: PyCom, exec: Executor,
                         open: string -> map<string, Dataset>, md5: string -> string)
    requires RespondTo(c, pyc, exec, open, md5).Ok?
    ensures var r := RespondTo(c, pyc, exec, open, md5).value;
      var entries := FindRows(pyc.dbPath, Some(c.constraints), [], exec).value;
      c.page >= 1 && c.pageSize != 0 &&
      r.page == c.page && r.resultCount == |entries| &&
      r.totalPages == FloorDiv(|entries|, c.pageSize) + 1 &&
      r.showing == Showing(c.page, c.pageSize, |entries|)
  {
  }

  /** `count // page_size + 1` pages: the last one holds record `count + 1`
      were it there, so it is never past the records. */
  lemma TotalPagesBounds(count: nat, pageSize: int)
    requires pageSize >= 1
    ensures var total := FloorDiv(count, pageSize) + 1;
      total >= 1 && (total - 1) * pageSize <= count < total * pageSize
  {
    var q := FloorDiv(count, pageSize);
    var total := q + 1;
    assert pageSize * q <= count < pageSize * q + pageSize;
    Distribute(pageSize, q);
    NonPositiveProduct(pageSize, total);
  }

  lemma Distribute(a: int, q: int)
    ensures (q + 1 - 1) * a == a * q && (q + 1) * a == a * q + a
  {
  }

  lemma NonPositiveProduct(a: int, b: int)
    requires a > 0
    ensures b <= 0 ==> b * a <= 0
  {
  }

  /** Pages 1..total hold every record. */
  lemma TotalPagesCoverAll<T>(s: seq<T>, pageSize: int)
    requires pageSize >= 1
    ensures Pages(s, pageSize, FloorDiv(|s|, pageSize) + 1) == s
  {
    var total := FloorDiv(|s|, pageSize) + 1;
    TotalPagesBounds(|s|, pageSize);
    PagesArePrefix(s, pageSize, total);
    assert s[..|s|] == s;
  }

  /** The last counted page is empty exactly when the count is a multiple
      of the page size. */
  lemma TrailingEmptyPage<T>(s: seq<T>, pageSize: int)
    requires pageSize >= 1
    ensures var total := FloorDiv(|s|, pageSize) + 1;
      |s| % pageSize == 0 <==> PyCom.Paginate(s, total, pageSize) == Ok([])
  {
    var q := FloorDiv(|s|, pageSize);
    TotalPagesBounds(|s|, pageSize);
    assert q == |s| / pageSize;
    PaginateWindow(s, q + 1, pageSize);
    assert (q + 1 - 1) * pageSize == q * pageSize;
    assert |s| == pageSize * q + |s| % pageSize;
  }

  /** On a partly filled page, `showing` gives the 1-based numbers of the
      page's first and last records. */
  lemma ShowingNamesWindow<T>(s: seq<T>, page: int, pageSize: int)
    requires page >= 1 && pageSize >= 1
    requires (page - 1) * pageSize < |s|
    ensures var w := PyCom.Paginate(s, page, pageSize).value;
      |w| >= 1 &&
      Showing(page, pageSize, |s|) ==
        IntToString((page - 1) * pageSize + 1) + "-" + IntToString((page - 1) * pageSize + |w|)
  {
    PaginateWindow(s, page, pageSize);
    assert page * pageSize == (page - 1) * pageSize + pageSize;
  }

  /** As written, the route's default for `matrix` (the bool `False`)
      reaches `to_bool`, which fails on anything that is not a string: every
      request without a `matrix` key fails. The corrected coercer reads the
      default as "no matrices". */
  lemma MatrixDefaultAsWritten(data: Dict)
    requires "matrix" !in KeySet(data)
    ensures ToBoolAsWritten(PopValue(data, "matrix", Bool(false)), "matrix parameter") ==
      Err(AttributeError("bool", "lower"))
    ensures ToBool(PopValue(data, "matrix", Bool(false)), "matrix parameter") == Ok(false)
  {
  }
}

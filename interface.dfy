/** The `PyCom` interface: construction, `find` (whose body is the shared
    pipeline), `load_matrices` and 1-indexed pagination. */
module Interface {
  import opened Py
  import opened FindHelper
  import opened FormatUtil

  const DbPathError := "db_path has to be set. `pycom.db` can be downloaded from https://pycom.brunel.ac.uk/downloads/"

  function PaginationError(page: int): Error {
    ValueError("Pagination starts at 1, not " + IntToString(page))
  }

  class PyCom {
    const dbPath: string
    const matPath: Option<string>
    const alnPath: Option<string>

    constructor (dbPath: string, matPath: Option<string>, alnPath: Option<string>)
      ensures this.dbPath == dbPath && this.matPath == matPath && this.alnPath == alnPath
    {
      this.dbPath := dbPath;
      this.matPath := matPath;
      this.alnPath := alnPath;
    }

    /** `PyCom(db_path, mat_path, aln_path)`: every path goes through
        `user_path`, and a missing database path is refused. */
    static method Create(dbPath: Option<string>, matPath: Option<string>, alnPath: Option<string>,
                         expand: string -> string) returns (r: Result<PyCom>)
      ensures r.Err? <==> dbPath.None?
      ensures r.Err? ==> r.error == AssertionError(DbPathError)
      ensures r.Ok? ==> fresh(r.value) && Some(r.value.dbPath) == UserPath(dbPath, expand)
      ensures r.Ok? ==> r.value.matPath == UserPath(matPath, expand) && r.value.alnPath == UserPath(alnPath, expand)
    {
      var db := UserPath(dbPath, expand);
      if db.None? {
        return Err(AssertionError(DbPathError));
      }
      var c := new PyCom(db.value, UserPath(matPath, expand), UserPath(alnPath, expand));
      return Ok(c);
    }

    /** `find` (`_pycom_find`): validate, build, query; every row of the new
        frame has `matrix` set to `None`. */
    method Find(cd: Option<Dict>, kwargs: Dict, exec: Executor) returns (r: Result<Frame>)
      ensures r.Ok? <==> FindRows(dbPath, cd, kwargs, exec).Ok?
      ensures r.Ok? ==> fresh(r.value) && r.value.rows == FindRows(dbPath, cd, kwargs, exec).value
      ensures r.Ok? ==> forall i :: 0 <= i < |r.value.rows| ==> r.value.rows[i].matrix == Present(None)
      ensures r.Err? ==> r.error == FindRows(dbPath, cd, kwargs, exec).error
    {
      r := FindFrame(dbPath, cd, kwargs, exec);
    }

    /** `load_matrices`: the path and ceiling checks, then the frame's
        `matrix` column is overwritten in place with one lookup per row. */
    method LoadMatrices(df: Frame, maxLoad: int, fmt: MatrixFormat,
                        open: string -> map<string, Dataset>, md5: string -> string) returns (r: Result<Frame>)
      modifies df
      ensures r.Ok? ==> r.value == df
      ensures r.Err? ==> df.rows == old(df.rows)
      ensures r.Ok? <==> LoadMatricesResult(matPath, old(df.rows), maxLoad, open, fmt, md5).Ok?
      ensures r.Ok? ==> df.rows == LoadMatricesResult(matPath, old(df.rows), maxLoad, open, fmt, md5).value
      ensures r.Err? ==> r.error == LoadMatricesResult(matPath, old(df.rows), maxLoad, open, fmt, md5).error
    {
      r := LoadMatricesInto(matPath, df, maxLoad, open, fmt, md5);
    }

    /** `paginate`: page numbers start at 1; for a non-negative page size
        the page is the clipped window `[(page-1)*perPage, page*perPage)`. */
    static function Paginate<T>(s: seq<T>, page: int, perPage: int): (r: Result<seq<T>>)
      ensures r.Err? <==> page < 1
      ensures r.Err? ==> r.error == PaginationError(page)
      ensures r.Ok? && perPage >= 0 ==>
        var lo := Min((page - 1) * perPage, |s|);
        var hi := Min(page * perPage, |s|);
        lo <= hi && r.value == s[lo..hi]
    {
      if 1 > page then Err(PaginationError(page))
      else
        MulMonotone(page - 1, page, perPage);
        Ok(PySlice(s, (page - 1) * perPage, page * perPage))
    }
  }

  function Min(a: int, b: int): int {
    if a <= b then a else b
  }

  lemma MulMonotone(a: int, b: int, c: int)
    requires 0 <= a <= b
    ensures c >= 0 ==> 0 <= a * c <= b * c
  {
  }

  /** A page that starts at or after the end is empty. */
  lemma PaginatePastEnd<T>(s: seq<T>, page: int, perPage: nat)
    requires page >= 1 && (page - 1) * perPage >= |s|
    ensures PyCom.Paginate(s, page, perPage) == Ok([])
  {
  }

  /** Page `page` holds the records numbered `(page-1)*perPage + 1` onward,
      `perPage` of them while records last. */
  lemma PaginateWindow<T>(s: seq<T>, page: int, perPage: nat)
    requires page >= 1
    ensures var r := PyCom.Paginate(s, page, perPage).value;
      |r| == Min(perPage, |s| - Min((page - 1) * perPage, |s|)) &&
      forall i :: 0 <= i < |r| ==> r[i] == s[(page - 1) * perPage + i]
  {
    MulMonotone(page - 1, page, perPage);
    assert page * perPage == (page - 1) * perPage + perPage;
  }

  /** Pages 1..k, one after the other. */
  function Pages<T>(s: seq<T>, perPage: nat, k: nat): seq<T> {
    if k == 0 then [] else Pages(s, perPage, k - 1) + PyCom.Paginate(s, k, perPage).value
  }

  /** Pages 1..k together are the first `min(n, k*perPage)` records: pages
      are disjoint, in order, and leave no gaps. */
  lemma {:induction false} PagesArePrefix<T>(s: seq<T>, perPage: nat, k: nat)
    ensures Pages(s, perPage, k) == s[..Min(k * perPage, |s|)]
  {
    if k > 0 {
      PagesArePrefix(s, perPage, k - 1);
      MulMonotone(k - 1, k, perPage);
      var lo := Min((k - 1) * perPage, |s|);
      var hi := Min(k * perPage, |s|);
      assert PyCom.Paginate(s, k, perPage).value == s[lo..hi];
      assert s[..lo] + s[lo..hi] == s[..hi];
    }
  }
}

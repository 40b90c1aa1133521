# PyCom query constraints, in Dafny

PyCom is a Python library and web server for searching a protein database
and attaching the coevolution matrix of each protein found. This project
models the part of PyCom that turns a `{parameter: value}` request into
validated constraints and then windows the result rows:

- `ProteinParams`, the closed registry of the 16 parameter names
  (module `SelectorParams`);
- the value coercers `to_int` and `to_bool`, the CATH / Enzyme code parser
  `class_param`, and the SQL fragments `organism_constraint` and
  `class_constraint` (`ConstraintsUtils`);
- the constraint template table, which gives each member its SQL fragment
  and its coercer, and its completeness assertion (`QueryConstraints`);
- `get_valid_find_params`, `build_query_from_constraints`, the matrix
  loader and the `find` / `load_matrices` steps the two interfaces share
  (`FindHelper`);
- the `PyCom` interface: its constructor, `find`, `load_matrices` and
  `paginate` (`Interface`);
- the local `PyComLocal` interface (`InterfaceLocal`);
- the web server's `/api/find` route: merging the request, popping the
  output controls, rejecting unknown keys, the page-size cap for matrices,
  and the `total_pages` / `showing` metadata (`BackEnd`);
- `strip_whitespace` and `user_path` (`FormatUtil`).

The Python built-ins these rely on are modelled in module `Py`:
- `str()` of a value, ASCII `isdigit`, `lower` and `upper`;
- `int()` on optional-sign ASCII digit strings;
- `split` on one character, and `join`;
- slicing with Python's clipping of negative and out-of-range bounds;
- floor division, and insertion-ordered dicts with `update` and `pop`.

A raw value is a string, a bool or an int (`Py.Raw`). A Python exception
is an `Error` value returned in a `Result`. Its message is the source's
message.

The database query, the HDF5 matrix file, the MD5 digest, float parsing
and home-directory expansion are function parameters of the model:
- `exec: Executor` runs a query;
- `open` maps a matrix path to the file's datasets, keyed by digest;
- `md5` is the digest;
- `isFloat` decides whether `float()` accepts a string;
- `expand` is `os.path.expanduser`.

The pandas data frames become a `Frame` class with a `rows: seq<Row>`
field. `find` creates a fresh one, and `load_matrices` rewrites its
`matrix` column in place. The route's request dict becomes a
`RequestData` class with a `Dict` field that `update` and `pop` reassign.

Four places where the code does something its authors evidently did
not intend are modelled both ways (see "## Findings"): `to_bool` on a
bool, the validation call in `PyComLocal.find`, the page-size cap on
a negative page size, and calling a `MatrixFormat` member. The rest of the model uses the corrected
behaviour.

## Model

| member | source | states |
|---|---|---|
| SelectorParams.NamesExactly | pycom/selector/selector_params.py:8-28 | the registry's names are exactly the 16 strings `uniprot_id` … `has_pdb` |
| SelectorParams.ValueInjective | pycom/selector/selector_params.py:8-28 | distinct members have distinct string values, and looking a member up by its value finds it |
| SelectorParams.NotMembers | pycom/selector/selector_params.py:30-32 | `disease`, `cofactor` and `has_pbd` are not registry names |
| SelectorParams.FromValue | pycom/selector/selector_params.py:6 | a plain string finds the member whose value it is (the `str` mix-in), and finds nothing exactly when the string is not a registry name |
| SelectorParams.FromValueOfValue | pycom/selector/selector_params.py:6-28 | looking up any member's value finds that member |
| ConstraintsUtils.OrganismConstraint | pycom/sql/constraints_utils.py:2-7 | the organism fragment ignores its argument and has exactly one `?` |
| ConstraintsUtils.ClassParam | pycom/sql/constraints_utils.py:12-32 | on a string, succeeds iff the `.`-split tokens number 1–4 and are digit strings followed only by `*`s, with a trailing `*` unless there are 4 tokens; the value is the integers of the concrete tokens, in order, and its length is the token count minus the wildcard count; the failure is the single CATH/Enzyme format error, or a missing `split` attribute on a non-string |
| ConstraintsUtils.ClassParamCorrect | pycom/sql/constraints_utils.py:23-30 | the comprehensions: after the digit check, the leading concrete tokens' integers are what remains once the wildcards are removed |
| ConstraintsUtils.ClassParamRoundTrip | pycom/sql/constraints_utils.py:19-32 | integers written dot-joined and followed by one or more `.*` (or exactly four with none) parse back to the same integers |
| ConstraintsUtils.ClassParamPadded | pycom/sql/constraints_utils.py:19-32 | up to four integers padded with `.*` to four tokens parse back to the same integers |
| ConstraintsUtils.WildcardBeforeConcrete | pycom/sql/constraints_utils.py:27-28 | a `*` followed later by a digit token is refused |
| ConstraintsUtils.ClassParamRejectsShort | pycom/sql/constraints_utils.py:22 | example: `"3"` is refused with the format error |
| ConstraintsUtils.ClassParamRejectsUnpadded | pycom/sql/constraints_utils.py:22 | example: `"3.40.50"` is refused with the format error |
| ConstraintsUtils.ClassParamRejectsGap | pycom/sql/constraints_utils.py:27-28 | example: `"3.*.50.*"` is refused with the format error |
| ConstraintsUtils.ClassParamRejectsLong | pycom/sql/constraints_utils.py:21 | example: `"1.2.3.4.5"` is refused with the format error |
| ConstraintsUtils.ClassParamRejectsNonString | pycom/sql/constraints_utils.py:19 | example: a bool has no `split` attribute |
| ConstraintsUtils.ClassParamAcceptsPadded | pycom/sql/constraints_utils.py:19-32 | example: `"3.40.*.*"` gives `[3, 40]` |
| ConstraintsUtils.ClassTests | pycom/sql/constraints_utils.py:52-54 | the i-th test is `{t}_class.{t}_i = ?`, for i = 1..n |
| ConstraintsUtils.ClassConstraint | pycom/sql/constraints_utils.py:35-59 | succeeds iff the entry type is `cath` or `enzyme` and the argument is a list; the fragment is the one subquery over those tests joined by ` AND ` and has exactly as many `?` as the list has elements; each failure carries its assertion message |
| ConstraintsUtils.ClassQueryPlaceholders | pycom/sql/constraints_utils.py:46-57 | the subquery text contributes no `?` beyond the n tests |
| ConstraintsUtils.ToInt | pycom/sql/constraints_utils.py:62-67 | a digit string (optionally signed) or an int is accepted and a bool is 0 or 1; anything else fails with `{entry} must be an integer` |
| ConstraintsUtils.ToIntRoundTrip | pycom/sql/constraints_utils.py:62-65 | the decimal text of any integer parses back to it |
| ConstraintsUtils.ToFloat | pycom/sql/constraints_utils.py:70-75 | accepted exactly when `float()` would accept; otherwise fails with `{entry} must be a float` |
| ConstraintsUtils.ToBoolAsWritten | pycom/sql/constraints_utils.py:78-88 | on a string: true for `true/t/yes/y/1` and false for `false/f/no/n/0`, in any case; any other string fails with the boolean error message; a non-string has no `lower` attribute |
| ConstraintsUtils.ToBool | pycom/sql/constraints_utils.py:78-88 | the corrected coercer: a bool is taken as it is; on strings, both directions of the true/false spellings, and the boolean error for any other string |
| ConstraintsUtils.ToBoolAgreesOnStrings | pycom/sql/constraints_utils.py:83-88 | the corrected and the as-written coercer agree on every string |
| ConstraintsUtils.ToBoolAsWrittenRejectsBools | pycom/sql/constraints_utils.py:85 | as written, `to_bool(True)` and `to_bool(False)` fail |
| ConstraintsUtils.ToBoolIgnoresCase | pycom/sql/constraints_utils.py:85 | upper-casing the input does not change the result |
| QueryConstraints.TemplateComplete | pycom/sql/query_constraints.py:88-91 | the merged table's keys are exactly the registry's members, and the three tables are pairwise disjoint, so no entry overrides another |
| QueryConstraints.SimpleKeys | pycom/sql/query_constraints.py:12-31 | the simple table covers `uniprot_id`, `sequence`, `min_length`, `max_length` |
| QueryConstraints.StructKeys | pycom/sql/query_constraints.py:33-70 | the structural table covers the six fractions and the three flags |
| QueryConstraints.SpecialKeys | pycom/sql/query_constraints.py:72-85 | the special table covers `organism`, `cath`, `enzyme` |
| QueryConstraints.MergedKeys | pycom/sql/query_constraints.py:88-91 | the merged table's keys are the registry's members |
| QueryConstraints.SimpleStructDisjoint | pycom/sql/query_constraints.py:12-70 | no member is both simple and structural |
| QueryConstraints.SpecialDisjoint | pycom/sql/query_constraints.py:12-85 | no special member is also simple or structural |
| QueryConstraints.TemplateOfMerged | pycom/sql/query_constraints.py:88 | every member has an entry in the merged table, and it is the template of the table that holds it |
| QueryConstraints.TemplateOf | pycom/sql/query_constraints.py:88 | a member's template, from the one table that holds it; `TemplateOfMerged` proves it is the merged table's entry |
| QueryConstraints.TemplateFor | pycom/sql/query_constraints.py:88-91 | a plain-string key finds a template exactly when it is a registry name |
| QueryConstraints.Coerce | pycom/sql/query_constraints.py:13-84 | each coercer's result: `str`, upper-cased `str`, `%:x:%`, the `to_int` / `to_float` / `to_bool` acceptance and bound value with their messages naming the member, and the `class_param` list |
| QueryConstraints.SimpleTemplate | pycom/sql/query_constraints.py:12-31 | every simple fragment is a constant `column op ?` with no `?` in the column or operator |
| QueryConstraints.StructTemplate | pycom/sql/query_constraints.py:33-70 | every structural fragment is a constant `column op ?` with no `?` in the column or operator |
| QueryConstraints.ConstantTemplate | pycom/sql/query_constraints.py:13-69 | every simple and structural member has a constant comparison template and does not use `class_param` |
| QueryConstraints.ConstantFragments | pycom/sql/query_constraints.py:13-69 | those fragments do not depend on the value, hold exactly one `?`, and their coercers bind exactly one value |
| QueryConstraints.MinMaxPairs | pycom/sql/query_constraints.py:23-57 | each `min_*` / `max_*` pair compares the same column with `>=` / `<=` |
| QueryConstraints.LengthPair | pycom/sql/query_constraints.py:23-30 | `min_length` / `max_length` compare `entry.sequenceLength` with `>=` / `<=` and use `to_int` |
| QueryConstraints.FractionPairs | pycom/sql/query_constraints.py:34-57 | the six fraction bounds compare their column with `>=` / `<=` and use `to_float` |
| QueryConstraints.SequenceCoercer | pycom/sql/query_constraints.py:18-21 | the sequence is bound upper-cased |
| QueryConstraints.IdCoercer | pycom/sql/query_constraints.py:13-17 | the UniProt id string is bound unchanged |
| QueryConstraints.OrganismCoercer | pycom/sql/query_constraints.py:73-76 | the organism uses `organism_constraint` and binds `'%:' + x + ':%'` |
| QueryConstraints.FlagTemplates | pycom/sql/query_constraints.py:58-69 | `has_ptm`, `has_substrate`, `has_pdb` compare `entry.<flag> = ?` and use `to_bool` |
| QueryConstraints.SpecialTemplates | pycom/sql/query_constraints.py:72-85 | `organism` uses `organism_constraint` and the `%:x:%` pattern; `cath` and `enzyme` use `class_constraint` with their entry type and `class_param` |
| QueryConstraints.SpecialFragments | pycom/sql/query_constraints.py:72-85 | for the organism, CATH and Enzyme members, an accepted value gives a fragment with exactly as many `?` as bound values |
| QueryConstraints.Fragment | pycom/sql/query_constraints.py:14-83 | a template's `constraint` applied to the coerced value; its placeholder count is stated by `ConstantFragments`, `SpecialFragments` and `PlaceholdersMatchBoundValues` |
| QueryConstraints.PlaceholdersMatchBoundValues | pycom/sql/query_constraints.py:12-85 | whenever a member's coercer accepts a value, its fragment exists and has exactly as many `?` as values are bound |
| FindHelper.FirstUnknown | pycom/interface/_find_helper.py:29-31 | the first key in iteration order that is not a valid name, or none exactly when every key is one |
| FindHelper.CheckKeys | pycom/interface/_find_helper.py:29-31 | the checking loop stops at exactly that first key, or finds none |
| FindHelper.ValidFindParams | pycom/interface/_find_helper.py:12-33 | the validation's outcome: the both-inputs assertion, then the first undefined key, else the chosen dict; its properties are the lemmas below |
| FindHelper.GetValidFindParams | pycom/interface/_find_helper.py:12-33 | the assertion and the loop compute the validation's result |
| FindHelper.BothGivenRejected | pycom/interface/_find_helper.py:20 | a dict together with non-empty keyword arguments is refused |
| FindHelper.KwargsBecomeConstraints | pycom/interface/_find_helper.py:22-27 | without a dict the keyword arguments are validated as the dict; an empty dict is accepted |
| FindHelper.ValidFindParamsIff | pycom/interface/_find_helper.py:20-33 | validation succeeds iff not both inputs are given and every chosen key is a registry name |
| FindHelper.FirstUnknownKeyNamed | pycom/interface/_find_helper.py:29-31 | the error names the first unknown key |
| FindHelper.ValidParamsUnchanged | pycom/interface/_find_helper.py:33 | on success, the chosen dict is returned unchanged |
| FindHelper.QueryBuilder.AddConstraint | pycom/interface/_find_helper.py:42 | one constraint is appended to the builder |
| FindHelper.BuildQueryFromConstraints | pycom/interface/_find_helper.py:36-43 | the builder receives every item of the dict, in iteration order |
| FindHelper.CoevolutionMatrixLoader.constructor | pycom/interface/_find_helper.py:71-78 | the loader keeps the path, the opened file and the formatter |
| FindHelper.CoevolutionMatrixLoader.LoadCoevolutionMatrix | pycom/interface/_find_helper.py:80-89 | a matrix exactly when the digest of the sequence is in the file, the format's conversion applied to that entry; a miss is `None` |
| FindHelper.CoevolutionMatrixLoader.LoadCoevolutionMatrixAsWritten | pycom/interface/_find_helper.py:80-89 | as written: a miss is `None`; a hit succeeds exactly for `JSON`, with the corrected result, and otherwise fails with `'MatrixFormat' object is not callable` |
| FindHelper.DefaultFormatFailsOnHit | pycom/interface/_find_helper.py:74-87 | with the default `NUMPY` a stored matrix makes the as-written loader fail where the corrected one returns it; with `JSON`, the route's format, the two agree |
| FindHelper.Lookup | pycom/interface/_find_helper.py:80-89 | the same lookup on the loader's arguments: this is the form `WithMatrices` uses, and `LoadMatricesInto`'s loop ties it to the loader |
| FindHelper.WithMatrices | pycom/interface/interface.py:151 | every row's `matrix` becomes the lookup of its own sequence, nothing else changes |
| FindHelper.LoadMatricesResult | pycom/interface/interface.py:143-151 | the path check, then the `max_load` check, then the rows with their matrices; stated by `LoadChecksFirst` and `LoadTouchesOnlyMatrix` |
| FindHelper.LoadMatricesInto | pycom/interface/interface.py:143-153 | the frame's rows become the result of the checks and the lookups; on failure the frame is unchanged |
| FindHelper.LoadTouchesOnlyMatrix | pycom/interface/interface.py:151 | after loading, each row keeps its sequence and columns, and its matrix is the lookup of its sequence |
| FindHelper.LoadChecksFirst | pycom/interface/interface.py:143-149 | a missing `mat_path` and a row count above `max_load` fail before any lookup; otherwise loading succeeds |
| FindHelper.WithNullMatrix | pycom/interface/interface.py:219 | every row's `matrix` is `None`, nothing else changes |
| FindHelper.FindRows | pycom/interface/interface.py:212-219 | validate, build the query, run it, set `matrix` to `None`; stated by `FindRowsQueriesValidated` and `FindAcceptsRegisteredKeys` |
| FindHelper.FindRowsQueriesValidated | pycom/interface/interface.py:212-219 | the database is asked only for the validated constraints, and not at all on a rejected key |
| FindHelper.FindFrame | pycom/interface/interface.py:203-221 | a fresh frame holding the found rows, or the pipeline's error |
| FindHelper.FindAcceptsRegisteredKeys | pycom/interface/interface.py:212-219 | keyword arguments that are all registry names reach the database and come back with `matrix = None` |
| Interface.PyCom.Create | pycom/interface/interface.py:45-56 | fails iff `db_path` is `None`; otherwise every path goes through `user_path` |
| Interface.PyCom.Find | pycom/interface/interface.py:203-224 | the found rows in a fresh frame, every `matrix` `None` |
| Interface.PyCom.LoadMatrices | pycom/interface/interface.py:127-153 | the checks, then the `matrix` column rewritten in place; the frame is returned |
| Interface.PyCom.Paginate | pycom/interface/interface.py:155-170 | fails with `Pagination starts at 1, not {page}` iff `page < 1`; otherwise, for a non-negative page size, the window `[(page-1)*per_page, min(page*per_page, n))` clipped to the records |
| Interface.PaginatePastEnd | pycom/interface/interface.py:170 | a page starting past the end is empty |
| Interface.PaginateWindow | pycom/interface/interface.py:170 | a page holds `min(per_page, remaining)` records, the i-th being record `(page-1)*per_page + i` |
| Interface.PagesArePrefix | pycom/interface/interface.py:170 | pages 1..k concatenated are the first `min(n, k*per_page)` records, so pages are disjoint and in order |
| InterfaceLocal.PyComLocal.Create | pycom/interface/interface_local.py:51-60 | fails iff `db_path` is `None`; otherwise both paths go through `user_path` |
| InterfaceLocal.PyComLocal.Find | pycom/interface/interface_local.py:110-119 | `find` as evidently intended: the found rows in a fresh frame, every `matrix` `None` |
| InterfaceLocal.PyComLocal.LoadMatrices | pycom/interface/interface_local.py:121-147 | the checks, then the `matrix` column rewritten in place; on failure the frame is unchanged |
| InterfaceLocal.FirstClash | pycom/interface/interface_local.py:111 | a caller keyword that duplicates one the call passes explicitly |
| InterfaceLocal.LocalFindParamsAsWritten | pycom/interface/interface_local.py:111 | the call as written: a duplicate caller keyword is a `TypeError`; otherwise `remote` is the first keyword constraint; `LocalFindAsWrittenAlwaysFails` states the outcome |
| InterfaceLocal.LocalFindAsWrittenAlwaysFails | pycom/interface/interface_local.py:111 | as written, validation in `PyComLocal.find` fails on every input |
| InterfaceLocal.NotRemote | pycom/interface/interface_local.py:111 | `remote` is not a registry name |
| BackEnd.MergedData | server/back_end.py:50-55 | the query-string dict, updated with an object body; a body the parser rejects fails; stated by `BodyOverridesQuery` |
| BackEnd.ParseRequest | server/back_end.py:50-60 | merging, then the three pops with their coercions; stated by `ControlsRemoved`, `ControlDefaults` and `PageParsed` |
| BackEnd.FindRoute | server/back_end.py:50-88 | the whole route: parse, then respond; the properties of the route are the lemmas below |
| BackEnd.RespondTo | server/back_end.py:62-88 | the corrected route after parsing: the key check, the cap of 0..10 with matrices, then the response; stated by `InvalidKeysReported`, `RespondNotInvalid`, `MatrixPageSizeCap` and `MatrixPageSizeRejected` |
| BackEnd.RespondToAsWritten | server/back_end.py:62-88 | the same with the cap as written (`page_size <= 10` only); `NegativePageSizeAsWritten` exhibits the difference |
| BackEnd.FoundResponse | server/back_end.py:71-88 | `find` with the constraints as the dict, then one page |
| BackEnd.PageOf | server/back_end.py:72-88 | paginate, load or drop the matrices, then the metadata; stated by `MatrixColumnOfResults` and `ResponseMetadata` |
| BackEnd.PageResponse | server/back_end.py:82-88 | the response body, `count // page_size + 1` pages, and a zero page size a division error; stated by `TotalPagesBounds`, `TotalPagesCoverAll` and `TrailingEmptyPage` |
| BackEnd.Showing | server/back_end.py:87 | the `showing` text; `ShowingNamesWindow` states what it names |
| BackEnd.DropMatrix | server/back_end.py:76-77 | every row loses its `matrix` column, nothing else changes |
| BackEnd.RequestData.Update | server/back_end.py:55 | the request dict updated with the body's fields |
| BackEnd.RequestData.Pop | server/back_end.py:58-60 | the popped value (or the default) and the dict without that key |
| BackEnd.Find | server/back_end.py:37-93 | the handler computes the route's result |
| BackEnd.ParseControls | server/back_end.py:50-60 | merging and popping compute the parsed controls |
| BackEnd.Respond | server/back_end.py:62-88 | the checks and the response computed step by step |
| BackEnd.RespondFound | server/back_end.py:71-88 | `find`, then one page |
| BackEnd.RespondPage | server/back_end.py:72-88 | paginate, load or drop, then the metadata |
| BackEnd.BodyOverridesQuery | server/back_end.py:50-55 | a body key overrides the same query-string key; other keys keep their values |
| BackEnd.ControlsRemoved | server/back_end.py:58-60 | the constraints are the request's keys without `matrix`, `page` and `page_size` |
| BackEnd.ControlDefaults | server/back_end.py:58-60 | without the three keys, no matrices and the framework's page and page size |
| BackEnd.PageParsed | server/back_end.py:50-59 | a page sent as decimal text, in the query string or the body, with or without `matrix`, is parsed to that integer |
| BackEnd.InvalidKeysReported | server/back_end.py:63-64 | the route fails reporting the remaining non-registry keys iff there are any, all of them together |
| BackEnd.RespondNotInvalid | server/back_end.py:63-88 | past the key check, no failure is a report of invalid keys |
| BackEnd.MatrixPageSizeCap | server/back_end.py:66-77 | with matrices requested, a response means a page size between 0 and 10, and at most that many results |
| BackEnd.MatrixPageSizeRejected | server/back_end.py:66-67 | with matrices requested, a page size above 10 is refused before anything is found |
| BackEnd.NegativePageSizeAsWritten | server/back_end.py:66-74 | as written, page size `-1` with matrices passes the cap and loads 11 matrices out of 12 rows |
| BackEnd.MatrixColumnOfResults | server/back_end.py:74-77 | without matrices every result lacks the column; with them each holds the lookup of its own sequence |
| BackEnd.ResponseMetadata | server/back_end.py:82-88 | a response carries the page, the count, `count // page_size + 1` pages and the `showing` text |
| BackEnd.TotalPagesBounds | server/back_end.py:85 | `total_pages` is at least 1, and page `total_pages` is the one that would hold record `count + 1` |
| BackEnd.TotalPagesCoverAll | server/back_end.py:85 | pages 1..`total_pages` hold every record |
| BackEnd.TrailingEmptyPage | server/back_end.py:85 | the last counted page is empty iff the count is a multiple of the page size |
| BackEnd.ShowingNamesWindow | server/back_end.py:87 | on a non-empty page, `showing` names the 1-based numbers of the page's first and last records |
| BackEnd.MatrixDefaultAsWritten | server/back_end.py:58 | as written, the default `False` for `matrix` makes `to_bool` fail; the corrected coercer reads it as no matrices |
| FormatUtil.Words | pycom/util/format_util.py:59 | every piece of `split()` is a non-empty run without whitespace |
| FormatUtil.WordsKeepCharacters | pycom/util/format_util.py:59 | the pieces hold exactly the non-whitespace characters, in order |
| FormatUtil.WordsOfJoin | pycom/util/format_util.py:59 | words joined by single spaces split back into the same words |
| FormatUtil.StripWhitespace | pycom/util/format_util.py:57-59 | the words joined by single spaces; stated by `StripKeepsWords`, `StripIdempotent` and `StripShape` |
| FormatUtil.StripKeepsWords | pycom/util/format_util.py:57-59 | `strip_whitespace` keeps the words, and so every non-whitespace character, exactly |
| FormatUtil.StripIdempotent | pycom/util/format_util.py:57-59 | `strip_whitespace` is idempotent |
| FormatUtil.StripShape | pycom/util/format_util.py:57-59 | its only whitespace is `' '`, never at either end and never twice in a row |
| FormatUtil.UserPath | pycom/util/format_util.py:67-73 | `None` stays `None`; a path starting with `~` is expanded; any other path is unchanged |

## Left out

- `pycom/sql/query_builder.py` is not part of this model. The builder records its `add_constraint` calls in order, and the query is that record. How the fragments are joined into SQL, and when each coercer runs, are not modelled.
- Running SQL (`query_db`) and the result columns are the `Executor` parameter. `BackEnd.InvalidKeysReported` assumes that its failures are database errors.
- The HDF5 file is the `open` parameter, a map from digest to dataset. The MD5 digest is the uninterpreted `md5` parameter.
- Float parsing is the `isFloat` parameter, and a float is kept as its raw value. `human_num`, `round_elements` and `generate_random_string` are float numerics and randomness.
- `MatrixFormat`'s numpy, pandas and list conversions are left out. The corrected loader (`CoevolutionMatrixLoader.LoadCoevolutionMatrix`, and with it `load_matrices`) treats every format as a working conversion and records a loaded matrix as the format tag applied to the dataset. As written, only `JSON` can be called (see "## Findings").
- `interface_remote.py` (an HTTP client) is left out. So are the Flask, caching and parameter-validation machinery, the other routes, the error handler and the `json.compact` toggles. The route's query-string `page` and `page_size`, as that framework parsed them, are parameters.
- JSON values are strings, bools and ints. A non-object JSON body is not modelled, and a body the parser rejects is one case.
- `to_int`, `isdigit`, `lower`, `upper` and `split()` work on ASCII only. `int()`'s tolerance of surrounding whitespace and `_` is left out.
- ToInt: an int argument is returned as it is, and a string is parsed only as an optionally signed run of ASCII digits.
- Error messages that name a member use its string value, as `format()` of a `str` enum member gives it before Python 3.11. From Python 3.11 on, those messages name the member as `ProteinParams.<NAME>` instead (for example `ProteinParams.MIN_LENGTH must be an integer`).
- BackEnd.InvalidKeysReported: the message's list of keys is modelled as the set of keys, because the source joins a set, whose order is unspecified.
- The warning `get_valid_find_params` issues for an empty dict is left out (it does not change the result).
- `find` on the pandas frames: a page is a new frame in the route, and pandas' view/copy aliasing of `iloc` slices is left out.
- `PyComLocal.paginate` is the same code as `PyCom.paginate`. It is modelled once, by `Interface.PyCom.Paginate`.
- Interface.PyCom.Paginate: its contract describes the window only for a non-negative page size. A negative one is the clipped Python slice (`Py.PySlice`), without a stated window.
- The scripts, prototypes and packaging (`pycom/main.py`, `pycom/sql/experiment.py`, `experiments/`, `example.py`, `sample_workflow.py`, `setup.py`) are left out.

## Findings

| source | as written | input that shows it | evidently intended | confidence | as-written member | corrected member |
|---|---|---|---|---|---|---|
| pycom/sql/constraints_utils.py:83-88 | `to_bool` calls `arg.lower()` on its argument, so a bool fails with `AttributeError`; the route passes the default `False` for a missing `matrix` (server/back_end.py:58), and `find(has_ptm=True)` passes a bool | a `/api/find` request without `matrix`; `PyCom.find(has_ptm=True)` | a bool is taken as that bool | high (not executed) | ConstraintsUtils.ToBoolAsWritten, ConstraintsUtils.ToBoolAsWrittenRejectsBools, BackEnd.MatrixDefaultAsWritten | ConstraintsUtils.ToBool, ConstraintsUtils.ToBoolAgreesOnStrings |
| pycom/interface/interface_local.py:111 | `find` passes `remote=False` into `get_valid_find_params`, which files it among the keyword constraints: with a dict the both-inputs assertion fails, and without one `remote` is not a defined constraint | `PyComLocal(db).find(cath='3.*')`; `PyComLocal(db).find({})` | validate the caller's dict or keyword arguments alone | high (not executed) | InterfaceLocal.LocalFindParamsAsWritten, InterfaceLocal.LocalFindAsWrittenAlwaysFails | InterfaceLocal.PyComLocal.Find, FindHelper.FindAcceptsRegisteredKeys |
| server/back_end.py:66-67 | the cap only checks `page_size <= 10`; a negative page size from the JSON body (which bypasses the query-string bounds of 1..100) passes it, and the slice `[0:-1]` loads nearly every row | body `{"matrix": "true", "page_size": -1}` over 12 matching rows loads 11 matrices | at most 10 matrices per response | medium (not executed) | BackEnd.RespondToAsWritten, BackEnd.NegativePageSizeAsWritten | BackEnd.RespondTo, BackEnd.MatrixPageSizeCap |
| pycom/interface/_find_helper.py:87 | the loader calls the format itself; the trailing commas at pycom/selector/matrix_format.py:11-13 make `NUMPY`, `PANDAS` and `LIST` tuple-valued enum members, which cannot be called, while `JSON` (line 14) is a plain function the enum does not turn into a member | `PyCom(db, mat).load_matrices(df)` with the default `MatrixFormat.NUMPY` and a row whose sequence is stored raises `TypeError` | apply the member's conversion (`self.func`, set in `__init__`) | high (not executed) | FindHelper.CoevolutionMatrixLoader.LoadCoevolutionMatrixAsWritten, FindHelper.DefaultFormatFailsOnHit | FindHelper.CoevolutionMatrixLoader.LoadCoevolutionMatrix, FindHelper.LoadMatricesInto |

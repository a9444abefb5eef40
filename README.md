# mod_wmts_wrapper request logic, modelled in Dafny

`mod_wmts_wrapper` is the Apache front-end of an OnEarth tile server. It accepts both
encodings of a GetTile request from OGC WMTS 1.0.0 (OGC 07-057r7, clause 7.2): the
key-value-pair (KVP) query and the RESTful path. It validates what it can and rewrites the
request into the form the tile back-ends expect (mod_reproject or mod_mrf). Whatever it
rejects is answered with an OWS Common 1.1 exception report (OGC 06-121r3, clause 8).

This project models the module's request logic and proves properties of it:

- **Error records and the report writer** (`errors.dfy`, `requests.dfy`).
  - `wmts_make_error` becomes the `WmtsError` datatype.
  - `wmts_errors[N]` with its `errors++` counter becomes the class `ErrorArray`, a fixed-size array plus a count.
  - `wmts_return_all_errors` becomes a method with a loop over the array. It appends to the response body and overwrites `r->status`.
  - A parser for the report document proves that the report carries each error once, in order.
- **The request** (`requests.dfy`). `Request` is a class holding the parts of `request_rec` the hooks read (URI, query, previous attempt, whether the file exists) and write (notes, status, content type, body, per-request back-end configuration).
  - Each hook is a method. It returns an `Outcome`: declined, redirect, report, overlay, failed lookup, or `Fault` for undefined behaviour in the C code.
  - Each hook is proved equal to a pure step function of its inputs, with every written field as the step says.
- **String and path helpers** (`strings.dfy`, `paths.dfy`, `tables.dfy`):
  - `tokenize` (a loop of `ap_getword`);
  - `remove_date_from_uri` (writes through `ptr` into a `MAX_STRING_LEN` buffer, modelled as an `array<char>`);
  - `get_base_uri` (a backward scan);
  - `find_and_replace_string`;
  - `argstr_to_table` (an `apr_strtok` loop into a case-insensitive APR table);
  - `apr_atoi64` with its store into a 32-bit `int`.
- **Configuration** (`config.dfy`):
  - `merge_dir_conf`;
  - `check_valid_extension`;
  - the directory role;
  - the date pattern compiled by `set_module`, as a hand-written predicate;
  - the tile back-end, as a closed choice of `Reproject(grid, source)`, `Mrf(grid, skip, datafname, redirect, idxfname)` or `NoBackend`.
- **`handleKvP`** (`kvp.dfy`, `kvp_properties.dfy`). Every parameter check is its own function. The method fills a ten-slot error array in the source's order, then reports the errors, redirects a GetTile request to its REST path (with the date noted), or redirects GetCapabilities and GetTileService to their static documents.
- **`pre_hook`** (`prehook.dfy`):
  - the STYLE pass of a time-enabled layer: double-pass detection, the date token, the redirect without the date;
  - the TILEMATRIXSET pass: FORMAT, integer and grid checks, then the placeholder overlay of the back-end configuration;
  - the date service, as a parameter `lookup`.
- **`post_hook`** (`posthook.dfy`): the fallback errors by role, the blank-tile choice of `get_blank_tile_filename`, and the delegation to `handleKvP`.

All source paths below are relative to the repository root. Where the prose
description of the module and the code disagree, the model follows the code:

- `post_hook` reads the "mod_onearth failed" note from the current request's notes, not from the previous attempt's.
- The blank tile is chosen by name alone. The module does not check that such a file is configured or exists.
- `merge_dir_conf` tests the `time` and `year_dir` flags against 0, so a child directory cannot switch off a flag its parent set. The merge is "child wins if set" only for the string fields.

The hooks keep the three defects listed under "## Findings" as written: the level check uses `>` and the size is read whatever the level, a sixth error overflows `wmts_errors[5]`, and an absent FORMAT is dereferenced. The last two, and an out-of-range size read, are the `Fault` outcome. The corrected definitions sit beside them, with the intended properties proved about them.

## Model

| member | source | states |
|---|---|---|
| Errors.ShownAll | src/modules/mod_wmts_wrapper/mod_wmts_wrapper.cpp:170-178 | the document view of an error list has one entry per error, each its code, locator and text |
| Errors.WithLocator | src/modules/mod_wmts_wrapper/mod_wmts_wrapper.cpp:135-145 | selecting the errors about one parameter never adds errors |
| Errors.WithLocatorMembers | src/modules/mod_wmts_wrapper/mod_wmts_wrapper.cpp:135-145 | the selection keeps exactly the errors whose locator is that parameter |
| Errors.ExceptionsXmlSnoc | src/modules/mod_wmts_wrapper/mod_wmts_wrapper.cpp:158-182 | each loop pass appends one `<Exception>` element after those already written |
| Errors.ParseException | src/modules/mod_wmts_wrapper/mod_wmts_wrapper.cpp:170-178 | reading one element consumes input, so reading a report terminates |
| Errors.ParseExceptionXml | src/modules/mod_wmts_wrapper/mod_wmts_wrapper.cpp:170-178 | an element written for an error reads back as that error's code, locator and text, leaving what follows |
| Errors.ParseExceptionsXml | src/modules/mod_wmts_wrapper/mod_wmts_wrapper.cpp:158-182 | the elements written by the loop read back as the error list, in order |
| Errors.ReportRoundTrip | src/modules/mod_wmts_wrapper/mod_wmts_wrapper.cpp:150-184 | the whole report (preamble, elements, postamble) holds exactly one Exception per error, in array order, with its code, locator and text |
| Errors.ErrorArray.constructor | src/modules/mod_wmts_wrapper/mod_wmts_wrapper.cpp:475 | a fresh error array of the given size holds no errors |
| Errors.ErrorArray.Push | src/modules/mod_wmts_wrapper/mod_wmts_wrapper.cpp:526 | `wmts_errors[errors++] = e` appends `e` to the recorded errors when a slot is free |
| Errors.ErrorArray.Record | src/modules/mod_wmts_wrapper/mod_wmts_wrapper.cpp:574-580 | `wmts_errors[errors++] = e` on an array that may be full: it overflows exactly when the array is full and then records nothing, otherwise `e` is appended |
| Requests.Request.constructor | src/modules/mod_wmts_wrapper/mod_wmts_wrapper.cpp:472-476 | a request starts with status 200, no content type, an empty body and no per-request configuration |
| Requests.ReturnAllErrors | src/modules/mod_wmts_wrapper/mod_wmts_wrapper.cpp:147-186 | the content type becomes text/xml, the body gains the report of the recorded errors, the status is the last error's, and nothing else changes |
| Requests.WriteException | src/modules/mod_wmts_wrapper/mod_wmts_wrapper.cpp:161-181 | one pass appends the error's element and sets the status to the error's |
| Requests.WriteExceptions | src/modules/mod_wmts_wrapper/mod_wmts_wrapper.cpp:158-182 | the loop appends one element per error in array order and leaves the last error's status (the old status when there is none) |
| Requests.ReportAll | src/modules/mod_wmts_wrapper/mod_wmts_wrapper.cpp:501 | `return wmts_return_all_errors(...)`: the outcome is a report of exactly the recorded errors, applied to the request |
| Requests.ReportOne | src/modules/mod_wmts_wrapper/mod_wmts_wrapper.cpp:488-489 | recording one error and reporting gives a report of that single error |
| Strings.Lower | src/modules/mod_wmts_wrapper/mod_wmts_wrapper.cpp:59-84 | case folding keeps the length and folds each character on its own |
| Strings.IndexOf | src/modules/mod_wmts_wrapper/mod_wmts_wrapper.cpp:201 | `ap_strstr` finds an occurrence with none before it, and fails only when there is no occurrence at all |
| Strings.SplitAtChar | src/modules/mod_wmts_wrapper/mod_wmts_wrapper.cpp:522 | `ap_strchr` splits a string into a part without the character and a rest that is empty or starts with it, together the whole string |
| Strings.SplitAtCharUnique | src/modules/mod_wmts_wrapper/mod_wmts_wrapper.cpp:522 | that split is the only one with those properties |
| Strings.NatToString | src/modules/mod_wmts_wrapper/mod_wmts_wrapper.cpp:560 | `%d` of a non-negative number is a non-empty run of digits |
| Strings.IntToString | src/modules/mod_wmts_wrapper/mod_wmts_wrapper.cpp:560 | `%d` never produces a quote or a '<', so error messages carrying a number stay well-formed in the report |
| Strings.SkipSpaceSuffix | src/modules/mod_wmts_wrapper/mod_wmts_wrapper.cpp:531 | `strtoll` first drops a maximal run of leading white space |
| Strings.DigitPrefixLongest | src/modules/mod_wmts_wrapper/mod_wmts_wrapper.cpp:531 | `strtoll` then reads the longest run of digits |
| Strings.DigitPrefixOfRun | src/modules/mod_wmts_wrapper/mod_wmts_wrapper.cpp:531 | a run of digits followed by a non-digit is read exactly |
| Strings.StrToI64 | src/modules/mod_wmts_wrapper/mod_wmts_wrapper.cpp:531 | `apr_atoi64` saturates into the 64-bit range |
| Strings.ToInt32 | src/modules/mod_wmts_wrapper/mod_wmts_wrapper.cpp:531 | storing into `int tile_x` keeps the value modulo 2^32 as a signed 32-bit number, and changes nothing for a value already in range |
| Strings.NatValueOfNatToString | src/modules/mod_wmts_wrapper/mod_wmts_wrapper.cpp:531 | the digits `%d` writes for a natural number are read back as that number |
| Strings.IntToStringRoundTrip | src/modules/mod_wmts_wrapper/mod_wmts_wrapper.cpp:531 | `apr_atoi64` inverts `%d` on the 64-bit range |
| Paths.WordLength | src/modules/mod_wmts_wrapper/mod_wmts_wrapper.cpp:193 | `ap_getword` stops at the first separator or at the end |
| Paths.WordLengthIs | src/modules/mod_wmts_wrapper/mod_wmts_wrapper.cpp:193 | any separator-free prefix that ends at a separator or at the end is that word |
| Paths.SegmentsAreSegments | src/modules/mod_wmts_wrapper/mod_wmts_wrapper.cpp:188-198 | every token is non-empty and free of the separator |
| Paths.SegmentsOfJoin | src/modules/mod_wmts_wrapper/mod_wmts_wrapper.cpp:188-198 | tokenizing a path that `remove_date_from_uri` writes gives back its tokens |
| Paths.GetWord | src/modules/mod_wmts_wrapper/mod_wmts_wrapper.cpp:193 | `ap_getword` returns the next token and moves past the separators after it |
| Paths.SkipSeparators | src/modules/mod_wmts_wrapper/mod_wmts_wrapper.cpp:191 | skipping leading separators loses no token |
| Paths.Tokenize | src/modules/mod_wmts_wrapper/mod_wmts_wrapper.cpp:188-198 | the loop collects exactly the maximal separator-free runs, in order |
| Paths.Without | src/modules/mod_wmts_wrapper/mod_wmts_wrapper.cpp:223-224 | skipping index n - 5 drops exactly one token when there is one, and none otherwise |
| Paths.CopyString | src/modules/mod_wmts_wrapper/mod_wmts_wrapper.cpp:227-228 | `apr_cpystrn` at `ptr` appends the token to what the buffer held before `ptr` |
| Paths.WriteToken | src/modules/mod_wmts_wrapper/mod_wmts_wrapper.cpp:225-228 | one loop pass appends '/' and the token |
| Paths.RemoveDateFromUri | src/modules/mod_wmts_wrapper/mod_wmts_wrapper.cpp:218-231 | the buffer holds "/" before each token except the one at n - 5, in order |
| Paths.BaseUri | src/modules/mod_wmts_wrapper/mod_wmts_wrapper.cpp:123-133 | the base is the prefix before the last '/' (empty when no '/' follows the first character) |
| Paths.GetBaseUri | src/modules/mod_wmts_wrapper/mod_wmts_wrapper.cpp:123-133 | the backward scan, which never inspects index 0, computes that base |
| Paths.FindAndReplace | src/modules/mod_wmts_wrapper/mod_wmts_wrapper.cpp:200-206 | a source without the search string is returned unchanged |
| Paths.FindAndReplaceFirst | src/modules/mod_wmts_wrapper/mod_wmts_wrapper.cpp:200-206 | only the first occurrence is replaced, and what follows it is kept verbatim; a NULL replacement keeps only the prefix |
| Tables.GetFound | src/modules/mod_wmts_wrapper/mod_wmts_wrapper.cpp:265 | `apr_table_get` returns the value of an entry with a matching key, and NULL when there is none |
| Tables.RemoveGet | src/modules/mod_wmts_wrapper/mod_wmts_wrapper.cpp:500 | removing a key removes every spelling of it and keeps every other key |
| Tables.GetSetSame | src/modules/mod_wmts_wrapper/mod_wmts_wrapper.cpp:500 | after `apr_table_set` any spelling of the key reads the new value |
| Tables.GetSetOther | src/modules/mod_wmts_wrapper/mod_wmts_wrapper.cpp:500 | `apr_table_set` leaves every other key as it was |
| Tables.GetAppendMissing | src/modules/mod_wmts_wrapper/mod_wmts_wrapper.cpp:111 | an entry appended under a new key is the only one that key can find |
| Tables.GetConcatFirst | src/modules/mod_wmts_wrapper/mod_wmts_wrapper.cpp:111 | entries under other keys do not affect a lookup |
| Tables.InsertAllGet | src/modules/mod_wmts_wrapper/mod_wmts_wrapper.cpp:97-113 | after the loop a key reads the value of its last token, or what the table held before |
| Tables.ParseArgsGet | src/modules/mod_wmts_wrapper/mod_wmts_wrapper.cpp:87-114 | a repeated query parameter keeps its last value, and an absent one reads NULL |
| Tables.ArgsToTable | src/modules/mod_wmts_wrapper/mod_wmts_wrapper.cpp:87-121 | the `apr_strtok` loop builds exactly that table |
| Config.MergeDirConf | src/modules/mod_wmts_wrapper/mod_wmts_wrapper.cpp:730-741 | a string field the child set wins, otherwise the parent's is kept; a flag is set when either side set it |
| Config.MergePreservesValid | src/modules/mod_wmts_wrapper/mod_wmts_wrapper.cpp:730-741 | merging keeps the role and its compiled date pattern together |
| Config.MergeIdentity | src/modules/mod_wmts_wrapper/mod_wmts_wrapper.cpp:725-741 | the zero-filled record of `create_dir_config` is neutral on either side |
| Config.MergeAssociative | src/modules/mod_wmts_wrapper/mod_wmts_wrapper.cpp:730-741 | merging along nested directories does not depend on grouping |
| Config.MergeKeepsFlags | src/modules/mod_wmts_wrapper/mod_wmts_wrapper.cpp:735-739 | a child cannot switch off `time` or `year_dir` |
| Config.DistinctMimes | src/modules/mod_wmts_wrapper/mod_wmts_wrapper.cpp:59-84 | no two rows of the MIME table name the same type |
| Config.CheckValidExtensionTable | src/modules/mod_wmts_wrapper/mod_wmts_wrapper.cpp:59-84 | `check_valid_extension` accepts exactly: .png for image/png; .jpg/.jpeg for image/jpeg; .pbf/.mvt for either vector type; .tif/.tiff for image/tiff; .lerc for image/lerc |
| Config.CheckedAdmitted | src/modules/mod_wmts_wrapper/mod_wmts_wrapper.cpp:59-84 | every MIME type and extension `check_valid_extension` accepts is a pair of the table |
| Config.AdmittedChecked | src/modules/mod_wmts_wrapper/mod_wmts_wrapper.cpp:59-84 | every pair of the table is accepted |
| Config.UnknownMimeRejects | src/modules/mod_wmts_wrapper/mod_wmts_wrapper.cpp:59-84 | an unknown or missing MIME type accepts no extension |
| Config.DateShapeTemplates | src/modules/mod_wmts_wrapper/mod_wmts_wrapper.cpp:689 | the date predicate is exactly the two digit/dash templates of the pattern |
| Config.DateCheckIsShapeOnly | src/modules/mod_wmts_wrapper/mod_wmts_wrapper.cpp:689 | the pattern checks shape only: 2020-13-40 and 25:61:61 pass, "default" does not |
| Kvp.VersionErrors | src/modules/mod_wmts_wrapper/mod_wmts_wrapper.cpp:265-273 | the VERSION check records at most one error |
| Kvp.TimeErrors | src/modules/mod_wmts_wrapper/mod_wmts_wrapper.cpp:282-291 | the TIME check records at most one error |
| Kvp.RequestErrors | src/modules/mod_wmts_wrapper/mod_wmts_wrapper.cpp:293-302 | the REQUEST check records at most one error |
| Kvp.RequestOf | src/modules/mod_wmts_wrapper/mod_wmts_wrapper.cpp:293-302 | the operation kept is the REQUEST value exactly when it is a known one |
| Kvp.LayerErrors | src/modules/mod_wmts_wrapper/mod_wmts_wrapper.cpp:304-311 | the LAYER check records at most one error |
| Kvp.ServiceErrors | src/modules/mod_wmts_wrapper/mod_wmts_wrapper.cpp:313-319 | the SERVICE check records at most one error |
| Kvp.FormatErrors | src/modules/mod_wmts_wrapper/mod_wmts_wrapper.cpp:321-341 | the FORMAT check records at most one error |
| Kvp.RequiredErrors | src/modules/mod_wmts_wrapper/mod_wmts_wrapper.cpp:343-369 | each required GetTile parameter records at most one error |
| Kvp.CommonErrorsBound | src/modules/mod_wmts_wrapper/mod_wmts_wrapper.cpp:293-311 | REQUEST and LAYER never both fail, so the common checks record at most four errors |
| Kvp.GetParam | src/modules/mod_wmts_wrapper/mod_wmts_wrapper.cpp:265 | a parameter counts only when present and non-empty |
| Kvp.CheckVersion | src/modules/mod_wmts_wrapper/mod_wmts_wrapper.cpp:265-273 | appends exactly the VERSION errors |
| Kvp.CheckTime | src/modules/mod_wmts_wrapper/mod_wmts_wrapper.cpp:282-291 | appends exactly the TIME errors, and fails only when TIME is given with no compiled pattern |
| Kvp.CheckRequest | src/modules/mod_wmts_wrapper/mod_wmts_wrapper.cpp:293-302 | appends exactly the REQUEST errors and returns the known operation |
| Kvp.CheckLayer | src/modules/mod_wmts_wrapper/mod_wmts_wrapper.cpp:304-311 | appends exactly the LAYER errors |
| Kvp.CheckService | src/modules/mod_wmts_wrapper/mod_wmts_wrapper.cpp:313-319 | appends exactly the SERVICE errors, reading the alias key only when SERVICE is absent |
| Kvp.HandleKvp | src/modules/mod_wmts_wrapper/mod_wmts_wrapper.cpp:255-399 | `handleKvP` does what the KVP step of the parsed query and base URI says, and writes the request fields as that step says |
| Kvp.CheckCommon | src/modules/mod_wmts_wrapper/mod_wmts_wrapper.cpp:263-319 | the common checks record exactly the common errors, in the source's order |
| Kvp.Dispatch | src/modules/mod_wmts_wrapper/mod_wmts_wrapper.cpp:321-398 | the end of `handleKvP` follows the KVP step |
| Kvp.DispatchOther | src/modules/mod_wmts_wrapper/mod_wmts_wrapper.cpp:388-398 | a request other than GetTile follows the KVP step |
| Kvp.KvpStepNotTile | src/modules/mod_wmts_wrapper/mod_wmts_wrapper.cpp:388-398 | GetCapabilities and GetTileService go to their documents before any error report; other requests report their errors or decline |
| Kvp.HandleGetTile | src/modules/mod_wmts_wrapper/mod_wmts_wrapper.cpp:321-387 | the GetTile branch follows the GetTile step |
| Kvp.RedirectTile | src/modules/mod_wmts_wrapper/mod_wmts_wrapper.cpp:375-387 | an error-free GetTile is redirected to its REST path with the date noted |
| Kvp.GetTileStepRedirect | src/modules/mod_wmts_wrapper/mod_wmts_wrapper.cpp:375-387 | with no errors the redirect path is base/layer/style/tms/matrix/row/col+ext, and the date note is TIME or "default" |
| Kvp.NoTileErrors | src/modules/mod_wmts_wrapper/mod_wmts_wrapper.cpp:321-373 | an error-free GetTile carries LAYER, a FORMAT with an extension, TILEMATRIXSET, TILEMATRIX, TILEROW and TILECOL |
| Kvp.GetTileIsNotDocument | src/modules/mod_wmts_wrapper/mod_wmts_wrapper.cpp:388-391 | GetTile is neither of the document requests |
| Kvp.CheckTileParams | src/modules/mod_wmts_wrapper/mod_wmts_wrapper.cpp:321-369 | the GetTile checks append their errors after the common ones, giving every KVP error in order |
| Kvp.RequireParam | src/modules/mod_wmts_wrapper/mod_wmts_wrapper.cpp:343-369 | a missing required parameter appends one MissingParameterValue error |
| KvpProperties.CommonLocated | src/modules/mod_wmts_wrapper/mod_wmts_wrapper.cpp:265-319 | each of the VERSION, TIME, REQUEST, LAYER and SERVICE checks records errors about its own parameter only |
| KvpProperties.VersionReported | src/modules/mod_wmts_wrapper/mod_wmts_wrapper.cpp:265-273 | VERSION: missing or empty gives one MissingParameterValue, other than 1.0.0 one InvalidParameterValue, and no error iff it is 1.0.0 |
| KvpProperties.RequestReported | src/modules/mod_wmts_wrapper/mod_wmts_wrapper.cpp:293-302 | REQUEST: missing gives one MissingParameterValue, unknown one 501 OperationNotSupported, and no error iff the operation is known |
| KvpProperties.LayerReported | src/modules/mod_wmts_wrapper/mod_wmts_wrapper.cpp:304-311 | LAYER is reported missing exactly for a GetTile request without it |
| KvpProperties.ServiceReported | src/modules/mod_wmts_wrapper/mod_wmts_wrapper.cpp:313-319 | SERVICE: missing or empty under both keys gives one MissingParameterValue, other than WMTS one InvalidParameterValue, and no error iff it is WMTS |
| KvpProperties.ServiceAliasOnlyWhenAbsent | src/modules/mod_wmts_wrapper/mod_wmts_wrapper.cpp:313-314 | the alias key `wmts.cgi?SERVICE` matters only when SERVICE is absent |
| KvpProperties.TimeReported | src/modules/mod_wmts_wrapper/mod_wmts_wrapper.cpp:282-291 | TIME is optional; a given value of neither date shape, and not "default", gives exactly one InvalidParameterValue |
| KvpProperties.KvpNeverDeclines | src/modules/mod_wmts_wrapper/mod_wmts_wrapper.cpp:388-398 | `handleKvP` always answers: a request it neither redirects nor declines has an error to report |
| KvpProperties.GetTileAnswered | src/modules/mod_wmts_wrapper/mod_wmts_wrapper.cpp:371-387 | a GetTile request is reported, with exactly its errors and the notes unchanged, iff it has errors; otherwise it is redirected and handled |
| KvpProperties.GetTileRedirect | src/modules/mod_wmts_wrapper/mod_wmts_wrapper.cpp:375-387 | the GetTile redirect sets the date note to TIME or "default" and keeps every other note |
| KvpProperties.FormatExtensionAccepted | src/modules/mod_wmts_wrapper/mod_wmts_wrapper.cpp:323-341 | the extension a KVP FORMAT is mapped to is one that `check_valid_extension` accepts for that MIME type |
| KvpProperties.KvpErrorsFit | src/modules/mod_wmts_wrapper/mod_wmts_wrapper.cpp:257 | at most nine errors are recorded, so the ten slots of `wmts_errors` suffice |
| KvpProperties.KvpReportRoundTrip | src/modules/mod_wmts_wrapper/mod_wmts_wrapper.cpp:371-372 | the report of a KVP request shows each recorded error once, in the order checked |
| PreHook.LevelInGrid | src/modules/mod_wmts_wrapper/mod_wmts_wrapper.cpp:559-572 | with the corrected level check, a grid with a size for each of its levels never reads past `rsets` |
| PreHook.LevelPastGridAsWritten | src/modules/mod_wmts_wrapper/mod_wmts_wrapper.cpp:559-566 | as written, level 1 of a one-level grid passes the check and is read past the end of `rsets` |
| PreHook.CoordErrorsFit | src/modules/mod_wmts_wrapper/mod_wmts_wrapper.cpp:521-580 | the corrected checks record at most five errors, which `wmts_errors[5]` holds |
| PreHook.BoundsErrorsAtMostOne | src/modules/mod_wmts_wrapper/mod_wmts_wrapper.cpp:554-580 | the corrected grid checks record at most one error |
| PreHook.TokenErrorsAtMostFour | src/modules/mod_wmts_wrapper/mod_wmts_wrapper.cpp:521-539 | the FORMAT and integer checks record at most four errors |
| PreHook.CoordErrorsOverflowAsWritten | src/modules/mod_wmts_wrapper/mod_wmts_wrapper.cpp:475 | as written, one request records six errors into the five slots of `wmts_errors` |
| PreHook.MinusOne | src/modules/mod_wmts_wrapper/mod_wmts_wrapper.cpp:531-539 | "-1" and "-1.jpg" are read as -1 |
| PreHook.PngRejectsJpg | src/modules/mod_wmts_wrapper/mod_wmts_wrapper.cpp:522-527 | a .jpg tile on a PNG layer gets the FORMAT error |
| PreHook.RowCheckedAfterColumn | src/modules/mod_wmts_wrapper/mod_wmts_wrapper.cpp:574-580 | no grid error iff column and row are inside the level; the row is reported only when the column is inside, so at most one of TILECOL and TILEROW |
| PreHook.TileValueOfNumeral | src/modules/mod_wmts_wrapper/mod_wmts_wrapper.cpp:530-539 | a `%d` index, bare or followed by an extension, passes the digit check and is read back as itself |
| PreHook.AcceptedTile | src/modules/mod_wmts_wrapper/mod_wmts_wrapper.cpp:521-581 | a tile inside the grid, written as `%d` writes its indices, with a suitable or no extension, records no error and does not fault under the checks as written |
| PreHook.InGridLevelsAgree | src/modules/mod_wmts_wrapper/mod_wmts_wrapper.cpp:554-580 | for a level inside the grid, or a back-end without levels, the checks as written and the corrected ones record the same errors and fault alike |
| PreHook.BoundsAgree | src/modules/mod_wmts_wrapper/mod_wmts_wrapper.cpp:554-580 | for a level inside the grid the grid checks as written and corrected agree |
| PreHook.CheckedTileAsWritten | src/modules/mod_wmts_wrapper/mod_wmts_wrapper.cpp:521-581 | a tile the checks as written let through has a readable size and lies inside it, with a level of at most `n_levels` (not `n_levels - 1`), and its three tokens start with digits |
| PreHook.BoundsPassedAsWritten | src/modules/mod_wmts_wrapper/mod_wmts_wrapper.cpp:554-580 | with no grid error as written and a readable size, the column and row lie inside the level, and the level is between 0 and `n_levels` |
| PreHook.LevelAtCountAsWritten | src/modules/mod_wmts_wrapper/mod_wmts_wrapper.cpp:559-580 | as written, level `n_levels` with a readable size and a tile inside it records no error, where the corrected check reports TILEMATRIX |
| PreHook.OverflowIsFault | src/modules/mod_wmts_wrapper/mod_wmts_wrapper.cpp:475 | the six-error request makes the TILEMATRIXSET pass undefined |
| PreHook.TileResultPassed | src/modules/mod_wmts_wrapper/mod_wmts_wrapper.cpp:554-581 | a tile the TILEMATRIXSET pass neither reports nor faults on lies inside the size it read, at a level of at most `n_levels` |
| PreHook.CheckedTileInGrid | src/modules/mod_wmts_wrapper/mod_wmts_wrapper.cpp:521-581 | with the corrected level check of the first finding, a tile that passes the checks of a back-end with levels lies inside its grid (level below `n_levels`), and its three tokens start with digits |
| PreHook.TokenDigits | src/modules/mod_wmts_wrapper/mod_wmts_wrapper.cpp:530-538 | with no token error, TILECOL, TILEROW and TILEMATRIX all start with a digit |
| PreHook.BoundsPassed | src/modules/mod_wmts_wrapper/mod_wmts_wrapper.cpp:554-580 | with the corrected level check of the first finding, no grid error and a readable size mean the level, column and row lie inside the grid |
| PreHook.ReprojectDate | src/modules/mod_wmts_wrapper/mod_wmts_wrapper.cpp:583-587 | mod_reproject's first "${date}" is replaced by the noted date, or the source is cut before it when no date was noted |
| PreHook.MrfOverlayNames | src/modules/mod_wmts_wrapper/mod_wmts_wrapper.cpp:599-607 | the mod_mrf overlay keeps the grid, the skipped levels and which names are set, and puts the service's file at "${filename}" |
| PreHook.MrfOverlayYear | src/modules/mod_wmts_wrapper/mod_wmts_wrapper.cpp:607-612 | "${YYYY}" in the index name becomes the first four characters of the date only when `year_dir` is set |
| PreHook.LookupOnlyForMrf | src/modules/mod_wmts_wrapper/mod_wmts_wrapper.cpp:582-588 | only a time-enabled mod_mrf layer consults the date service |
| PreHook.MrfLookup | src/modules/mod_wmts_wrapper/mod_wmts_wrapper.cpp:588-614 | mod_mrf asks about the layer six tokens from the end and the noted date; a failing status ends the hook with it, a good one overlays the names |
| PreHook.StyleRedirect | src/modules/mod_wmts_wrapper/mod_wmts_wrapper.cpp:493-505 | a STYLE pass that redirects goes to "/" joined with every token but n - 5, notes that token as the date, and keeps every other note |
| PreHook.StyleTimeCheck | src/modules/mod_wmts_wrapper/mod_wmts_wrapper.cpp:493-501 | a first STYLE pass notes the date token and reports TIME exactly when the token is neither a date nor "default" |
| PreHook.StyleSecondPass | src/modules/mod_wmts_wrapper/mod_wmts_wrapper.cpp:487-490 | the redirected request, seen again by STYLE, gets the single TILEMATRIXSET error |
| PreHook.PreHookNotes | src/modules/mod_wmts_wrapper/mod_wmts_wrapper.cpp:472-620 | `pre_hook` changes no note but the date note, and only in the STYLE pass of a time-enabled layer |
| PreHook.Hook | src/modules/mod_wmts_wrapper/mod_wmts_wrapper.cpp:472-620 | `pre_hook` does what the pre-hook step says, by role, and writes the request fields as it says |
| PreHook.StylePass | src/modules/mod_wmts_wrapper/mod_wmts_wrapper.cpp:485-505 | the STYLE pass follows the STYLE step |
| PreHook.TilePass | src/modules/mod_wmts_wrapper/mod_wmts_wrapper.cpp:506-618 | the TILEMATRIXSET pass follows the tile step as written, with the date of the previous attempt |
| PreHook.TileChecks | src/modules/mod_wmts_wrapper/mod_wmts_wrapper.cpp:518-617 | after the tokens are read: `Fault` on an out-of-range size read or a sixth error, else the errors as written are reported, else the overlay |
| PreHook.TileFinish | src/modules/mod_wmts_wrapper/mod_wmts_wrapper.cpp:581-617 | recorded errors are reported, otherwise the overlay is applied |
| PreHook.OverlayPass | src/modules/mod_wmts_wrapper/mod_wmts_wrapper.cpp:582-615 | the overlay writes only the per-request configuration, never the directory's |
| PreHook.CheckCoords | src/modules/mod_wmts_wrapper/mod_wmts_wrapper.cpp:518-580 | the checks record exactly the errors as written, in order, and signal a fault exactly when a size is read outside `rsets` or a sixth error would be written |
| PreHook.CheckFormat | src/modules/mod_wmts_wrapper/mod_wmts_wrapper.cpp:521-528 | appends the FORMAT error exactly when an extension is present, a MIME type is set, and it rejects the extension |
| PreHook.CheckInteger | src/modules/mod_wmts_wrapper/mod_wmts_wrapper.cpp:530-538 | appends the integer error exactly when the token does not start with a digit |
| PreHook.CheckBounds | src/modules/mod_wmts_wrapper/mod_wmts_wrapper.cpp:554-580 | checks the level with `>` and reads its size either way; appends the grid errors, or signals a fault when `rsets` has no size at that index or the array overflows |
| PreHook.CheckDims | src/modules/mod_wmts_wrapper/mod_wmts_wrapper.cpp:574-580 | appends the column error, or else the row error, or nothing; signals a fault when that error finds the array full |
| PostHook.BlankTileTable | src/modules/mod_wmts_wrapper/mod_wmts_wrapper.cpp:241-251 | the blank-tile chain is the first match in the table jpeg/.jpg → black.jpg, png/.png → transparent.png, mapbox/.mvt → empty.mvt, protobuf/.pbf → empty.mvt |
| PostHook.BlankTileChoices | src/modules/mod_wmts_wrapper/mod_wmts_wrapper.cpp:241-251 | for the corrected chain, where an absent FORMAT matches nothing: JPEG by FORMAT or ending gives black.jpg; a blank tile is chosen iff FORMAT or ending names one of the four kinds; the choice is one of the three files |
| PostHook.BlankTileWithoutFormatAsWritten | src/modules/mod_wmts_wrapper/mod_wmts_wrapper.cpp:240-244 | a failed .png request without a query is undefined as written, and goes to transparent.png beside the URI when corrected |
| PostHook.PngEnding | src/modules/mod_wmts_wrapper/mod_wmts_wrapper.cpp:243-244 | the .png ending alone chooses transparent.png |
| PostHook.ExistingFileDeclined | src/modules/mod_wmts_wrapper/mod_wmts_wrapper.cpp:636-637 | a request for an existing file is declined, whatever the role |
| PostHook.RootQuery | src/modules/mod_wmts_wrapper/mod_wmts_wrapper.cpp:639-651 | at the root, a query mod_onearth did not fail goes to `handleKvP`, which answers; with no query, "LAYER does not exist" is reported |
| PostHook.LayerRoleError | src/modules/mod_wmts_wrapper/mod_wmts_wrapper.cpp:663-671 | in a LAYER directory, TILEMATRIXSET is reported iff the previous attempt noted a date and had no query, STYLE otherwise |
| PostHook.PostHookNotes | src/modules/mod_wmts_wrapper/mod_wmts_wrapper.cpp:627-682 | `post_hook` changes no note but the date note |
| PostHook.Hook | src/modules/mod_wmts_wrapper/mod_wmts_wrapper.cpp:627-682 | `post_hook` does what the post-hook step says, by role, and writes the request fields as it says; a failed tile request without FORMAT is `Fault`, as written |
| PostHook.RootPass | src/modules/mod_wmts_wrapper/mod_wmts_wrapper.cpp:639-651 | the root branch follows the root step, with the blank-tile choice as written |
| PostHook.BlankTile | src/modules/mod_wmts_wrapper/mod_wmts_wrapper.cpp:233-253 | `get_blank_tile_filename` and the redirect follow the blank-tile step as written: a URI shorter than four characters or an absent FORMAT is `Fault`, otherwise the chain decides |

## Left out

- `apr_strnatcasecmp(a, b) == 0` is modelled as ASCII case-insensitive equality. Natural ordering's white-space skipping and digit-run handling are not modelled.
- APR tables are a sequence of entries. Their hashing and pool allocation are not modelled.
- `ap_unescape_url` is the uninterpreted parameter `unescape`.
  - A query token without '=' is stored with a NULL value. The source also passes that NULL to `ap_unescape_url` (line 110); the model does not treat this as a fault.
- The regular expression of `set_module` (line 689) is a hand-written predicate. The regex engine is not part of this model.
  - It includes PCRE's `$` matching before a final newline.
- The date service (`get_filename_and_date_from_date_service`, lines 401-444) is the parameter `lookup`. It maps the lookup URI to a status and the date and filename of the reply, and stands in for the sub-request, its buffer and the JSON decoding.
- `apr_stat` (line 637) is the boolean `fileExists`.
- `ap_internal_redirect` is the `Redirect` outcome, not a transfer of control.
- The logging lines (a UUID and a timestamp) are left out as telemetry.
- Back-end lookup is simplified. The source probes both mod_reproject and mod_mrf (lines 542-550); the model is given one back-end (`Backend`), with `NoBackend` when neither has levels.
  - A directory configured for both modules at once is not modelled.
- Undefined behaviour of the C code is the `Fault` outcome:
  - indexing the token array out of range;
  - popping from an empty token array;
  - dereferencing NULL;
  - reading `rsets` outside its length or with `max_width` uninitialised;
  - writing a sixth error into the five slots of `wmts_errors` in `pre_hook`;
  - a `remove_date_from_uri` result that overflows its buffer.

  What the C code then actually does is not modelled.
- `add_date_to_filename` (lines 208-215) is left out: the module never calls it, and it relies on `strptime`/`strftime`.
- Registration glue is left out: the directive setters other than the role and date pattern of `set_module`, `register_hooks`, the command table and the module record.
- PreHook.CheckCoords: on a fault, what the error array then holds is left unstated. The source's behaviour there is undefined.
- PreHook.CheckBounds: as for `PreHook.CheckCoords`, on a fault.
- PreHook.CheckDims: as for `PreHook.CheckCoords`, on a fault.

## Findings

| source | as written | input that shows it | evidently intended | confidence | as-written member | corrected member |
|---|---|---|---|---|---|---|
| src/modules/mod_wmts_wrapper/mod_wmts_wrapper.cpp:559-566 | the level check is `tile_l > n_levels`, and `rsets[tile_l]` is read even when that check has failed | a one-level grid (one `rsets` entry) and TILEMATRIX 1: the check passes, and `rsets[1]` is read past the end | `tile_l >= n_levels`, as the message "maximum value is n_levels - 1" says, and no size read for a level out of range | not executed | PreHook.LevelPastGridAsWritten | PreHook.LevelInGrid |
| src/modules/mod_wmts_wrapper/mod_wmts_wrapper.cpp:475 | `wmts_error wmts_errors[5]`, but the TILEMATRIXSET pass can record one FORMAT, three integer, one TILEMATRIX and one TILECOL error | path `.../-1/-1/-1.jpg` on an image/png layer served by mod_mrf with one level, `skip_levels` 1 and two `rsets` entries: six errors, a write past the array | at most one of the level and column/row errors (no size read after a failed level check), so five slots suffice | not executed | PreHook.CoordErrorsOverflowAsWritten | PreHook.CoordErrorsFit |
| src/modules/mod_wmts_wrapper/mod_wmts_wrapper.cpp:240-241 | `apr_strnatcasecmp(param, "image/jpeg")` with `param` NULL when the request has no FORMAT | a failed REST request for `/layer/.../0/0/0.png` with no query string: `param` is NULL and is dereferenced | an absent FORMAT matches nothing and the URI ending decides (transparent.png here) | not executed | PostHook.BlankTileWithoutFormatAsWritten | PostHook.BlankTileChoices |

# REM Inspector (Minsal) — a verified model of the validation core

REM Inspector checks the monthly statistical reports ("REM") of Chilean
health establishments. Each report is an Excel workbook named
`<establishment code><series><two-digit month>.xlsm`, e.g. `116322A05.xlsm`.
The core does four things:

- It parses that name and reads the workbook's cells (`LectorXLSM`).
- It loads the "glosa" tables. Each series has one table, and a table
  row gives the sheet, row and first column where a prestación
  (service item) is reported (`LectorGlosa`).
- It scans a directory to see which series files are present for each
  establishment and month (`escanear_archivos_xlsm`).
- It runs two validators. `ValidadorFijo` makes fixed checks on the
  "NOMBRE" sheet. `ValidadorJSON` evaluates rules read from a JSON file:
  comparisons between constants and prestación values, with
  single-column or summed ranges, combined with AND or OR, and skipped
  when the rule spans series that are not all present.

The Dafny project has eight modules, one per source file plus two shared ones:

| module | file | models |
|---|---|---|
| `Wrappers` | `wrappers.dfy` | `Option` and `Result` (raised exceptions become `Err`) |
| `Values` | `values.dfy` | cell values (`None`, `int`, `str`), the two exceptions, ASCII `upper`/`lower`/`isalpha`/`strip`, `str()` of an int, Python string ordering |
| `Utils` | `utils.dfy` | `src/utils.py`: the column-letter codec and the month-name table |
| `XlsmParser` | `xlsm_parser.dfy` | `src/xlsm_parser.py`: the file-name regex and the `LectorXLSM` class |
| `GlosaParser` | `glosa_parser.dfy` | `src/glosa_parser.py`: series keys, extension and name filters, the `LectorGlosa` class and its lookups |
| `ScanFiles` | `scan_files.dfy` | `escanear_archivos_xlsm` of `main.py` |
| `HardcodedValidators` | `hardcoded_validators.dfy` | `src/hardcoded_validators.py`: the `ValidadorFijo` class |
| `JsonValidators` | `json_validators.dfy` | `src/json_validators.py`: the `ValidadorJSON` class |

The model keeps the source's own form:

- Every pure step is a function.
- Every source loop is a method with a `while`/`for` loop, proved equal
  to a specification function.
- Every class whose fields change (`libro`, `glosas`, `errores`) is a
  Dafny class with `modifies` clauses.

Around that, lemmas prove what the program promises:

- the column codec round-trips;
- a file name parses exactly when it has the documented shape;
- a glosa table is keyed by its upper-cased series and is found again
  in any case;
- the scan groups series by establishment and month;
- the fixed checks accept a correctly filled sheet and report at most
  six errors;
- rules combine under AND/OR as `all`/`any`;
- `validar` reports no error exactly when every rule passes or is
  skipped.

The outside world is given to the model as parameters:

- what `load_workbook` would read from a report (`disco`, `None` when
  loading fails);
- what pandas would read from a glosa file (`leido`, or the function
  `leer` for a whole directory);
- the directory listing (`nombres`);
- the parsed JSON rules (`reglasLeidas`).

## Model

| member | source | states |
|---|---|---|
| Values.Upper | src/utils.py:25 | `str.upper` on ASCII: same length; each lower-case letter becomes its upper-case letter; every other character is kept |
| Values.UpperIdempotent | src/glosa_parser.py:27 | upper-casing twice is upper-casing once, and the result has no lower-case letter |
| Values.UpperConcat | src/glosa_parser.py:26-27 | upper-casing distributes over concatenation |
| Values.UpperKeepsAlpha | src/utils.py:22-25 | `isalpha` holds after upper-casing exactly when it held before |
| Values.NatToString | src/glosa_parser.py:56 | `str` of a non-negative int is a non-empty digit string with no leading zero |
| Values.NatToStringValue | src/glosa_parser.py:56 | reading the decimal digits of `str(n)` back gives `n` |
| Values.IntToString | src/glosa_parser.py:56 | `str` of an int is non-empty and starts with '-' exactly when the int is negative |
| Values.Render | src/json_validators.py:70 | the f-string rendering of a value: a string renders as itself, a number as a non-empty text |
| Values.LexLessIrreflexive | src/json_validators.py:163 | no string is `<` itself |
| Values.LexTrichotomy | src/json_validators.py:163-164 | on strings exactly one of `a < b`, `a == b`, `b < a` holds |
| Values.LexLessTransitive | src/json_validators.py:163 | string `<` is transitive |
| Utils.ColumnaALetraExcel | src/utils.py:3-15 | raises the "entero positivo" ValueError for indices below 1; otherwise its divmod loop returns the bijective base-26 letters of the index |
| Utils.LetraExcelAColumna | src/utils.py:17-29 | raises the "solo caracteres alfabéticos" ValueError exactly when the text is not `isalpha` (so for ""); otherwise its loop returns the base-26 value of the upper-cased letters |
| Utils.LettersShape | src/utils.py:11-15 | the letters of a column are non-empty exactly when the index is at least 1, and are all 'A'..'Z' |
| Utils.ColumnValueOfLetters | src/utils.py:3-29 | converting an index to letters and back gives the index |
| Utils.LettersOfColumnValue | src/utils.py:3-29 | every upper-case word is the letters of the column it denotes, and a non-empty one denotes a column of at least 1 |
| Utils.ColumnRoundTrips | src/utils.py:3-29 | both round trips on every input the two functions accept, the letter one in any case |
| Utils.SingleLetter | src/utils.py:12-14 | columns 1 to 26 are the single letters A to Z |
| Utils.ColumnExamples | src/utils.py:4-7 | the documented examples 1 → A, 26 → Z, 27 → AA in both directions, and ZZ = 702, AAA = 703 |
| Utils.NombreMesANumero | src/utils.py:31-41 | a name is found exactly when its upper-cased form is in the table; the result is one of "01".."12" |
| Utils.MonthLookupIgnoresCase | src/utils.py:41 | a month name, its upper-case form and its lower-case form give the same number |
| Utils.MonthTableBijective | src/utils.py:36-40 | distinct month names map to distinct numbers |
| XlsmParser.BaseName | src/xlsm_parser.py:20 | `os.path.basename` has no '/' and leaves a path without '/' unchanged |
| XlsmParser.ParseBaseName | src/xlsm_parser.py:21-25 | a successful match yields a non-empty code, a non-empty series and a two-character month |
| XlsmParser.ParseSound | src/xlsm_parser.py:21-25 | what a match means: the name starts with the code (digits), then the series (letters, returned upper-cased), then the two month digits, then ".xlsm" in any case |
| XlsmParser.ParseComposed | src/xlsm_parser.py:21-25 | the converse: every name of that shape, followed by anything, parses to exactly its parts (leading zeros kept, series upper-cased) |
| XlsmParser.ParseRuns | src/xlsm_parser.py:21 | after the digit run and the letter run, the name is decided by two digits and ".xlsm" (any case) alone |
| XlsmParser.ParseExample | src/xlsm_parser.py:18 | the documented example `116322A05.xlsm` gives code 116322, series A, month 05 |
| XlsmParser.ParseExampleMixedCase | src/xlsm_parser.py:21-24 | with IGNORECASE, `0116322bm12.XLSM` gives code 0116322, series BM, month 12 |
| XlsmParser.ParseExamplePath | src/xlsm_parser.py:20-21 | the directory part of the path is ignored |
| XlsmParser.ParseRejectsShortMonth | src/xlsm_parser.py:21-27 | a one-digit month does not match |
| XlsmParser.ParseRejectsLongMonth | src/xlsm_parser.py:21-27 | a three-digit month does not match |
| XlsmParser.ParseRejectsNoCode | src/xlsm_parser.py:21-27 | a name without the leading code does not match |
| XlsmParser.ParseRejectsExtension | src/xlsm_parser.py:21-27 | another extension (`.xlsx`) does not match |
| XlsmParser.BaseNameAfterSlash | src/xlsm_parser.py:20 | the base name of a directory ending in '/' followed by an entry is the entry |
| XlsmParser.BaseNameOfJoin | src/xlsm_parser.py:20 | `basename(join(dir, entry))` is the entry |
| XlsmParser.SheetOf | src/xlsm_parser.py:42-44 | a sheet is found exactly when the workbook loaded and has a sheet of that name |
| XlsmParser.LeerCelda | src/xlsm_parser.py:46-63 | a read by column letter agrees with `obtener_valor_celda` and never raises; without the sheet it is `None` |
| XlsmParser.ValorCeldaCases | src/xlsm_parser.py:51-63 | `None` without the sheet; a non-empty letter wins over the index; an index of 1 or more reads its letters; with neither, it raises "Se debe proporcionar" |
| XlsmParser.FilaRango | src/xlsm_parser.py:74-75 | a range row has one value per column, each the cell at that column's letters |
| XlsmParser.ValoresRango | src/xlsm_parser.py:65-78 | `None` exactly without the sheet, otherwise one row per row of the range, each with one value per column, and the value at row `i`, column `j` is the sheet's cell at column `c0 + j`, row `f0 + i` |
| XlsmParser.ValoresRangoUnaFila | src/xlsm_parser.py:74-77 | a one-row range on an existing sheet is exactly one row of all its cells |
| XlsmParser.LectorXLSM.constructor | src/xlsm_parser.py:7-25 | the fields are the path and the three groups of its parsed name, with no workbook loaded |
| XlsmParser.NuevoLector | src/xlsm_parser.py:7-27 | constructing a reader succeeds exactly when the name parses; otherwise it raises the ValueError that quotes the base name |
| XlsmParser.LectorXLSM.CargarLibro | src/xlsm_parser.py:29-36 | `libro` becomes what loading gives, `None` when loading fails |
| XlsmParser.LectorXLSM.ObtenerHoja | src/xlsm_parser.py:38-44 | loads on first use and keeps a loaded workbook; returns the named sheet of the loaded workbook, if any |
| XlsmParser.LectorXLSM.ObtenerValorCelda | src/xlsm_parser.py:46-63 | returns `ValorCelda`, error cases included; afterwards the workbook is loaded (`libro == disco`) |
| XlsmParser.LectorXLSM.ObtenerValoresRango | src/xlsm_parser.py:65-78 | its row-by-row loop returns exactly `ValoresRango` of the range's columns and rows; afterwards the workbook is loaded (`libro == disco`) |
| XlsmParser.LectorXLSM.CerrarLibro | src/xlsm_parser.py:80-85 | afterwards no workbook is open; on a closed reader it changes nothing |
| GlosaParser.QuitarPrefijo | src/glosa_parser.py:26 | `replace("GLOSA_S", "")` never lengthens the text |
| GlosaParser.AntesDelPunto | src/glosa_parser.py:26 | `split(".")[0]` is the longest prefix without '.', and is followed by '.' when shorter than the text |
| GlosaParser.SerieDeArchivo | src/glosa_parser.py:25-27 | the series key has no lower-case letter and no '.' |
| GlosaParser.UltimoPunto | src/glosa_parser.py:12 | the position found holds the last '.', and none is found exactly when there is no '.' |
| GlosaParser.QuitarPrefijoLetras | src/glosa_parser.py:26 | letters followed by a dotted tail lose the prefix only from the tail |
| GlosaParser.SinPrefijoAlInicio | src/glosa_parser.py:26 | letters followed by a dotted tail cannot start with `GLOSA_S` |
| GlosaParser.QuitarPrefijoPunto | src/glosa_parser.py:26 | a tail starting with '.' still starts with '.' after the replacement |
| GlosaParser.AntesDelPuntoLetras | src/glosa_parser.py:26 | cutting letters followed by a dotted tail at the first '.' leaves the letters |
| GlosaParser.NombreGlosa | src/glosa_parser.py:46 | `GLOSA_S<series><ext>` is a slash-free entry ending in its extension |
| GlosaParser.SerieDeGlosa | src/glosa_parser.py:25-27 | a table loaded from `<dir>/GLOSA_S<series>.<ext>` is keyed by the series upper-cased |
| GlosaParser.SerieDeGlosaExample | src/glosa_parser.py:25-27 | `glosa/GLOSA_SA.xlsx` is keyed "A" |
| GlosaParser.SerieDeGlosaMixedCase | src/glosa_parser.py:25-27 | `glosa/GLOSA_Sbm.xls` is keyed "BM" |
| GlosaParser.ExtensionOf | src/glosa_parser.py:11-12 | `splitext(...)[1].lower()` of a slash-free entry ending in a dotted suffix is that suffix lower-cased |
| GlosaParser.ExtensionLeida | src/glosa_parser.py:17-20 | `.xlsx`, `.xls` and `.xlsm` are the extensions the loader reads |
| GlosaParser.AdmittedIsSupported | src/glosa_parser.py:17-48 | every entry the directory filter admits has an extension the single loader reads |
| GlosaParser.FilterExamples | src/glosa_parser.py:46 | the directory filter is case-sensitive and leaves out `.xlsm` |
| GlosaParser.FailedLoadKeepsStore | src/glosa_parser.py:14-42 | an unsupported extension or a failed read leaves the store unchanged |
| GlosaParser.ReloadReplaces | src/glosa_parser.py:37 | loading the same series again replaces its table and keeps every other key |
| GlosaParser.LoadThenLookup | src/glosa_parser.py:14-51 | after loading `GLOSA_S<series><ext>`, the table is found under the series in any case |
| GlosaParser.CargarTodasKeys | src/glosa_parser.py:44-48 | every key after a directory load was there before, or is the series of an admitted entry whose read succeeded |
| GlosaParser.CargarTodasUltima | src/glosa_parser.py:27-48 | a key that some entry of the listing stores ends up in the store, holding the table of the last entry that stores it |
| GlosaParser.CargarTodasIncluye | src/glosa_parser.py:17-48 | every admitted entry whose read succeeds has its series as a key after the load, holding the table of that entry or of a later admitted entry of the same series |
| GlosaParser.CargarTodasUpperKeys | src/glosa_parser.py:27-48 | a directory load into an upper-case store leaves every key upper-case |
| GlosaParser.GlosaPorSerie | src/glosa_parser.py:50-51 | a table is found exactly when the upper-cased series is a key, and it is that key's table |
| GlosaParser.GlosaPorSerieIgnoresCase | src/glosa_parser.py:50-51 | a series, its upper-case form and its lower-case form find the same table |
| GlosaParser.PrimeraFila | src/glosa_parser.py:56-58 | the index of the first row with the code; none exactly when no row has it |
| GlosaParser.InfoPrestacion | src/glosa_parser.py:53-59 | the row returned is in the series' table and carries `str(codigo)`; `None` exactly when there is no table or no such row |
| GlosaParser.InfoPrestacionFirst | src/glosa_parser.py:56-58 | the first row that carries the code is the one returned |
| GlosaParser.LectorGlosa.constructor | src/glosa_parser.py:7-9 | the directory is stored and the store starts empty |
| GlosaParser.LectorGlosa.CargarArchivoGlosa | src/glosa_parser.py:14-42 | the store after one load follows `TrasCargar`; returns the table read when the extension is supported, otherwise `None` |
| GlosaParser.LectorGlosa.CargarTodasGlosas | src/glosa_parser.py:44-48 | its loop over the listing leaves the store `CargarTodas` describes |
| ScanFiles.Aporte | main.py:11-17 | an entry adds something only if it ends in ".xlsm" and its name parses |
| ScanFiles.EscanearArchivosXLSM | main.py:8-20 | its loop over the listing returns exactly `Escaneo` of the listing |
| ScanFiles.AgregarArchivo | main.py:11-19 | one loop iteration: a rejected entry leaves the map; an accepted one appends its series under its key, creating the list on first use |
| ScanFiles.EscaneoPaso | main.py:10-19 | scanning one more entry adds its contribution, if any |
| ScanFiles.EscaneoAgrupa | main.py:8-20 | a key is in the result exactly when some entry contributes to it, and its list is those entries' series in listing order |
| ScanFiles.EscaneoNoVacio | main.py:15-17 | no key maps to an empty list |
| ScanFiles.EscaneoForma | main.py:13-17 | every key is a digit code and a two-digit month, and every listed series is upper-case letters |
| ScanFiles.AporteDe | main.py:13 | what an entry contributes depends on its own name, not on the directory |
| ScanFiles.AporteExample | main.py:11-17 | `116322A05.xlsm` contributes series A under (116322, 05) |
| ScanFiles.AporteUpperSuffix | main.py:11 | the ".xlsm" test is case-sensitive: `.XLSM` is not scanned |
| ScanFiles.AporteRejected | main.py:12-19 | a name the reader rejects (a one-digit month) is skipped |
| HardcodedValidators.NombreEsperado | src/hardcoded_validators.py:97-102 | a month has an expected name exactly when the number is in the table |
| HardcodedValidators.MesesInversos | src/hardcoded_validators.py:97-101 | this number-to-name table and the name-to-number table of `nombre_mes_a_numero` are inverse to each other |
| HardcodedValidators.NombreMesCoincide | src/hardcoded_validators.py:85-105 | a non-blank B6 passes exactly when `nombre_mes_a_numero` maps it back to the file's month |
| HardcodedValidators.MesSinNombreFalla | src/hardcoded_validators.py:102-105 | a month outside the table always gives exactly one month-name error |
| HardcodedValidators.UnirConcat | src/hardcoded_validators.py:66 | joining the non-`None` cells distributes over splitting the row |
| HardcodedValidators.UnirVacias | src/hardcoded_validators.py:66 | a row of `None` joins to "" |
| HardcodedValidators.UnirSaltaVacias | src/hardcoded_validators.py:66 | an empty cell contributes nothing wherever it sits |
| HardcodedValidators.RangoCodigoLegible | src/hardcoded_validators.py:60-69 | on an existing sheet the model reads C3:H3 as one row of six cells (see "Left out" on short reads), and the code check passes exactly when their join equals the file's code |
| HardcodedValidators.CodigoCorrecto | src/hardcoded_validators.py:56-69 | the code alone in C3 with D3:H3 empty passes the code check |
| HardcodedValidators.FilaCodigo | src/hardcoded_validators.py:66 | row C3:H3 holding only C3 joins to C3's text |
| HardcodedValidators.FilaTres | src/hardcoded_validators.py:60 | row 3 from C to H lists C3, D3, E3, F3, G3, H3 |
| HardcodedValidators.CeldasCorrectas | src/hardcoded_validators.py:71-83 | filled B2, B3 and C2 pass the required-cells check |
| HardcodedValidators.NombreMesCorrecto | src/hardcoded_validators.py:85-105 | the month's name, in any case, passes the name check |
| HardcodedValidators.NumeroMesCorrecto | src/hardcoded_validators.py:107-123 | the month's two digits as text in C6 and D6 pass the number check |
| HardcodedValidators.NumeroMesEjemplos | src/hardcoded_validators.py:113-123 | 0 and 5 pass for "05", as do "05" and ""; an empty D6 and a swapped "50" fail with their messages |
| HardcodedValidators.MesCorrecto | src/hardcoded_validators.py:85-123 | B6 holding the month's name, and C6 and D6 its digits, pass both month checks |
| HardcodedValidators.HojaSinErrores | src/hardcoded_validators.py:41-54 | on an existing sheet where each of the four checks passes, the sheet has no error |
| HardcodedValidators.HojaCorrecta | src/hardcoded_validators.py:16-123 | a NOMBRE sheet filled as the template expects makes `validar_todo` report nothing |
| HardcodedValidators.ConvencionDeLector | src/hardcoded_validators.py:30-39 | a reader built from a parsed name always passes the naming convention, so all errors come from the sheet |
| HardcodedValidators.SinHojaUnError | src/hardcoded_validators.py:41-49 | without the NOMBRE sheet the only error is the missing-sheet one |
| HardcodedValidators.HojaAcotada | src/hardcoded_validators.py:56-123 | the four sheet checks add at most six messages together |
| HardcodedValidators.ErroresAcotados | src/hardcoded_validators.py:16-28 | `validar_todo` reports at most six errors |
| HardcodedValidators.RefCeldaPartes | src/hardcoded_validators.py:75-77 | the required cells are column B of rows 2 and 3, as `ref_celda[0]` and `int(ref_celda[1:])` read them |
| HardcodedValidators.ColumnLetters | src/hardcoded_validators.py:60-81 | columns 3 to 8 are named C to H |
| HardcodedValidators.ColumnValuesCGH | src/hardcoded_validators.py:60-81 | the columns C, G, H read back as 3, 7, 8 |
| HardcodedValidators.RangosFijos | src/hardcoded_validators.py:60-81 | the fixed ranges C2:G2 and C3:H3 are well formed |
| HardcodedValidators.ValidadorFijo.constructor | src/hardcoded_validators.py:6-8 | keeps the reader, with no errors |
| HardcodedValidators.ValidadorFijo.AgregarError | src/hardcoded_validators.py:10-11 | appends one message |
| HardcodedValidators.ValidadorFijo.ObtenerErrores | src/hardcoded_validators.py:13-14 | returns the error list |
| HardcodedValidators.ValidadorFijo.ValidarTodo | src/hardcoded_validators.py:16-28 | resets the list and leaves exactly `ErroresFijos` (the convention error alone, or the sheet's errors in order); true exactly when that list is empty; when the convention passes the workbook is loaded afterwards, and when it fails the workbook is untouched |
| HardcodedValidators.ValidadorFijo.ValidarConvencionNombreArchivo | src/hardcoded_validators.py:30-39 | appends the convention error exactly when the code, series or month is empty, and reports whether it passed |
| HardcodedValidators.ValidadorFijo.ValidarHojaNombre | src/hardcoded_validators.py:41-54 | appends the missing-sheet error, or the four checks' errors in order; afterwards the workbook is loaded (`libro == disco`) |
| HardcodedValidators.ValidadorFijo.ValidarCodigoEstablecimiento | src/hardcoded_validators.py:56-69 | appends the unreadable-range error, or the mismatch error when the join of C3:H3 differs from the file's code; afterwards the workbook is loaded (`libro == disco`) |
| HardcodedValidators.ValidadorFijo.ValidarCeldasRequeridas | src/hardcoded_validators.py:71-83 | appends one error per blank cell of B2 and B3, then one if C2:G2 has no filled cell; afterwards the workbook is loaded (`libro == disco`) |
| HardcodedValidators.ValidadorFijo.ValidarCeldasSueltas | src/hardcoded_validators.py:75-79 | its loop over B2 and B3 appends one error per cell that is `None` or blank; afterwards the workbook is loaded (`libro == disco`) |
| HardcodedValidators.ValidadorFijo.ValidarRangoRequerido | src/hardcoded_validators.py:81-83 | appends the range error when C2:G2 cannot be read or its first row has no filled cell; afterwards the workbook is loaded (`libro == disco`) |
| HardcodedValidators.ValidadorFijo.ValidarNombreMes | src/hardcoded_validators.py:85-105 | appends the empty-name error for a falsy or blank B6; otherwise the mismatch error when B6 upper-cased is not the month's name; afterwards the workbook is loaded (`libro == disco`) |
| HardcodedValidators.ValidadorFijo.ValidarNumeroMes | src/hardcoded_validators.py:107-123 | appends the empty error when C6 or D6 is `None`; otherwise the mismatch error when their concatenation differs from the month; afterwards the workbook is loaded (`libro == disco`) |
| JsonValidators.Comparar | src/json_validators.py:160-170 | raises TypeError exactly for an ordering between values that are not both numbers or both strings; an unknown operator is false |
| JsonValidators.CompararOrden | src/json_validators.py:160-167 | on two numbers or two strings: exactly one of `<`, `==`, `>`; `<=` and `>=` negate `>` and `<`; `>` is `<` swapped; `!=` negates `==` |
| JsonValidators.TextoOperador | src/json_validators.py:172-181 | the text is the operator itself exactly when the operator is not one of the six |
| JsonValidators.SumaRangoFalla | src/json_validators.py:136-144 | the range loop raises exactly when the range is not empty and its first column is below 1, and it then raises the column-index ValueError |
| JsonValidators.SumaRangoLetras | src/json_validators.py:137-141 | the letters listed are those of columns `inicio + start` to `inicio + end`, one per offset, in order |
| JsonValidators.SumaRangoTotal | src/json_validators.py:136-144 | from a valid first column, the total is the sum of the numeric cells of those columns, read one by one |
| JsonValidators.SumaRangoSinHoja | src/json_validators.py:142-144 | without the sheet the total is 0 |
| JsonValidators.ColumnasDeRango | src/json_validators.py:146-150 | the location text is "" for an empty range, "Columna X" for one column, "Columnas X a Y" from first to last otherwise |
| JsonValidators.SerieImplicita | src/json_validators.py:101 | an operand without "series" reads the report's own series |
| JsonValidators.SubReglaResultado | src/json_validators.py:49-77 | a sub-rule holds exactly when both values were found and the comparison is true; it gives one sentence, or one per missing value |
| JsonValidators.SubReglaDesconocida | src/json_validators.py:104-111 | a prestación the glosa lacks fails its sub-rule with the "Valor no encontrado … en N/A." sentence naming the code and series |
| JsonValidators.EvaluacionForma | src/json_validators.py:46-77 | the sub-rules evaluate without raising exactly when each does; then there is one result per sub-rule, in order, and one or two sentences each |
| JsonValidators.EvaluarUna | src/json_validators.py:46-77 | a single sub-rule's evaluation is its own result and sentences |
| JsonValidators.ReglaY | src/json_validators.py:79-81 | under AND (the default) a rule passes exactly when every sub-rule holds |
| JsonValidators.ReglaO | src/json_validators.py:82-83 | under OR a rule passes exactly when some sub-rule holds |
| JsonValidators.ReglaOtroOperador | src/json_validators.py:79-89 | under any other logical operator an evaluated rule always fails |
| JsonValidators.OperadorSinMayusculas | src/json_validators.py:35 | the logical operator ignores case and defaults to AND |
| JsonValidators.SentenciasEnOrden | src/json_validators.py:46-77 | the sentences the sub-rule loop collects are those of each sub-rule evaluated on its own, concatenated in the order of the sub-rules |
| JsonValidators.MensajeDeSubReglas | src/json_validators.py:85-89 | a failing rule's message is its prefix followed by the sentences of every sub-rule, in order, joined by the rule's logical operator between spaces |
| JsonValidators.MensajeDeRegla | src/json_validators.py:85-89 | a failing rule was not skipped, and its message starts with "Validación '<name>' falló: " ("sin nombre" when unnamed) |
| JsonValidators.MensajeUnaSubRegla | src/json_validators.py:85-89 | with one sub-rule, the message is the prefix and that sub-rule's sentences joined by the operator |
| JsonValidators.UnaSerieNoSeOmite | src/json_validators.py:38-39 | a rule naming at most one series is never skipped |
| JsonValidators.OmitidaSerieMinuscula | src/json_validators.py:37-44 | because scanned series are upper-case, a multi-series rule that names a lower-case series is always skipped |
| JsonValidators.ReglaConstantesIguales | src/json_validators.py:32-89 | a rule comparing 5 == 5 passes |
| JsonValidators.MensajeMenorQue | src/json_validators.py:65-71 | the sentence for `3 < 2` between constants is "'valor constante' () debe ser menor que 2." |
| JsonValidators.SubReglaConstantesFalla | src/json_validators.py:53-77 | the sub-rule `3 < 2` fails with that sentence |
| JsonValidators.ReglaConstantesFalla | src/json_validators.py:32-89 | a rule made of `3 < 2` fails with its name and that sentence |
| JsonValidators.EjecutarCorrecto | src/json_validators.py:26-30 | a run raises exactly when some rule raises; without an exception, no error is left exactly when every rule passes or is skipped; at most one error per rule |
| JsonValidators.ValidadorJSON.constructor | src/json_validators.py:8-21 | the rules are the "validations" list, or none when the file is missing or is not valid JSON; the error list starts empty |
| JsonValidators.ValidadorJSON.ObtenerErrores | src/json_validators.py:23-24 | returns the error list |
| JsonValidators.ValidadorJSON.Validar | src/json_validators.py:26-30 | its loop leaves exactly the errors `Ejecutar` gives; returns the first exception, or whether the list is empty; a loaded workbook stays loaded, and otherwise it is either still unloaded or loaded (`libro` is its old value or `disco`) |
| JsonValidators.ValidadorJSON.EvaluarRegla | src/json_validators.py:32-89 | appends the rule's message when it fails; the exception raised is that of `ReglaSpec`; a loaded workbook stays loaded, and otherwise it is either still unloaded or loaded (`libro` is its old value or `disco`) |
| JsonValidators.ValidadorJSON.EvaluarSubReglasDe | src/json_validators.py:46-77 | its loop over the sub-rules returns exactly `EvaluarSubReglas`; a loaded workbook stays loaded, and otherwise it is either still unloaded or loaded (`libro` is its old value or `disco`) |
| JsonValidators.ValidadorJSON.EvaluarSubReglaDe | src/json_validators.py:49-77 | one loop pass returns exactly `EvaluarSubRegla`; a loaded workbook stays loaded, and otherwise it is either still unloaded or loaded (`libro` is its old value or `disco`) |
| JsonValidators.ValidadorJSON.ObtenerValor | src/json_validators.py:91-158 | returns exactly `ValorSpec`: a constant, an unknown prestación, one column, a summed range, or neither key; a loaded workbook stays loaded, and otherwise it is either still unloaded or loaded (`libro` is its old value or `disco`) |
| JsonValidators.ValidadorJSON.SumarRango | src/json_validators.py:132-156 | its offset loop returns exactly `SumaRango`, stopping at the first column below 1; a loaded workbook stays loaded, and otherwise it is either still unloaded or loaded (`libro` is its old value or `disco`) |
| JsonValidators.ValidadorJSON.LeerColumna | src/json_validators.py:123-125 | below column 1 it raises the column-index ValueError; otherwise it returns the column's letters and its cell; a read leaves the workbook loaded, and the raise leaves it untouched |
| JsonValidators.ValidadorJSON.AgregarError | src/json_validators.py:183-184 | appends one message |

## Left out

- The GUI (`src/validation_gui.py`), `main()` with its argument parsing, and the `__main__` demo blocks of every file: they are drivers, not part of the validation logic.
- Every `print` diagnostic: console output only.
- File and library I/O. What the model takes instead:
  - the workbook `load_workbook` would read (`disco`);
  - the table pandas would read (`leido`, `leer`; `None` when it raises, which also covers a file with fewer than ten columns);
  - the directory listing (`nombres`);
  - the decoded JSON rules (`reglasLeidas`, `None` for a missing file or one that is not valid JSON).
- `libro.close()` is modelled only as forgetting the workbook.
- Loading the JSON rules: only `FileNotFoundError` and `json.JSONDecodeError` are caught (src/json_validators.py:14-21). The model does not cover the other failures, which propagate out of the constructor in the source: any other `OSError` (no permission, a directory), a `UnicodeDecodeError` on a file that is not UTF-8, and a top-level JSON value that is not an object (its `.get` raises `AttributeError`).
- A range read on an existing sheet always yields every requested row and column. openpyxl, especially in read-only mode, may return fewer rows than the range spans, for example past the last stored row. So the guard `not valores_rango or not valores_rango[0]` (src/hardcoded_validators.py:62-64) can fire in the source on an existing sheet, but in the model it fires only when the sheet is missing.
- Floats and Python booleans: cell and JSON values are `None`, `int` or `str`. So `isinstance(valor, (int, float))` in the range sum tests for an int only.
- Unicode: `upper`, `lower`, `isalpha`, `isdigit` (`\d`) and `strip` are modelled on ASCII only. The same holds for the case-insensitive file-name pattern (`re.IGNORECASE`, src/xlsm_parser.py:21): there `[A-Z]` also matches non-ASCII letters whose case maps into A to Z, such as the dotless 'ı', the dotted 'İ', the long 'ſ' and the Kelvin sign, and the 's' of `\.xlsm` also matches 'ſ'. The model treats all of these as non-letters and rejects names that use them.
- Paths are POSIX paths with '/' as separator.
- An openpyxl worksheet or workbook is taken to be always truthy.
- A cell address that openpyxl would reject (a malformed column, a row below 1) reads as an empty cell. So does a lower-case column letter, which openpyxl accepts and upper-cases; no read in the modelled code passes one, since the fixed checks use upper-case letters and the rule engine uses `Letters`.
- `XlsmParser.LectorXLSM.ObtenerValoresRango` receives the range corners as column letters and a row (`CellRef`) rather than strings like `"C3"`. It requires a range openpyxl accepts: upper-case letters, corners in order.
- A glosa row's `inicio` is an `int`. So the branch where `int(inicio)` fails and `_obtener_valor` returns `None` (after which the caller would fail when indexing it) is not modelled. The `astype(str)` of the code column is taken as already done: codes are strings.
- An operand whose "type" is neither "constant" nor "prestacion" cannot be written, because the datatype has only those two cases. In the source, line 158 would then fail, since `info_prestacion` is unbound.
- JSON rules with missing "lhs", "rhs" or "operator" keys (a `KeyError` in the source) cannot be written either: the datatype makes those fields mandatory.
- The source's long methods are split into helper methods. The split does not change behaviour:
  - the loops of `_evaluar_regla` and their bodies (`EvaluarSubReglasDe`, `EvaluarSubReglaDe`);
  - the column and range reads of `_obtener_valor` (`LeerColumna`, `SumarRango`);
  - the two parts of `_validar_celdas_requeridas` (`ValidarCeldasSueltas`, `ValidarRangoRequerido`);
  - the loop body of `escanear_archivos_xlsm` (`AgregarArchivo`).
- GlosaParser.QuitarPrefijo: its own contract only bounds the length. What the replacement does to a series name is stated by `QuitarPrefijoLetras` and `SerieDeGlosa`.

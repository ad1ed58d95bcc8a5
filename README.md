# Cost-sheet report parser

This project is a verified Dafny model of the report parser of *conversor-hojas-de-coste*. The parser reads two
fixed-width exports of the same cost sheet: the "coste" report and the "venta" report. Either one may be
missing. It turns them into a list of validated material rows and a list of validated labour rows.

The model has these modules:

- `PyText`: the Python string operations the parser relies on. These are `str.isspace`, `strip()`, slicing with
  clamped bounds, and `str.replace` on single characters.
- `FieldCodec`: decoding of the report columns.
  - Numbers are in European format. Every `.` is removed, every `,` becomes `.`, and the result goes to
    `float()`. The value is kept exactly, as a mantissa and a power-of-ten scale.
  - Dates are in `dd/mm/yyyy` format and read as `strptime("%d/%m/%Y")` reads them.
- `Sections`: the landmarks of a report.
  - the `Desde Fecha … Hasta Fecha …` regular expression, searched as `re.search` does;
  - the `_+M A T E R I A L_+` and `_+M A N O   D E   O B R A_+` banners;
  - the exact lines that close each section.
- `RowChecks`: what the two row builders share.
  - the column names;
  - the two row errors, `NotValidError` and `IncongruentError`;
  - the date and number readers;
  - the cost/sell congruence loop;
  - a declarative list of checks, where the first failing check decides the error.
- `MaterialLines`, `JobLines`: `MaterialLine.parse` and `JobLine.parse`. Each one cuts fixed columns from the
  guide, cost and sell lines, then validates them in the source's order.
- `ParseFile`: the section-scanning driver of `ParseFile`. Each of its loops is both a recursive function over the
  cursor and a `while` method proved equal to that function. The loops are:
  - the preamble skip;
  - the materials loop;
  - the labour seek;
  - the labour loop.

  What the scan finds is stated in lemmas: where each section starts and stops, which rows are kept, which errors
  are printed, and which failures can occur.
- `ProjectFiles`: the `todos` command.
  - It classifies file names and pairs the reports of each project.
  - The pairing is a `FicherosProyecto` class in an insertion-ordered dictionary. The second loop updates each
    entry's `archivoCoste` field in place.
  - The command then parses every project in dictionary order.
  - The dictionary is also specified on values and characterised independently: one entry per project, holding
    the last report of each kind.

A row's `line_number` is its 0-based index in the report. Error values carry that index plus one, as the
messages print it.

Two behaviours of the scanning code are kept as written:

- The scanning loops advance the cursor before every read. So a materials or labour section without its closing
  line runs off the end of the report, which raises an `IndexError`; the section is not closed by the end of the
  report. In the model it is the fatal `IndexOutOfRange` (`ParseFile.NoClosingNoScan`).
- The labour seek that starts past the end of the report does not fail, because its `while` loop is never entered.
  The cursor then moves two lines on, and the labour loop is not entered either.

## Model

| member | source | states |
|---|---|---|
| FieldCodec.ParseDecimalAccepts | conversor_hojas_coste/material_line.py:102-109 | `float()` on the normalised text succeeds exactly on the decimal literals: an optional sign, digits, at most one point, at least one digit |
| FieldCodec.NormalizePoints | conversor_hojas_coste/material_line.py:103-105 | after `.replace(".", "").replace(",", ".")`, the text has no comma and exactly as many points as the raw text had commas |
| FieldCodec.SeveralCommasRejected | conversor_hojas_coste/material_line.py:102-109 | a number with two or more commas is always a format error |
| FieldCodec.ThousandsSeparatorIgnored | conversor_hojas_coste/material_line.py:103-105 | a `.` inserted anywhere in a number does not change what it reads as |
| FieldCodec.EuropeanNumber | conversor_hojas_coste/material_line.py:102-109 | `[-]digits,digits` reads exactly as that signed decimal, with as many decimal places as digits after the comma |
| FieldCodec.ParseDate | conversor_hojas_coste/material_line.py:88-95 | a date that reads is a real calendar day with a four-digit year |
| FieldCodec.FormatDateRoundTrip | conversor_hojas_coste/material_line.py:88-91 | every calendar date printed as `dd/mm/yyyy` reads back as itself |
| FieldCodec.ParseDateCanonical | conversor_hojas_coste/material_line.py:88-91 | a `dd/mm/yyyy` text that reads is the canonical printing of its date |
| RowChecks.ReadDate | conversor_hojas_coste/material_line.py:83-95 | a blank date is an `Empty` `NotValid` error, and an unreadable one is `Malformed`; both report line n+1; otherwise the date is the `strptime` date |
| RowChecks.ReadNumber | conversor_hojas_coste/material_line.py:97-109 | a blank number is `Empty`, and one that `float()` rejects after normalisation is `Malformed`; both report line n+1; otherwise the value is the parsed number |
| RowChecks.Congruence | conversor_hojas_coste/material_line.py:174-201 | the loop succeeds exactly when every pair agrees; otherwise it raises `Incongruent` for the first differing pair, with both texts |
| RowChecks.FirstComplaint | conversor_hojas_coste/material_line.py:83-201 | the reference for validation order: none exactly when no check complains, otherwise the complaint of the first check that does |
| RowChecks.CongruenceIsChecks | conversor_hojas_coste/job_line.py:257-294 | the congruence loop raises exactly the first complaint of its per-pair checks |
| Sections.SearchRange | conversor_hojas_coste/parse_file.py:116-119 | both dates captured by the range expression have the `\d{2}/\d{2}/\d{4}` layout |
| Sections.RangeFound | conversor_hojas_coste/parse_file.py:116-123 | a line that shows `Desde Fecha`, blanks, a date, blanks, `Hasta Fecha`, blanks and a date yields exactly those two dates |
| Sections.SearchFinds | conversor_hojas_coste/parse_file.py:116-119 | a range found from position `i` is the match at some `k >= i`, and no match starts between `i` and `k` |
| Sections.RangeAtShows | conversor_hojas_coste/parse_file.py:116-119 | a match at `i` shows there `Desde Fecha`, a non-empty run of blanks, the first date, a non-empty run of blanks, `Hasta Fecha`, a non-empty run of blanks and the second date |
| Sections.RangeShown | conversor_hojas_coste/parse_file.py:116-123 | conversely to `RangeFound`: the dates found on a line are shown on it in the range text, at the leftmost position where the expression matches |
| Sections.DateRangeDigits | conversor_hojas_coste/parse_file.py:121-133 | a range is found exactly when the expression matches; each date then loses its slashes and keeps its eight digits in order |
| Sections.BannerShape | conversor_hojas_coste/parse_file.py:143-146 | a header banner is underscores, the title, then underscores to the end |
| Sections.BannerOfShape | conversor_hojas_coste/parse_file.py:143-146 | every non-empty run of underscores, then the title, then a non-empty run of underscores, is a banner |
| MaterialLines.Parse | conversor_hojas_coste/material_line.py:53-79 | an accepted row keeps its 0-based line index; its four identity texts are the stripped guide columns [0,16), [16,57), [57,68) and [68,80); its price and amount texts are the cost or sell line's [80,96) and [96,112) when that side is in use, and `""` otherwise; a blank date column is rejected first |
| MaterialLines.Cut | conversor_hojas_coste/material_line.py:66-79 | the price and amount texts of a side not in use stay `""` |
| MaterialLines.Validate | conversor_hojas_coste/material_line.py:83-201 | an accepted row carries every column text, the parsed date and numbers, and zero for an unused side; its identity pairs agree when both sides are in use; every error reports line n+1; an incongruence can arise only with both sides in use and is the congruence loop's error |
| MaterialLines.ReadRow | conversor_hojas_coste/material_line.py:83-171 | the checks before the congruence loop: an accepted row carries every column text, the parsed date and numbers, and zero for an unused side; every error reports line n+1 and none is an incongruence |
| MaterialLines.PairsUnused | conversor_hojas_coste/material_line.py:174-201 | without both sides in use the result does not depend on the identity pairs, since the congruence loop is skipped |
| MaterialLines.ValidateFollowsChecks | conversor_hojas_coste/material_line.py:83-201 | the error of a row is the first complaint of its checks, in this order: date, quantity, cost price and amount, sell price and amount, then the four identity columns; a row is accepted when none complains |
| MaterialLines.UnusedSideIgnored | conversor_hojas_coste/material_line.py:66-79 | the line of a side not in use does not change the result |
| MaterialLines.SameLinesCongruent | conversor_hojas_coste/material_line.py:174-201 | identical cost and sell lines never raise `Incongruent` |
| MaterialLines.AgreeingPairsCongruent | conversor_hojas_coste/material_line.py:174-201 | when all identity pairs agree, only `NotValid` errors remain |
| MaterialLines.ShortLineRejected | conversor_hojas_coste/material_line.py:83-86 | a guide line that ends before the date column is rejected for an empty date |
| JobLines.Parse | conversor_hojas_coste/job_line.py:65-105 | an accepted row keeps its 0-based line index; its six identity texts are guide columns cut at 4, 29, 40, 45, 70 and 78; cost price and total come from the cost line [78,86) and [102,113); cost allowance and travel come from the guide line [86,95) and [95,102); all four sell texts come from the sell line; a blank date column is rejected first |
| JobLines.Cut | conversor_hojas_coste/job_line.py:76-85 | a guide line too short to reach the date column gives an empty date text, never an error |
| JobLines.ReadSide | conversor_hojas_coste/job_line.py:137-194 | a side in use converts its price, total, allowance and travel in that order; a side not in use keeps four zeros; a failure is a `NotValid` error on line n+1 |
| JobLines.ReadSideErr | conversor_hojas_coste/job_line.py:137-194 | the side's error is that of its first failing column |
| JobLines.Validate | conversor_hojas_coste/job_line.py:109-294 | an accepted row carries all column texts, the parsed date and numbers, and zeros for an unused side; identity pairs agree when both sides are in use; errors report line n+1; an incongruence arises only with both sides in use |
| JobLines.ValidateFollowsChecks | conversor_hojas_coste/job_line.py:109-294 | the error of a row is the first complaint of its checks, in this order: date, quantity, the four cost columns, the four sell columns, then the six identity columns |
| JobLines.UnusedSideIgnored | conversor_hojas_coste/job_line.py:137-253 | the line of a side not in use does not decide whether a row is accepted or why it is rejected |
| JobLines.SameLinesCongruent | conversor_hojas_coste/job_line.py:257-294 | identical cost and sell lines never raise `Incongruent` |
| JobLines.ShortLineRejected | conversor_hojas_coste/job_line.py:109-112 | a blank or short guide line reaches the builder and is rejected for an empty date |
| ParseFile.Guide | conversor_hojas_coste/parse_file.py:92-102 | the guide is the cost report when it has lines, otherwise the sell report |
| ParseFile.ReadRow | conversor_hojas_coste/parse_file.py:205-215 | reading index k succeeds exactly when it is inside the guide and inside every report in use |
| ParseFile.StartFatal | conversor_hojas_coste/parse_file.py:92-149 | the opening reports no input exactly when both reports are empty; it reports a missing range only when guide line 5 has none; a bad header is the first `_` line, and that line is not the materials banner |
| ParseFile.NoInputFatal | conversor_hojas_coste/parse_file.py:92-99 | the whole parse reports no input exactly when neither report has lines |
| ParseFile.StartFinds | conversor_hojas_coste/parse_file.py:116-149 | after the opening, the dates are those of guide line 5, and the materials header is the first line starting with `_` |
| ParseFile.PreambleFindsRule | conversor_hojas_coste/parse_file.py:137-138 | the preamble loop stops at the first line starting with `_`; it fails only by running off the report or into an empty line |
| ParseFile.SkipPreamble | conversor_hojas_coste/parse_file.py:137-138 | the `while` loop computes the preamble function |
| ParseFile.Open | conversor_hojas_coste/parse_file.py:92-149 | guide choice, date range, preamble loop and header check compute the opening function |
| ParseFile.RowsFailOffEnd | conversor_hojas_coste/parse_file.py:201-215 | a section scan fails only with an index error |
| ParseFile.RowsStopAtClosing | conversor_hojas_coste/parse_file.py:236-240 | a successful scan from inside the report stops at the first closing line after the cursor, and that line is not parsed |
| ParseFile.RowsCollect | conversor_hojas_coste/parse_file.py:242-262 | a successful scan holds the accepted rows between the cursor and its stop, in order, and the printed errors of the rejected ones |
| ParseFile.RowsLayout | conversor_hojas_coste/parse_file.py:201-262 | where a section scan stops, and its records and log as functions of the rows in between |
| ParseFile.NoClosingNoScan | conversor_hojas_coste/parse_file.py:201-240 | without a closing line after the cursor, a section scan is an index error |
| ParseFile.ErrorsOnlyFilterLog | conversor_hojas_coste/parse_file.py:253-258 | the `errors` flag changes only the log of a scan: same outcome, same rows, same stop; without the flag only incongruences are printed |
| ParseFile.ScanRows | conversor_hojas_coste/parse_file.py:201-262 | the materials and labour `while` loops, with page-break `continue` and closing-line `break`, compute the scan function |
| ParseFile.SeekFindsHeader | conversor_hojas_coste/parse_file.py:265-278 | the labour seek stops at the first later line that starts with `_` and is the labour banner |
| ParseFile.SeekFailsOffEnd | conversor_hojas_coste/parse_file.py:265-271 | the labour seek fails only with an index error |
| ParseFile.SeekLayout | conversor_hojas_coste/parse_file.py:265-278 | a successful seek ends at or after its start, on the first labour header after it |
| ParseFile.SeekLabour | conversor_hojas_coste/parse_file.py:265-278 | the seek loop computes the seek function |
| ParseFile.LabourLayout | conversor_hojas_coste/parse_file.py:265-345 | the labour part: header after the cursor, job rows from three lines below it up to the labour closing line |
| ParseFile.ScanLabour | conversor_hojas_coste/parse_file.py:265-345 | seek, skip two lines, then the labour loop, as the labour-part function |
| ParseFile.BodyLayout | conversor_hojas_coste/parse_file.py:153-262 | material rows run from three lines below the header to the material closing line, and the labour part follows from there |
| ParseFile.SectionsLayout | conversor_hojas_coste/parse_file.py:153-345 | materials header, material closing line, labour header and labour closing line appear in that order; the report's rows and log are exactly those of the rows in between |
| ParseFile.BodyFatal | conversor_hojas_coste/parse_file.py:201-345 | after the opening, the only failure is an index error |
| ParseFile.ErrorsOnlyFilterBody | conversor_hojas_coste/parse_file.py:253-340 | the `errors` flag changes only what is printed after the opening |
| ParseFile.ErrorsOnlyFilterReport | conversor_hojas_coste/parse_file.py:253-340 | the `errors` flag changes only what is printed: same outcome, dates and rows; without it only incongruences |
| ParseFile.ScanBody | conversor_hojas_coste/parse_file.py:153-345 | the three loops after the opening compute the function of the phases after the opening |
| ParseFile.ParseSections | conversor_hojas_coste/parse_file.py:77-345 | the body of `ParseFile` computes the whole-report function for any row builders |
| ParseFile.Parse | conversor_hojas_coste/parse_file.py:77-345 | `ParseFile` with the real row builders computes the whole-report function |
| ProjectFiles.ProjectKey | conversor_hojas_coste/main.py:56-61 | the key is empty or six characters; it is the sell name's prefix for a sell report, and the cost name's prefix for a cost report without a sell name |
| ProjectFiles.FicherosProyecto.constructor | conversor_hojas_coste/main.py:55-64 | a new entry has the project key of its two names and keeps both names |
| ProjectFiles.LastNamed | conversor_hojas_coste/main.py:70-94 | it is empty exactly when no name is a report of that kind for that project |
| ProjectFiles.LastNamedFound | conversor_hojas_coste/main.py:70-94 | when it is not empty, it is the report of that kind for that project that no later name matches |
| ProjectFiles.VentaPassWf | conversor_hojas_coste/main.py:70-79 | the first loop keeps the dictionary well formed |
| ProjectFiles.VentaPassMeaning | conversor_hojas_coste/main.py:70-79 | after the first loop, the projects are those with a sell report; each holds its key, its last sell report and no cost report |
| ProjectFiles.CostePassStep | conversor_hojas_coste/main.py:82-94 | one name of the second loop: a cost report sets only the cost name of an existing entry or adds an entry without a sell name; any other name changes nothing |
| ProjectFiles.CostePassMeaning | conversor_hojas_coste/main.py:82-94 | after the second loop, the projects are those with either report; each keeps its sell name and holds its last cost report |
| ProjectFiles.CostePassAppends | conversor_hojas_coste/main.py:89-94 | the second loop keeps the existing keys in place with their sell names, and only appends keys without one |
| ProjectFiles.PairingMeaning | conversor_hojas_coste/main.py:70-94 | the dictionary is well formed and holds one entry per project with a report, with the last sell and cost report of that project |
| ProjectFiles.SellProjectsFirst | conversor_hojas_coste/main.py:70-94 | projects with a sell report come before those with only a cost report |
| ProjectFiles.Store | conversor_hojas_coste/main.py:77-78 | storing a new entry object is `d[k] = e` on the dictionary's value |
| ProjectFiles.VentaLoop | conversor_hojas_coste/main.py:70-79 | the first `for` loop builds fresh, distinct entry objects whose value is the first pass |
| ProjectFiles.SetCoste | conversor_hojas_coste/main.py:90-91 | updating `archivo_coste` in place changes that entry's cost name and nothing else |
| ProjectFiles.CosteLoop | conversor_hojas_coste/main.py:82-94 | the second `for` loop, updating entries in place, leaves the dictionary of the second pass |
| ProjectFiles.Collect | conversor_hojas_coste/main.py:66-94 | both loops build the pairing |
| ProjectFiles.SheetsOf | conversor_hojas_coste/main.py:112-114 | the cost report goes first and the sell report second; a missing name gives no lines |
| ProjectFiles.ProcessProjects | conversor_hojas_coste/main.py:110-118 | one parse per entry in insertion order, each on that entry's reports, up to the first fatal one |
| ProjectFiles.ConvertDirectory | conversor_hojas_coste/main.py:110-118 | the `todos` command parses the projects of the pairing in order and stops at the first fatal error |

## Left out

- Reading the files and decoding UTF-16LE, `listdir`, the `input` confirmation, `exit`, and the command-line
  wiring are I/O. The model receives the file names and a function from name to lines.
- `print` and the `verbose` branches are output. Row errors are kept as a log of the errors printed, without their
  message text. The diagnostics printed before a fatal error are not modelled.
- Python's `float()` is modelled only on plain decimal literals: optional sign, digits and at most one point. The
  forms `inf`, `nan`, exponents, underscores and non-ASCII digits are left out. Values are exact decimals, not
  binary floats.
- `strptime` is modelled on ASCII text only, following the `%d/%m/%Y` patterns.
- Building and saving the workbook (the rest of `parse_file.py`), `join_ot.py` and the `juntar` command are
  presentation through a foreign library.
- The `numero_ot` argument only names the output workbook, so it is left out.
- The unused `ficheros_procesados` list is left out.
- ProjectFiles.ConvertDirectory: the processing loop reads a snapshot of the entry objects, taken after both
  loops have run. It does not follow the objects themselves.
- ParseFile.ParseReport: there is no single lemma that states the whole report's layout. It is stated in two
  parts: `ParseFile.StartFinds` for the opening and `ParseFile.SectionsLayout` for what follows. They are joined
  by the definition of `ParseFile.ParseWith`.
- Sections.SearchRange: `\d` is modelled as the ASCII digits `0`-`9` only. A line whose dates use other Unicode
  decimal digits, which Python's `re` accepts, gives no range in the model.
- Sections.DateRange: for the same reason, such a line gives `DateRangeNotFound` in the model, where the code would
  go on to `strptime`.
- ProjectFiles.IsProjectFile: `str.isdigit` is modelled as the ASCII digits `0`-`9` only. A file name whose project
  number uses other Unicode digits is not paired in the model.
- A material guide line that is empty raises an index error, as `line_guide[0]` does in the code. `readlines`
  never produces one.

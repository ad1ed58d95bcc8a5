/**
 * The section-scanning driver (`ParseFile`): choose the guide report, read
 * the date range, skip the preamble to the materials header, scan material
 * rows up to their closing line, seek the labour header, and scan labour
 * rows up to their closing line. The cursor is advanced before every read,
 * so running off the end of the report is an index error, as in the code.
 *
 * Each phase is a recursive function over the cursor (the declarative
 * reading of its loop) and a method with the loop itself, proved equal to it.
 */
module ParseFile {
  import opened Wrappers
  import opened RowChecks
  import opened Sections
  import MaterialLines
  import JobLines

  /** The two reports as lists of lines; a report that was not given is the empty list. */
  datatype Sheets = Sheets(cost: seq<string>, sell: seq<string>)

  predicate UseCost(s: Sheets) { |s.cost| > 0 }
  predicate UseSell(s: Sheets) { |s.sell| > 0 }

  /** The report whose layout drives the scan: the cost report when given, otherwise the sell report. */
  function Guide(s: Sheets): (g: seq<string>)
    ensures UseCost(s) ==> g == s.cost
    ensures !UseCost(s) ==> g == s.sell
  {
    if UseCost(s) then s.cost else s.sell
  }

  /** What stops the whole run: the `ValueError`s and the `IndexError` of `ParseFile`. */
  datatype Fatal =
    | NoInputFiles
    | IndexOutOfRange
    | DateRangeNotFound
    | NotMaterialHeader(index: nat)

  /** The three lines of one row: the guide line, and the line of each side (`""` for a side not in use). */
  datatype RowLines = RowLines(guide: string, cost: string, sell: string)

  /** The lines at index `k`, or `None` where one of the reads is past the end of its report. */
  function ReadRow(s: Sheets, k: nat): (r: Option<RowLines>)
    ensures r.Some? <==> k < |Guide(s)| && (UseCost(s) ==> k < |s.cost|) && (UseSell(s) ==> k < |s.sell|)
    ensures r.Some? ==> r.value.guide == Guide(s)[k]
  {
    if UseCost(s) && k >= |s.cost| then None
    else if UseSell(s) && k >= |s.sell| then None
    else if k >= |Guide(s)| then None
    else Some(RowLines(Guide(s)[k], if UseCost(s) then s.cost[k] else "", if UseSell(s) then s.sell[k] else ""))
  }

  /** The row errors that get printed: conversion errors only when `errors` is set, incongruences always. */
  function Logged(e: RowError, errors: bool): seq<RowError> {
    if errors || e.Incongruent? then [e] else []
  }

  /** The result of a scanning loop: the records appended, the errors printed, and where the cursor stopped. */
  datatype Scan<T> = Scan(records: seq<T>, log: seq<RowError>, cursor: nat)

  /** What the loop collected so far, followed by what the rest of the loop does. */
  function Then<T>(records: seq<T>, log: seq<RowError>, r: Result<Scan<T>, Fatal>): Result<Scan<T>, Fatal> {
    if r.Failure? then r else Success(Scan(records + r.value.records, log + r.value.log, r.value.cursor))
  }

  lemma ThenThen<T>(a: seq<T>, la: seq<RowError>, b: seq<T>, lb: seq<RowError>, r: Result<Scan<T>, Fatal>)
    ensures Then(a, la, Then(b, lb, r)) == Then(a + b, la + lb, r)
  {
    if r.Success? {
      assert a + (b + r.value.records) == (a + b) + r.value.records;
      assert la + (lb + r.value.log) == (la + lb) + r.value.log;
    }
  }

  lemma ThenNothing<T>(r: Result<Scan<T>, Fatal>)
    ensures Then([], [], r) == r
  {
    if r.Success? {
      assert [] + r.value.records == r.value.records;
      assert [] + r.value.log == r.value.log;
    }
  }

  lemma ThenStop<T>(records: seq<T>, log: seq<RowError>, c: nat)
    ensures Then(records, log, Success(Scan([], [], c))) == Success(Scan(records, log, c))
  {
    assert records + [] == records;
    assert log + [] == log;
  }

  // ------------------------------------------------------------ the phases

  /** The preamble loop: the first line from `c` on whose first character is `_`. */
  function PreambleEnd(g: seq<string>, c: nat): (r: Result<nat, Fatal>)
    decreases |g| - c
  {
    if c >= |g| || g[c] == [] then Failure(IndexOutOfRange)
    else if g[c][0] == '_' then Success(c)
    else PreambleEnd(g, c + 1)
  }

  /** A row builder: guide, cost and sell lines, line index, and the two use flags. */
  type RowParser<T> = (string, string, string, nat, bool, bool) -> Result<T, RowError>

  /**
   * What tells the two sections apart: the row builder, the test for the
   * section's header line, the exact line that closes the section, and
   * whether guide lines starting with a newline (page breaks) are skipped.
   */
  datatype Section<T> = Section(parse: RowParser<T>, heads: string -> bool, closing: string, skipsBlankLines: bool)

  /** The header of the materials section: its stripped text is the `M A T E R I A L` banner. */
  predicate IsMaterialHeader(line: string) {
    IsHeader(line, MaterialTitle)
  }

  /** The header of the labour section: its stripped text is the `M A N O   D E   O B R A` banner. */
  predicate IsLabourHeader(line: string) {
    IsHeader(line, LabourTitle)
  }

  const Materials: Section<MaterialLines.MaterialLine> := Section(MaterialLines.Parse, IsMaterialHeader, MaterialEnd, true)
  const Labour: Section<JobLines.JobLine> := Section(JobLines.Parse, IsLabourHeader, LabourEnd, false)

  /**
   * A scanning loop from cursor `c`: advance, read the three lines, skip a
   * page-break line (materials only), stop at the closing line, and
   * otherwise keep the parsed row or log its error.
   */
  function RowsFrom<T>(s: Sheets, c: nat, errors: bool, sec: Section<T>): Result<Scan<T>, Fatal>
    decreases |Guide(s)| - c
  {
    if c >= |Guide(s)| then Success(Scan([], [], c))
    else
      var k := c + 1;
      match ReadRow(s, k)
      case None => Failure(IndexOutOfRange)
      case Some(row) =>
        if sec.skipsBlankLines && row.guide == [] then Failure(IndexOutOfRange)
        else if sec.skipsBlankLines && row.guide[0] == '\n' then RowsFrom(s, k, errors, sec)
        else if row.guide == sec.closing then Success(Scan([], [], k))
        else
          match sec.parse(row.guide, row.cost, row.sell, k, UseCost(s), UseSell(s))
          case Success(m) => Then([m], [], RowsFrom(s, k, errors, sec))
          case Failure(e) => Then([], Logged(e, errors), RowsFrom(s, k, errors, sec))
  }

  /** `line[0] == "_"` and the stripped line is the labour banner. */
  predicate OpensLabour<J>(lab: Section<J>, line: string) {
    line != [] && line[0] == '_' && lab.heads(line)
  }

  /** The labour seek from cursor `c`: the next line starting with `_` that is the labour header. */
  function LabourHeaderFrom<J>(g: seq<string>, c: nat, lab: Section<J>): (r: Result<nat, Fatal>)
    decreases |g| - c
  {
    if c >= |g| then Success(c)
    else
      var k := c + 1;
      if k >= |g| || g[k] == [] then Failure(IndexOutOfRange)
      else if OpensLabour(lab, g[k]) then Success(k)
      else LabourHeaderFrom(g, k, lab)
  }

  /** What `ParseFile` hands to the workbook writer: the date range and the two lists of rows. */
  datatype Report<M, J> = Report(
    desde: string,
    hasta: string,
    materials: seq<M>,
    jobs: seq<J>,
    log: seq<RowError>)

  /** Everything decided before the first material row: the guide, the date range and the materials header. */
  datatype Opening = Opening(guide: seq<string>, desde: string, hasta: string, header: nat)

  /**
   * Choose the guide (no report at all is an error), read the date range
   * from its line 5, skip the preamble and check the materials header.
   */
  function Start<M>(s: Sheets, mat: Section<M>): (r: Result<Opening, Fatal>)
    ensures r.Success? ==> r.value.guide == Guide(s)
  {
    if !UseCost(s) && !UseSell(s) then Failure(NoInputFiles)
    else
      var g := Guide(s);
      if |g| <= 5 then Failure(IndexOutOfRange)
      else
        match DateRange(g[5])
        case None => Failure(DateRangeNotFound)
        case Some(range) =>
          match PreambleEnd(g, 0)
          case Failure(f) => Failure(f)
          case Success(h) =>
            if h >= |g| || !mat.heads(g[h]) then Failure(NotMaterialHeader(h))
            else Success(Opening(g, range.0, range.1, h))
  }

  /** The first line after `c` that equals `closing` is line `e`. */
  predicate ClosesAt(g: seq<string>, c: nat, e: nat, closing: string) {
    c < e < |g| && g[e] == closing && forall k | c < k < e :: g[k] != closing
  }

  /** The first line after `c` that opens the labour section is line `l`. */
  predicate LabourHeaderAt<J>(g: seq<string>, c: nat, l: nat, lab: Section<J>) {
    c < l < |g| && OpensLabour(lab, g[l]) && forall k | c < k < l :: !OpensLabour(lab, g[k])
  }

  /** The first line that starts with `_` is line `h`, and it is the header of the section `mat`. */
  predicate MaterialHeaderAt<M>(g: seq<string>, h: nat, mat: Section<M>) {
    && h < |g| && g[h] != [] && g[h][0] == '_' && mat.heads(g[h])
    && forall k | 0 <= k < h :: g[k] != [] && g[k][0] != '_'
  }

  /** The labour part: seek the labour header from where the materials stopped, skip two lines, scan the rows. */
  function LabourRows<J>(s: Sheets, errors: bool, c: nat, lab: Section<J>): Result<Scan<J>, Fatal> {
    var l :- LabourHeaderFrom(Guide(s), c, lab);
    RowsFrom(s, l + 2, errors, lab)
  }

  /**
   * Where a successful section scan from cursor `c` ends: at the first
   * closing line after `c` (or at `c` itself when `c` is past the end), with
   * the rows in between kept or complained about.
   */
  lemma RowsLayout<T>(s: Sheets, c: nat, errors: bool, sec: Section<T>) returns (e: nat)
    requires WellClosed(sec)
    requires RowsFrom(s, c, errors, sec).Success?
    ensures var g := Guide(s);
            var r := RowsFrom(s, c, errors, sec).value;
      && e == r.cursor && c <= e
      && (c < |g| ==> ClosesAt(g, c, e, sec.closing))
      && r.records == Kept(s, c + 1, e, sec)
      && r.log == Complaints(s, c + 1, e, sec, errors)
  {
    RowsStopAtClosing(s, c, errors, sec);
    RowsCollect(s, c, errors, sec);
    e := RowsFrom(s, c, errors, sec).value.cursor;
  }

  /** Where a successful seek from cursor `c` stops: at the first labour header after `c`. */
  lemma SeekLayout<J>(g: seq<string>, c: nat, lab: Section<J>) returns (l: nat)
    requires LabourHeaderFrom(g, c, lab).Success?
    ensures l == LabourHeaderFrom(g, c, lab).value && c <= l
    ensures c < |g| ==> LabourHeaderAt(g, c, l, lab)
  {
    SeekFindsHeader(g, c, lab);
    l := LabourHeaderFrom(g, c, lab).value;
  }

  /** The phases after the opening: the material rows, then the labour part. */
  function Body<M, J>(s: Sheets, errors: bool, o: Opening, mat: Section<M>, lab: Section<J>): Result<Report<M, J>, Fatal> {
    var mats :- RowsFrom(s, o.header + 2, errors, mat);
    var jobs :- LabourRows(s, errors, mats.cursor, lab);
    Success(Report(o.desde, o.hasta, mats.records, jobs.records, mats.log + jobs.log))
  }

  /** The whole parse, phase after phase, for given row builders of the two sections. */
  function ParseWith<M, J>(s: Sheets, errors: bool, mat: Section<M>, lab: Section<J>): Result<Report<M, J>, Fatal> {
    var o :- Start(s, mat);
    Body(s, errors, o, mat, lab)
  }

  /** The whole parse of a cost sheet. */
  function ParseReport(s: Sheets, errors: bool): Result<Report<MaterialLines.MaterialLine, JobLines.JobLine>, Fatal> {
    ParseWith(s, errors, Materials, Labour)
  }

  // ------------------------------------------------ what the phases find

  /** The preamble loop stops at the first line starting with `_`; it fails only by running off the report. */
  lemma {:induction false} PreambleFindsRule(g: seq<string>, c: nat)
    ensures var r := PreambleEnd(g, c);
      && (r.Failure? ==> r.error == IndexOutOfRange)
      && (r.Success? ==> c <= r.value < |g| && g[r.value] != [] && g[r.value][0] == '_')
      && (r.Success? ==> forall k | c <= k < r.value :: g[k] != [] && g[k][0] != '_')
    decreases |g| - c
  {
    if c < |g| && g[c] != [] && g[c][0] != '_' {
      PreambleFindsRule(g, c + 1);
    }
  }

  /** The labour seek fails only by running off the report or into an empty line. */
  lemma {:induction false} SeekFailsOffEnd<J>(g: seq<string>, c: nat, lab: Section<J>)
    ensures var r := LabourHeaderFrom(g, c, lab);
            r.Failure? ==> r.error == IndexOutOfRange
    decreases |g| - c
  {
    if c + 1 < |g| && g[c + 1] != [] && !OpensLabour(lab, g[c + 1]) {
      SeekFailsOffEnd(g, c + 1, lab);
    }
  }

  /** The labour seek stops at the first line after `c` that starts with `_` and is the labour header. */
  lemma {:induction false} SeekFindsHeader<J>(g: seq<string>, c: nat, lab: Section<J>)
    ensures var r := LabourHeaderFrom(g, c, lab);
      && (r.Success? && c >= |g| ==> r.value == c)
      && (r.Success? && c < |g| ==> c < r.value < |g| && OpensLabour(lab, g[r.value]))
      && (r.Success? && c < |g| ==> forall k | c < k < r.value :: !OpensLabour(lab, g[k]))
    decreases |g| - c
  {
    if c + 1 < |g| && g[c + 1] != [] && !OpensLabour(lab, g[c + 1]) {
      SeekFindsHeader(g, c + 1, lab);
    }
  }

  /** What the row at index `k` amounts to: `None` for a skipped page break or an unreadable row, otherwise the builder's result. */
  function Outcome<T>(s: Sheets, k: nat, sec: Section<T>): Option<Result<T, RowError>> {
    match ReadRow(s, k)
    case None => None
    case Some(row) =>
      if sec.skipsBlankLines && (row.guide == [] || row.guide[0] == '\n') then None
      else Some(sec.parse(row.guide, row.cost, row.sell, k, UseCost(s), UseSell(s)))
  }

  /** The record the row at index `k` contributes, if any. */
  function KeptAt<T>(s: Sheets, k: nat, sec: Section<T>): seq<T> {
    match Outcome(s, k, sec)
    case Some(Success(m)) => [m]
    case _ => []
  }

  /** The error the row at index `k` gets printed, if any. */
  function ComplainedAt<T>(s: Sheets, k: nat, sec: Section<T>, errors: bool): seq<RowError> {
    match Outcome(s, k, sec)
    case Some(Failure(e)) => Logged(e, errors)
    case _ => []
  }

  /** The records of the rows from index `lo` up to `hi` (excluded), appended in order. */
  function Kept<T>(s: Sheets, lo: nat, hi: nat, sec: Section<T>): seq<T>
    decreases hi
  {
    if hi <= lo then [] else Kept(s, lo, hi - 1, sec) + KeptAt(s, hi - 1, sec)
  }

  /** The printed errors of the rows from index `lo` up to `hi` (excluded), in order. */
  function Complaints<T>(s: Sheets, lo: nat, hi: nat, sec: Section<T>, errors: bool): seq<RowError>
    decreases hi
  {
    if hi <= lo then [] else Complaints(s, lo, hi - 1, sec, errors) + ComplainedAt(s, hi - 1, sec, errors)
  }

  lemma Assoc<X>(a: seq<X>, b: seq<X>, c: seq<X>)
    ensures (a + b) + c == a + (b + c)
  {
  }

  lemma Unit<X>(a: seq<X>)
    ensures [] + a == a + [] == a
  {
  }

  lemma {:induction false} KeptFront<T>(s: Sheets, lo: nat, hi: nat, sec: Section<T>)
    requires lo < hi
    ensures Kept(s, lo, hi, sec) == KeptAt(s, lo, sec) + Kept(s, lo + 1, hi, sec)
    decreases hi
  {
    if hi == lo + 1 {
      Unit(KeptAt(s, lo, sec));
    } else {
      KeptFront(s, lo, hi - 1, sec);
      var last := KeptAt(s, hi - 1, sec);
      assert Kept(s, lo, hi, sec) == Kept(s, lo, hi - 1, sec) + last;
      assert Kept(s, lo + 1, hi, sec) == Kept(s, lo + 1, hi - 1, sec) + last;
      Assoc(KeptAt(s, lo, sec), Kept(s, lo + 1, hi - 1, sec), KeptAt(s, hi - 1, sec));
    }
  }

  lemma {:induction false} ComplaintsFront<T>(s: Sheets, lo: nat, hi: nat, sec: Section<T>, errors: bool)
    requires lo < hi
    ensures Complaints(s, lo, hi, sec, errors) == ComplainedAt(s, lo, sec, errors) + Complaints(s, lo + 1, hi, sec, errors)
    decreases hi
  {
    if hi == lo + 1 {
      Unit(ComplainedAt(s, lo, sec, errors));
    } else {
      ComplaintsFront(s, lo, hi - 1, sec, errors);
      var last := ComplainedAt(s, hi - 1, sec, errors);
      assert Complaints(s, lo, hi, sec, errors) == Complaints(s, lo, hi - 1, sec, errors) + last;
      assert Complaints(s, lo + 1, hi, sec, errors) == Complaints(s, lo + 1, hi - 1, sec, errors) + last;
      Assoc(ComplainedAt(s, lo, sec, errors), Complaints(s, lo + 1, hi - 1, sec, errors), ComplainedAt(s, hi - 1, sec, errors));
    }
  }

  /** A closing line is neither empty nor a page break. */
  predicate WellClosed<T>(sec: Section<T>) {
    sec.closing != [] && sec.closing[0] != '\n'
  }

  /** What one step of a scanning loop does with the row at index `k`. */
  datatype Step = OffEnd | Closing | Advance

  /**
   * The step at index `k`: running off a report (or into an empty guide
   * line where page breaks are skipped), reaching the closing line, or
   * moving on past a row (kept, complained about, or a skipped page break).
   */
  function StepAt<T>(s: Sheets, k: nat, sec: Section<T>): (r: Step)
    ensures r != OffEnd ==> k < |Guide(s)|
    ensures r == Closing ==> Guide(s)[k] == sec.closing
    ensures r == Advance && WellClosed(sec) ==> Guide(s)[k] != sec.closing
  {
    match ReadRow(s, k)
    case None => OffEnd
    case Some(row) =>
      if sec.skipsBlankLines && row.guide == [] then OffEnd
      else if sec.skipsBlankLines && row.guide[0] == '\n' then Advance
      else if row.guide == sec.closing then Closing
      else Advance
  }

  /** One step of a scan from inside the report, in terms of the scan from the next index. */
  lemma RowsStep<T>(s: Sheets, c: nat, errors: bool, sec: Section<T>)
    requires c < |Guide(s)|
    ensures var k := c + 1;
            var r := RowsFrom(s, c, errors, sec);
      && (StepAt(s, k, sec) == OffEnd ==> r == Failure(IndexOutOfRange))
      && (StepAt(s, k, sec) == Closing ==> r == Success(Scan([], [], k)))
      && (StepAt(s, k, sec) == Advance ==>
            r == Then(KeptAt(s, k, sec), ComplainedAt(s, k, sec, errors), RowsFrom(s, k, errors, sec)))
  {
    var k := c + 1;
    if StepAt(s, k, sec) == Advance {
      var row := ReadRow(s, k).value;
      if sec.skipsBlankLines && row.guide[0] == '\n' {
        ThenNothing(RowsFrom(s, k, errors, sec));
      }
    }
  }

  /** A scan fails only by running off the end of a report. */
  lemma {:induction false} RowsFailOffEnd<T>(s: Sheets, c: nat, errors: bool, sec: Section<T>)
    ensures var r := RowsFrom(s, c, errors, sec);
            r.Failure? ==> r.error == IndexOutOfRange
    decreases |Guide(s)| - c
  {
    if c < |Guide(s)| {
      RowsStep(s, c, errors, sec);
      if StepAt(s, c + 1, sec) == Advance {
        RowsFailOffEnd(s, c + 1, errors, sec);
      }
    }
  }

  /**
   * A scan that starts inside the report succeeds only by reaching the
   * first closing line after the cursor, and stops there.
   */
  lemma {:induction false} RowsStopAtClosing<T>(s: Sheets, c: nat, errors: bool, sec: Section<T>)
    requires WellClosed(sec)
    ensures var r := RowsFrom(s, c, errors, sec);
      && (r.Success? && c >= |Guide(s)| ==> r.value.cursor == c)
      && (r.Success? && c < |Guide(s)| ==> ClosesAt(Guide(s), c, r.value.cursor, sec.closing))
    decreases |Guide(s)| - c
  {
    if c < |Guide(s)| {
      RowsStep(s, c, errors, sec);
      if StepAt(s, c + 1, sec) == Advance {
        RowsStopAtClosing(s, c + 1, errors, sec);
      }
    }
  }

  /**
   * A successful scan holds exactly the records of the rows between the
   * cursor and where it stopped, in order, and the errors printed for them.
   */
  lemma {:induction false} RowsCollect<T>(s: Sheets, c: nat, errors: bool, sec: Section<T>)
    ensures var r := RowsFrom(s, c, errors, sec);
      && (r.Success? ==> c <= r.value.cursor && (c < |Guide(s)| ==> c < r.value.cursor))
      && (r.Success? ==> r.value.records == Kept(s, c + 1, r.value.cursor, sec))
      && (r.Success? ==> r.value.log == Complaints(s, c + 1, r.value.cursor, sec, errors))
    decreases |Guide(s)| - c
  {
    if c < |Guide(s)| {
      var k := c + 1;
      RowsStep(s, c, errors, sec);
      if StepAt(s, k, sec) == Advance {
        RowsCollect(s, k, errors, sec);
        var r := RowsFrom(s, k, errors, sec);
        if r.Success? {
          KeptFront(s, k, r.value.cursor, sec);
          ComplaintsFront(s, k, r.value.cursor, sec, errors);
        }
      }
    }
  }

  /** Without a closing line after the cursor, the scan runs off the end of the report. */
  lemma NoClosingNoScan<T>(s: Sheets, c: nat, errors: bool, sec: Section<T>)
    requires WellClosed(sec)
    requires c < |Guide(s)|
    requires forall k | c < k < |Guide(s)| :: Guide(s)[k] != sec.closing
    ensures RowsFrom(s, c, errors, sec) == Failure(IndexOutOfRange)
  {
    RowsStopAtClosing(s, c, errors, sec);
    RowsFailOffEnd(s, c, errors, sec);
  }

  /** The incongruences among a list of row errors. */
  function Incongruences(log: seq<RowError>): (r: seq<RowError>)
    ensures forall i | 0 <= i < |r| :: r[i].Incongruent?
  {
    if log == [] then []
    else (if log[0].Incongruent? then [log[0]] else []) + Incongruences(log[1..])
  }

  lemma {:induction false} IncongruencesConcat(a: seq<RowError>, b: seq<RowError>)
    ensures Incongruences(a + b) == Incongruences(a) + Incongruences(b)
    decreases |a|
  {
    if a == [] {
      assert a + b == b;
    } else {
      assert (a + b)[1..] == a[1..] + b;
      IncongruencesConcat(a[1..], b);
    }
  }

  /** Without `errors`, a row gets printed only its incongruence, if that is its error. */
  lemma ComplainedOnlyIncongruences<T>(s: Sheets, k: nat, sec: Section<T>)
    ensures Incongruences(ComplainedAt(s, k, sec, true)) == ComplainedAt(s, k, sec, false)
  {
    var c := ComplainedAt(s, k, sec, true);
    if c != [] {
      assert c[1..] == [];
    }
  }

  /**
   * The `errors` switch changes nothing but the printing of conversion
   * errors: the same rows are kept, the scan stops at the same place or
   * fails alike, and without it only the incongruences are printed.
   */
  lemma {:induction false} ErrorsOnlyFilterLog<T>(s: Sheets, c: nat, sec: Section<T>)
    ensures var a := RowsFrom(s, c, true, sec);
            var b := RowsFrom(s, c, false, sec);
      && a.Failure? == b.Failure?
      && (a.Failure? ==> a == b)
      && (a.Success? ==> b.value.records == a.value.records && b.value.cursor == a.value.cursor)
      && (a.Success? ==> b.value.log == Incongruences(a.value.log))
    decreases |Guide(s)| - c
  {
    if c < |Guide(s)| {
      var k := c + 1;
      RowsStep(s, c, true, sec);
      RowsStep(s, c, false, sec);
      if StepAt(s, k, sec) == Advance {
        ErrorsOnlyFilterLog(s, k, sec);
        var a := RowsFrom(s, k, true, sec);
        if a.Success? {
          IncongruencesConcat(ComplainedAt(s, k, sec, true), a.value.log);
          ComplainedOnlyIncongruences(s, k, sec);
        }
      }
    }
  }

  // ------------------------------------------------------ the whole report

  /** A parse is its opening followed, when that succeeds, by the phases after it. */
  lemma ParseSplit<M, J>(s: Sheets, errors: bool, mat: Section<M>, lab: Section<J>)
    ensures ParseWith(s, errors, mat, lab)
         == if Start(s, mat).Failure? then Failure(Start(s, mat).error) else Body(s, errors, Start(s, mat).value, mat, lab)
  {
  }

  /** The phases after the opening: the material rows, then the labour part. */
  lemma BodySplit<M, J>(s: Sheets, errors: bool, o: Opening, mat: Section<M>, lab: Section<J>)
    ensures var mats := RowsFrom(s, o.header + 2, errors, mat);
      Body(s, errors, o, mat, lab)
        == if mats.Failure? then Failure(mats.error)
           else
             var jobs := LabourRows(s, errors, mats.value.cursor, lab);
             if jobs.Failure? then Failure(jobs.error)
             else Success(Report(o.desde, o.hasta, mats.value.records, jobs.value.records, mats.value.log + jobs.value.log))
  {
  }

  /** The labour part: the seek, then the rows from two lines below the header. */
  lemma LabourSplit<J>(s: Sheets, errors: bool, c: nat, lab: Section<J>)
    ensures var l := LabourHeaderFrom(Guide(s), c, lab);
      LabourRows(s, errors, c, lab) == if l.Failure? then Failure(l.error) else RowsFrom(s, l.value + 2, errors, lab)
  {
  }

  /**
   * The opening's own failures: no report given (exactly when neither is
   * there), no date range on line 5, or a first `_` line that is not the
   * materials header.
   */
  lemma StartFatal<M>(s: Sheets, mat: Section<M>)
    ensures var r := Start(s, mat);
            var g := Guide(s);
      && (r == Failure(NoInputFiles) <==> !UseCost(s) && !UseSell(s))
      && (r == Failure(DateRangeNotFound) ==> 5 < |g| && DateRange(g[5]).None?)
      && (r.Failure? && r.error.NotMaterialHeader? ==>
            var h := r.error.index;
            && h < |g| && g[h] != [] && g[h][0] == '_' && !mat.heads(g[h])
            && forall k | 0 <= k < h :: g[k] != [] && g[k][0] != '_')
  {
    PreambleFindsRule(Guide(s), 0);
  }

  /** After the opening, a parse can only run off the end of the report. */
  lemma BodyFatal<M, J>(s: Sheets, errors: bool, o: Opening, mat: Section<M>, lab: Section<J>)
    ensures var r := Body(s, errors, o, mat, lab);
            r.Failure? ==> r.error == IndexOutOfRange
  {
    BodySplit(s, errors, o, mat, lab);
    RowsFailOffEnd(s, o.header + 2, errors, mat);
    var mats := RowsFrom(s, o.header + 2, errors, mat);
    if mats.Success? {
      LabourSplit(s, errors, mats.value.cursor, lab);
      SeekFailsOffEnd(Guide(s), mats.value.cursor, lab);
      var l := LabourHeaderFrom(Guide(s), mats.value.cursor, lab);
      if l.Success? {
        RowsFailOffEnd(s, l.value + 2, errors, lab);
      }
    }
  }

  /** A parse reports that no file was given exactly when neither report is there. */
  lemma NoInputFatal<M, J>(s: Sheets, errors: bool, mat: Section<M>, lab: Section<J>)
    ensures ParseWith(s, errors, mat, lab) == Failure(NoInputFiles) <==> !UseCost(s) && !UseSell(s)
  {
    ParseSplit(s, errors, mat, lab);
    StartFatal(s, mat);
    if Start(s, mat).Success? {
      BodyFatal(s, errors, Start(s, mat).value, mat, lab);
    }
  }

  /**
   * What the opening establishes: the dates come from line 5 and the
   * materials header is the first line starting with `_`.
   */
  lemma StartFinds<M>(s: Sheets, mat: Section<M>)
    requires Start(s, mat).Success?
    ensures var g := Guide(s);
            var o := Start(s, mat).value;
      && 5 < |g| && DateRange(g[5]) == Some((o.desde, o.hasta))
      && MaterialHeaderAt(g, o.header, mat)
  {
    PreambleFindsRule(Guide(s), 0);
  }

  /**
   * Where the labour part finds things: the labour header `l` is the first
   * one after the cursor `c`, and the job rows run from three lines below
   * it up to the labour closing line `jc`.
   */
  lemma LabourLayout<J>(s: Sheets, errors: bool, c: nat, lab: Section<J>) returns (l: nat, jc: nat)
    requires WellClosed(lab)
    requires LabourRows(s, errors, c, lab).Success?
    ensures LabourHeaderFrom(Guide(s), c, lab) == Success(l)
    ensures LabourRows(s, errors, c, lab) == RowsFrom(s, l + 2, errors, lab)
    ensures var g := Guide(s);
            var r := RowsFrom(s, l + 2, errors, lab).value;
      && c <= l && l + 2 <= jc && jc == r.cursor
      && (c < |g| ==> LabourHeaderAt(g, c, l, lab))
      && (l + 2 < |g| ==> ClosesAt(g, l + 2, jc, lab.closing))
      && r.records == Kept(s, l + 3, jc, lab)
      && r.log == Complaints(s, l + 3, jc, lab, errors)
  {
    LabourSplit(s, errors, c, lab);
    l := SeekLayout(Guide(s), c, lab);
    jc := RowsLayout(s, l + 2, errors, lab);
  }

  /**
   * Where the phases after the opening find things: the material rows run
   * from three lines below the header `h` up to the material closing line
   * `mc`, after which the labour part takes over. A section that starts
   * past the end of the report is empty.
   */
  lemma BodyLayout<M, J>(s: Sheets, errors: bool, o: Opening, mat: Section<M>, lab: Section<J>)
    returns (mc: nat)
    requires WellClosed(mat)
    requires Body(s, errors, o, mat, lab).Success?
    ensures var g := Guide(s);
            var h := o.header;
            var r := Body(s, errors, o, mat, lab).value;
            var jobs := LabourRows(s, errors, mc, lab);
      && h + 2 <= mc
      && (h + 2 < |g| ==> ClosesAt(g, h + 2, mc, mat.closing))
      && jobs.Success?
      && r.desde == o.desde && r.hasta == o.hasta
      && r.materials == Kept(s, h + 3, mc, mat)
      && r.jobs == jobs.value.records
      && r.log == Complaints(s, h + 3, mc, mat, errors) + jobs.value.log
  {
    BodySplit(s, errors, o, mat, lab);
    mc := RowsLayout(s, o.header + 2, errors, mat);
  }

  /**
   * Where the phases after the opening find things, given the materials
   * header `h`. The material rows run from three lines below `h` up to the
   * material closing line `mc`. The labour header `l` is the first one
   * after `mc`. The job rows run from three lines below it up to the labour
   * closing line `jc`. So every material row lies above every job row, and
   * a section that starts past the end of the report is empty.
   */
  lemma SectionsLayout<M, J>(s: Sheets, errors: bool, o: Opening, mat: Section<M>, lab: Section<J>)
    returns (mc: nat, l: nat, jc: nat)
    requires WellClosed(mat) && WellClosed(lab)
    requires Body(s, errors, o, mat, lab).Success?
    ensures var g := Guide(s);
            var h := o.header;
            var r := Body(s, errors, o, mat, lab).value;
      && r.desde == o.desde && r.hasta == o.hasta
      && h + 2 <= mc <= l && l + 2 <= jc
      && (h + 2 < |g| ==> ClosesAt(g, h + 2, mc, mat.closing))
      && (mc < |g| ==> LabourHeaderAt(g, mc, l, lab))
      && (l + 2 < |g| ==> ClosesAt(g, l + 2, jc, lab.closing))
      && r.materials == Kept(s, h + 3, mc, mat)
      && r.jobs == Kept(s, l + 3, jc, lab)
      && r.log == Complaints(s, h + 3, mc, mat, errors) + Complaints(s, l + 3, jc, lab, errors)
  {
    mc := BodyLayout(s, errors, o, mat, lab);
    l, jc := LabourLayout(s, errors, mc, lab);
  }

  /** The `errors` switch in the labour part. */
  lemma ErrorsOnlyFilterLabour<J>(s: Sheets, c: nat, lab: Section<J>)
    ensures var a := LabourRows(s, true, c, lab);
            var b := LabourRows(s, false, c, lab);
      && a.Failure? == b.Failure?
      && (a.Failure? ==> a == b)
      && (a.Success? ==> b.value.records == a.value.records && b.value.cursor == a.value.cursor)
      && (a.Success? ==> b.value.log == Incongruences(a.value.log))
  {
    LabourSplit(s, true, c, lab);
    LabourSplit(s, false, c, lab);
    var l := LabourHeaderFrom(Guide(s), c, lab);
    if l.Success? {
      ErrorsOnlyFilterLog(s, l.value + 2, lab);
    }
  }

  /** The `errors` switch in the phases after the opening. */
  lemma ErrorsOnlyFilterBody<M, J>(s: Sheets, o: Opening, mat: Section<M>, lab: Section<J>)
    ensures var a := Body(s, true, o, mat, lab);
            var b := Body(s, false, o, mat, lab);
      && a.Failure? == b.Failure?
      && (a.Failure? ==> a == b)
      && (a.Success? ==> b.value.desde == a.value.desde && b.value.hasta == a.value.hasta)
      && (a.Success? ==> b.value.materials == a.value.materials && b.value.jobs == a.value.jobs)
      && (a.Success? ==> b.value.log == Incongruences(a.value.log))
  {
    var c := o.header + 2;
    BodySplit(s, true, o, mat, lab);
    BodySplit(s, false, o, mat, lab);
    ErrorsOnlyFilterLog(s, c, mat);
    var ma := RowsFrom(s, c, true, mat);
    if ma.Success? {
      var mc := ma.value.cursor;
      ErrorsOnlyFilterLabour(s, mc, lab);
      var ja := LabourRows(s, true, mc, lab);
      if ja.Success? {
        IncongruencesConcat(ma.value.log, ja.value.log);
      }
    }
  }

  /**
   * At the level of the whole report, too, the `errors` switch only
   * filters what is printed: the outcome, the dates and both lists of rows
   * are the same, and without it only the incongruences are printed.
   */
  lemma ErrorsOnlyFilterReport<M, J>(s: Sheets, mat: Section<M>, lab: Section<J>)
    ensures var a := ParseWith(s, true, mat, lab);
            var b := ParseWith(s, false, mat, lab);
      && a.Failure? == b.Failure?
      && (a.Failure? ==> a == b)
      && (a.Success? ==> b.value.desde == a.value.desde && b.value.hasta == a.value.hasta)
      && (a.Success? ==> b.value.materials == a.value.materials && b.value.jobs == a.value.jobs)
      && (a.Success? ==> b.value.log == Incongruences(a.value.log))
  {
    ParseSplit(s, true, mat, lab);
    ParseSplit(s, false, mat, lab);
    if Start(s, mat).Success? {
      ErrorsOnlyFilterBody(s, Start(s, mat).value, mat, lab);
    }
  }

  /** The closing lines of the two sections of a cost sheet begin with spaces. */
  lemma CostSheetWellClosed()
    ensures WellClosed(Materials) && WellClosed(Labour)
  {
    assert MaterialEnd[0] == Repeat(' ', 69)[0];
    assert LabourEnd[0] == Repeat(' ', 68)[0];
  }

  // ------------------------------------------------------------- the loops

  /** `while lines_guide[line_number][0] != "_": line_number += 1`. */
  method SkipPreamble(g: seq<string>) returns (r: Result<nat, Fatal>)
    ensures r == PreambleEnd(g, 0)
  {
    var c := 0;
    while c < |g| && g[c] != [] && g[c][0] != '_'
      invariant c <= |g|
      invariant PreambleEnd(g, 0) == PreambleEnd(g, c)
      decreases |g| - c
    {
      c := c + 1;
    }
    if c == |g| || g[c] == [] {
      return Failure(IndexOutOfRange);
    }
    return Success(c);
  }

  /** The materials loop (parse_file.py:201-262) and the labour loop (parse_file.py:292-345). */
  method ScanRows<T>(s: Sheets, c0: nat, errors: bool, sec: Section<T>) returns (r: Result<Scan<T>, Fatal>)
    ensures r == RowsFrom(s, c0, errors, sec)
  {
    var g := Guide(s);
    var c := c0;
    var records: seq<T> := [];
    var log: seq<RowError> := [];
    ThenNothing(RowsFrom(s, c0, errors, sec));
    while c < |g|
      invariant RowsFrom(s, c0, errors, sec) == Then(records, log, RowsFrom(s, c, errors, sec))
      decreases |g| - c
    {
      ghost var before := c;
      c := c + 1;
      var lineCost := "";
      if UseCost(s) {
        if c >= |s.cost| { return Failure(IndexOutOfRange); }
        lineCost := s.cost[c];
      }
      var lineSell := "";
      if UseSell(s) {
        if c >= |s.sell| { return Failure(IndexOutOfRange); }
        lineSell := s.sell[c];
      }
      if c >= |g| { return Failure(IndexOutOfRange); }
      var lineGuide := g[c];
      assert ReadRow(s, c) == Some(RowLines(lineGuide, lineCost, lineSell));
      if sec.skipsBlankLines {
        if lineGuide == [] { return Failure(IndexOutOfRange); }
        if lineGuide[0] == '\n' {
          assert RowsFrom(s, before, errors, sec) == RowsFrom(s, c, errors, sec);
          continue;
        }
      }
      if lineGuide == sec.closing {
        ThenStop(records, log, c);
        return Success(Scan(records, log, c));
      }
      var parsed := sec.parse(lineGuide, lineCost, lineSell, c, UseCost(s), UseSell(s));
      match parsed {
        case Success(m) =>
          assert RowsFrom(s, before, errors, sec) == Then([m], [], RowsFrom(s, c, errors, sec));
          ThenThen(records, log, [m], [], RowsFrom(s, c, errors, sec));
          assert log + [] == log;
          records := records + [m];
        case Failure(e) =>
          assert RowsFrom(s, before, errors, sec) == Then([], Logged(e, errors), RowsFrom(s, c, errors, sec));
          ThenThen(records, log, [], Logged(e, errors), RowsFrom(s, c, errors, sec));
          assert records + [] == records;
          if errors || e.Incongruent? {
            log := log + [e];
          } else {
            assert log + [] == log;
          }
      }
    }
    ThenStop(records, log, c);
    return Success(Scan(records, log, c));
  }

  /** The labour seek. */
  method SeekLabour<J>(g: seq<string>, c0: nat, lab: Section<J>) returns (r: Result<nat, Fatal>)
    ensures r == LabourHeaderFrom(g, c0, lab)
  {
    var c := c0;
    while c < |g|
      invariant LabourHeaderFrom(g, c0, lab) == LabourHeaderFrom(g, c, lab)
      decreases |g| - c
    {
      c := c + 1;
      if c >= |g| { return Failure(IndexOutOfRange); }
      var line := g[c];
      if line == [] { return Failure(IndexOutOfRange); }
      if OpensLabour(lab, line) {
        return Success(c);
      }
    }
    return Success(c);
  }

  /** The opening of `ParseFile`: guide selection, date range, preamble loop and header check. */
  method Open<M>(s: Sheets, mat: Section<M>) returns (r: Result<Opening, Fatal>)
    ensures r == Start(s, mat)
  {
    var g: seq<string>;
    if |s.cost| > 0 {
      g := s.cost;
    } else if |s.sell| > 0 {
      g := s.sell;
    } else {
      return Failure(NoInputFiles);
    }
    if |g| <= 5 {
      return Failure(IndexOutOfRange);
    }
    var range := DateRange(g[5]);
    if range.None? {
      return Failure(DateRangeNotFound);
    }
    var h :- SkipPreamble(g);
    if h >= |g| || !mat.heads(g[h]) {
      return Failure(NotMaterialHeader(h));
    }
    return Success(Opening(g, range.value.0, range.value.1, h));
  }

  /** The labour seek followed by the labour loop. */
  method ScanLabour<J>(s: Sheets, errors: bool, c: nat, lab: Section<J>) returns (r: Result<Scan<J>, Fatal>)
    ensures r == LabourRows(s, errors, c, lab)
  {
    var l :- SeekLabour(Guide(s), c, lab);
    r := ScanRows(s, l + 2, errors, lab);
  }

  /** The three loops after the opening. */
  method ScanBody<M, J>(s: Sheets, errors: bool, o: Opening, mat: Section<M>, lab: Section<J>)
    returns (r: Result<Report<M, J>, Fatal>)
    ensures r == Body(s, errors, o, mat, lab)
  {
    var mats :- ScanRows(s, o.header + 2, errors, mat);
    var jobs :- ScanLabour(s, errors, mats.cursor, lab);
    return Success(Report(o.desde, o.hasta, mats.records, jobs.records, mats.log + jobs.log));
  }

  /** The body of `ParseFile` after reading the files, for given row builders. */
  method ParseSections<M, J>(s: Sheets, errors: bool, mat: Section<M>, lab: Section<J>) returns (r: Result<Report<M, J>, Fatal>)
    ensures r == ParseWith(s, errors, mat, lab)
  {
    var o :- Open(s, mat);
    r := ScanBody(s, errors, o, mat, lab);
  }

  /** `ParseFile` on the lines of the two reports (`[]` for a report not given). */
  method Parse(s: Sheets, errors: bool) returns (r: Result<Report<MaterialLines.MaterialLine, JobLines.JobLine>, Fatal>)
    ensures r == ParseReport(s, errors)
  {
    r := ParseSections(s, errors, Materials, Labour);
  }
}

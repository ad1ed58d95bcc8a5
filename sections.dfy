/**
 * The landmarks of a cost-sheet report: the date-range line near the top,
 * the dashed section headers ("M A T E R I A L", "M A N O   D E   O B R A")
 * and the exact lines that close each section.
 */
module Sections {
  import opened Wrappers
  import opened PyText
  import opened FieldCodec

  // ------------------------------------------------------------ date range

  const DesdeLabel: string := "Desde Fecha"
  const HastaLabel: string := "Hasta Fecha"

  /** The end of the whitespace run that starts at `i` (what a greedy `\s*` consumes). */
  function SkipSpace(s: string, i: nat): (j: nat)
    requires i <= |s|
    ensures i <= j <= |s|
    decreases |s| - i
  {
    if i < |s| && IsSpace(s[i]) then SkipSpace(s, i + 1) else i
  }

  /** `SkipSpace` stops at the first non-blank: all it passes over is blank. */
  lemma {:induction false} SkipSpaceRun(s: string, i: nat)
    requires i <= |s|
    ensures var j := SkipSpace(s, i); AllSpace(s[i..j]) && (j == |s| || !IsSpace(s[j]))
    decreases |s| - i
  {
    if i < |s| && IsSpace(s[i]) {
      SkipSpaceRun(s, i + 1);
      var j := SkipSpace(s, i);
      assert s[i..j] == [s[i]] + s[i + 1..j];
    }
  }

  /** Whether `lit` occurs in `s` at position `i`. */
  predicate LiteralAt(s: string, i: nat, lit: string) {
    i + |lit| <= |s| && s[i..i + |lit|] == lit
  }

  /** Whether the ten characters at `i` have the `\d{2}/\d{2}/\d{4}` layout. */
  predicate DateAt(s: string, i: nat) {
    i + 10 <= |s| && IsDateShape(s[i..i + 10])
  }

  /**
   * The regular expression
   * `Desde Fecha\s+(\d{2}/\d{2}/\d{4})\s+Hasta Fecha\s+(\d{2}/\d{2}/\d{4})`
   * tried at position `i`: the two captured dates, or `None`.  Every `\s+`
   * is followed by a non-blank, so taking the longest run is the only way
   * to match.
   */
  function RangeAt(s: string, i: nat): (r: Option<(string, string)>)
    requires i <= |s|
    ensures r.Some? ==> IsDateShape(r.value.0) && IsDateShape(r.value.1)
  {
    if LiteralAt(s, i, DesdeLabel) then RangeAfterDesde(s, i + |DesdeLabel|) else None
  }

  /** The rest of the range expression, after `Desde Fecha`. */
  function RangeAfterDesde(s: string, a: nat): (r: Option<(string, string)>)
    requires a <= |s|
    ensures r.Some? ==> IsDateShape(r.value.0) && IsDateShape(r.value.1)
  {
    match SpacedDate(s, a)
    case None => None
    case Some(b) =>
      var c := SkipSpace(s, b + 10);
      if c == b + 10 || !LiteralAt(s, c, HastaLabel) then None
      else
        match SpacedDate(s, c + |HastaLabel|)
        case None => None
        case Some(e) => Some((s[b..b + 10], s[e..e + 10]))
  }

  /** `\s+(\d{2}/\d{2}/\d{4})` at `a`: where the date starts, or `None`. */
  function SpacedDate(s: string, a: nat): (r: Option<nat>)
    requires a <= |s|
    ensures r.Some? ==> a < r.value && DateAt(s, r.value)
  {
    var b := SkipSpace(s, a);
    if b > a && DateAt(s, b) then Some(b) else None
  }

  /** `re.search`: the match at the leftmost position from `i` on where there is one. */
  function SearchRange(s: string, i: nat): (r: Option<(string, string)>)
    requires i <= |s|
    ensures r.Some? ==> IsDateShape(r.value.0) && IsDateShape(r.value.1)
    decreases |s| - i
  {
    if RangeAt(s, i).Some? then RangeAt(s, i)
    else if i == |s| then None
    else SearchRange(s, i + 1)
  }

  /** The date range of a report line: both dates with their slashes removed. */
  function DateRange(line: string): Option<(string, string)> {
    match SearchRange(line, 0)
    case None => None
    case Some((desde, hasta)) => Some((RemoveChar(desde, '/'), RemoveChar(hasta, '/')))
  }

  /** Each date of a range is the eight digits of its `dd/mm/yyyy` text, in order. */
  lemma DateRangeDigits(line: string)
    ensures var r := DateRange(line);
            var m := SearchRange(line, 0);
      && (r.Some? <==> m.Some?)
      && (r.Some? ==> var d := m.value.0; r.value.0 == d[..2] + d[3..5] + d[6..] && |r.value.0| == 8 && AllDigits(r.value.0))
      && (r.Some? ==> var d := m.value.1; r.value.1 == d[..2] + d[3..5] + d[6..] && |r.value.1| == 8 && AllDigits(r.value.1))
  {
    if SearchRange(line, 0).Some? {
      ShapeWithoutSlashes(SearchRange(line, 0).value.0);
      ShapeWithoutSlashes(SearchRange(line, 0).value.1);
    }
  }

  /** A captured date loses exactly its two slashes, leaving its eight digits. */
  lemma {:induction false} ShapeWithoutSlashes(d: string)
    requires IsDateShape(d)
    ensures RemoveChar(d, '/') == d[..2] + d[3..5] + d[6..]
    ensures AllDigits(d[..2] + d[3..5] + d[6..])
  {
    var dd, mm, yyyy := d[..2], d[3..5], d[6..];
    var p1 := dd + [d[2]];
    var p2 := p1 + mm;
    var p3 := p2 + [d[5]];
    assert d == p3 + yyyy;
    assert RemoveChar([d[2]], '/') == [] && RemoveChar([d[5]], '/') == [];
    NoSlashInDigits(dd);
    NoSlashInDigits(mm);
    NoSlashInDigits(yyyy);
    RemoveCharConcat(dd, [d[2]], '/');
    assert RemoveChar(p1, '/') == dd;
    RemoveCharConcat(p1, mm, '/');
    assert RemoveChar(p2, '/') == dd + mm;
    RemoveCharConcat(p2, [d[5]], '/');
    assert RemoveChar(p3, '/') == dd + mm;
    RemoveCharConcat(p3, yyyy, '/');
  }

  lemma {:induction false} NoSlashInDigits(s: string)
    requires AllDigits(s)
    ensures RemoveChar(s, '/') == s
    decreases |s|
  {
    if s != [] {
      NoSlashInDigits(s[1..]);
      assert s == [s[0]] + s[1..];
    }
  }

  /**
   * A line that holds the range text, with nothing before it that could
   * start another match, yields exactly the two dates it shows.
   */
  lemma {:induction false} RangeFound(pre: string, sp1: string, d1: string, sp2: string, sp3: string, d2: string, post: string)
    requires forall i | 0 <= i < |pre| :: pre[i] != 'D'
    requires sp1 != [] && sp2 != [] && sp3 != []
    requires AllSpace(sp1) && AllSpace(sp2) && AllSpace(sp3)
    requires IsDateShape(d1) && IsDateShape(d2)
    ensures var line := pre + DesdeLabel + sp1 + d1 + sp2 + HastaLabel + sp3 + d2 + post;
            SearchRange(line, 0) == Some((d1, d2))
  {
    var tail := DesdeLabel + sp1 + d1 + sp2 + HastaLabel + sp3 + d2 + post;
    var line := pre + tail;
    assert line == pre + DesdeLabel + sp1 + d1 + sp2 + HastaLabel + sp3 + d2 + post;
    var p := |pre|;
    NoMatchBefore(line, pre, 0);
    assert SearchRange(line, 0) == SearchRange(line, p) by {
      SearchSkips(line, 0, p);
    }
    RangeAtTail(line, p, sp1, d1, sp2, sp3, d2, post);
  }

  /** No match can start inside a prefix without a `D`. */
  lemma {:induction false} NoMatchBefore(line: string, pre: string, i: nat)
    requires pre <= line && i <= |pre|
    requires forall j | 0 <= j < |pre| :: pre[j] != 'D'
    ensures forall k | i <= k < |pre| :: RangeAt(line, k).None?
  {
    forall k | i <= k < |pre|
      ensures RangeAt(line, k).None?
    {
      assert line[k] == pre[k];
    }
  }

  /** Positions without a match are passed over by the search. */
  lemma {:induction false} SearchSkips(line: string, i: nat, p: nat)
    requires i <= p <= |line|
    requires forall k | i <= k < p :: RangeAt(line, k).None?
    ensures SearchRange(line, i) == SearchRange(line, p)
    decreases p - i
  {
    if i < p {
      SearchSkips(line, i + 1, p);
    }
  }

  lemma {:induction false} RangeAtTail(line: string, p: nat, sp1: string, d1: string, sp2: string, sp3: string, d2: string, post: string)
    requires sp1 != [] && sp2 != [] && sp3 != []
    requires AllSpace(sp1) && AllSpace(sp2) && AllSpace(sp3)
    requires IsDateShape(d1) && IsDateShape(d2)
    requires p <= |line| && line[p..] == DesdeLabel + sp1 + d1 + sp2 + HastaLabel + sp3 + d2 + post
    ensures RangeAt(line, p) == Some((d1, d2))
  {
    var r4 := HastaLabel + sp3 + d2 + post;
    var r1 := sp1 + d1 + sp2 + r4;
    assert line[p..] == DesdeLabel + r1;
    Piece(line, p, DesdeLabel, r1);
    var b, c := DateBetweenSpaces(line, p + |DesdeLabel|, sp1, d1, sp2, r4);
    var e := HastaThenDate(line, c, sp3, d2, post);
    RangeAtStages(line, p, b, c, e, d1, d2);
  }

  /** `RangeAt` read off its stages. */
  lemma {:induction false} RangeAtStages(s: string, i: nat, b: nat, c: nat, e: nat, d1: string, d2: string)
    requires i <= |s| && LiteralAt(s, i, DesdeLabel)
    requires SpacedDate(s, i + |DesdeLabel|) == Some(b)
    requires SkipSpace(s, b + 10) == c && c != b + 10 && LiteralAt(s, c, HastaLabel)
    requires SpacedDate(s, c + |HastaLabel|) == Some(e)
    requires b + 10 <= |s| && s[b..b + 10] == d1 && e + 10 <= |s| && s[e..e + 10] == d2
    ensures RangeAt(s, i) == Some((d1, d2))
  {
    AfterDesdeStages(s, i + |DesdeLabel|, b, c, e);
    assert RangeAt(s, i) == RangeAfterDesde(s, i + |DesdeLabel|);
  }

  /** `RangeAfterDesde` read off its stages. */
  lemma {:induction false} AfterDesdeStages(s: string, a: nat, b: nat, c: nat, e: nat)
    requires a <= |s| && SpacedDate(s, a) == Some(b)
    requires SkipSpace(s, b + 10) == c && c != b + 10 && LiteralAt(s, c, HastaLabel)
    requires SpacedDate(s, c + |HastaLabel|) == Some(e)
    ensures b + 10 <= |s| && e + 10 <= |s|
    ensures RangeAfterDesde(s, a) == Some((s[b..b + 10], s[e..e + 10]))
  {
  }

  /** `Hasta Fecha`, a run of blanks and a date, read at `c`. */
  lemma {:induction false} HastaThenDate(s: string, c: nat, sp: string, d: string, post: string) returns (e: nat)
    requires sp != [] && AllSpace(sp) && IsDateShape(d)
    requires c <= |s| && s[c..] == HastaLabel + sp + d + post
    ensures LiteralAt(s, c, HastaLabel)
    ensures SpacedDate(s, c + |HastaLabel|) == Some(e) && s[e..e + 10] == d
  {
    Piece(s, c, HastaLabel, sp + d + post);
    DateAfterSpaces(s, c + |HastaLabel|, sp, d, post);
    e := c + |HastaLabel| + |sp|;
  }

  /** `sp1 d1 sp2 rest` read at `a`: the date is found and the next run ends before `rest`. */
  lemma {:induction false} DateBetweenSpaces(s: string, a: nat, sp1: string, d1: string, sp2: string, rest: string)
    returns (b: nat, c: nat)
    requires sp1 != [] && sp2 != [] && AllSpace(sp1) && AllSpace(sp2) && IsDateShape(d1)
    requires rest != [] && !IsSpace(rest[0])
    requires a <= |s| && s[a..] == sp1 + d1 + sp2 + rest
    ensures SpacedDate(s, a) == Some(b) && b + 10 <= |s| && s[b..b + 10] == d1
    ensures SkipSpace(s, b + 10) == c && c != b + 10
    ensures c <= |s| && s[c..] == rest
  {
    b := a + |sp1|;
    c := b + 10 + |sp2|;
    DateAfterSpaces(s, a, sp1, d1, sp2 + rest);
    RunThenRest(s, b + 10, sp2, rest);
  }

  /** A run of blanks read at `i` before a non-blank: it is skipped whole. */
  lemma {:induction false} RunThenRest(s: string, i: nat, sp: string, rest: string)
    requires AllSpace(sp) && rest != [] && !IsSpace(rest[0])
    requires i <= |s| && s[i..] == sp + rest
    ensures SkipSpace(s, i) == i + |sp| && i + |sp| <= |s| && s[i + |sp|..] == rest
  {
    Piece(s, i, sp, rest);
    SpaceRun(s, i, sp, rest[0]);
  }

  /** `sp d rest` read at `a`: the date after the run is found. */
  lemma {:induction false} DateAfterSpaces(s: string, a: nat, sp: string, d: string, rest: string)
    requires sp != [] && AllSpace(sp) && IsDateShape(d)
    requires a <= |s| && s[a..] == sp + d + rest
    ensures SpacedDate(s, a) == Some(a + |sp|) && s[a + |sp|..][..10] == d
    ensures s[a + |sp|..a + |sp| + 10] == d && s[a + |sp| + 10..] == rest
  {
    Piece(s, a, sp, d + rest);
    Piece(s, a + |sp|, d, rest);
    SpaceRun(s, a, sp, d[0]);
  }

  /** Reading a text piece by piece. */
  lemma {:induction false} Piece(s: string, i: nat, x: string, rest: string)
    requires i <= |s| && s[i..] == x + rest
    ensures i + |x| <= |s| && s[i..i + |x|] == x && s[i + |x|..] == rest
    ensures x != [] ==> s[i] == x[0]
    ensures rest != [] ==> s[i + |x|] == rest[0]
  {
    assert s[i..][..|x|] == x;
    assert s[i..][|x|..] == rest;
  }

  /** A whitespace run followed by a non-blank ends where the non-blank stands. */
  lemma {:induction false} SpaceRun(s: string, i: nat, sp: string, next: char)
    requires AllSpace(sp) && !IsSpace(next)
    requires i + |sp| < |s| && s[i..i + |sp|] == sp && s[i + |sp|] == next
    ensures SkipSpace(s, i) == i + |sp|
    decreases |sp|
  {
    if sp != [] {
      assert s[i + 1..i + 1 + |sp[1..]|] == sp[1..];
      SpaceRun(s, i + 1, sp[1..], next);
    }
  }

  // ------------------------------------------------ what a found range shows

  /** The text from `i` is the piece up to `j` followed by the text from `j`. */
  lemma Glue(s: string, i: nat, j: nat)
    requires i <= j <= |s|
    ensures s[i..] == s[i..j] + s[j..]
  {
  }

  /** Where the pieces of a match at `i` lie: the first date at `b`, `Hasta Fecha` at `c`, the second date at `e`. */
  lemma {:induction false} RangeAtPlaces(s: string, i: nat) returns (b: nat, c: nat, e: nat)
    requires i <= |s| && RangeAt(s, i).Some?
    ensures i + |DesdeLabel| < b && b + 10 < c && c + |HastaLabel| < e && e + 10 <= |s|
    ensures s[i..i + |DesdeLabel|] == DesdeLabel && s[c..c + |HastaLabel|] == HastaLabel
    ensures b == SkipSpace(s, i + |DesdeLabel|) && c == SkipSpace(s, b + 10) && e == SkipSpace(s, c + |HastaLabel|)
    ensures RangeAt(s, i) == Some((s[b..b + 10], s[e..e + 10]))
  {
    assert LiteralAt(s, i, DesdeLabel);
    b, c, e := AfterDesdePlaces(s, i + |DesdeLabel|);
  }

  /** The same after `Desde Fecha`, read from `a`. */
  lemma {:induction false} AfterDesdePlaces(s: string, a: nat) returns (b: nat, c: nat, e: nat)
    requires a <= |s| && RangeAfterDesde(s, a).Some?
    ensures a < b && b + 10 < c && c + |HastaLabel| < e && e + 10 <= |s|
    ensures s[c..c + |HastaLabel|] == HastaLabel
    ensures b == SkipSpace(s, a) && c == SkipSpace(s, b + 10) && e == SkipSpace(s, c + |HastaLabel|)
    ensures RangeAfterDesde(s, a) == Some((s[b..b + 10], s[e..e + 10]))
  {
    b := SpacedDate(s, a).value;
    c := SkipSpace(s, b + 10);
    assert LiteralAt(s, c, HastaLabel);
    e := SpacedDate(s, c + |HastaLabel|).value;
  }

  /** What `SkipSpace` passes over from three places is blank. */
  lemma {:induction false} Blanks(s: string, a: nat, b: nat, c: nat, d: nat, e: nat, f: nat)
    requires a <= |s| && c <= |s| && e <= |s|
    requires b == SkipSpace(s, a) && d == SkipSpace(s, c) && f == SkipSpace(s, e)
    ensures AllSpace(s[a..b]) && AllSpace(s[c..d]) && AllSpace(s[e..f])
  {
    SkipSpaceRun(s, a);
    SkipSpaceRun(s, c);
    SkipSpaceRun(s, e);
  }

  /** The piece from `i` to `k` is the piece up to `j` followed by the piece from `j`. */
  lemma Joint(s: string, i: nat, j: nat, k: nat)
    requires i <= j <= k <= |s|
    ensures s[i..k] == s[i..j] + s[j..k]
  {
  }

  /**
   * Cutting the text from `i` at seven places and gluing the pieces back
   * gives it again; the two labels stand for the pieces they equal.
   */
  lemma {:induction false} Pieces(s: string, i: nat, a: nat, b: nat, c: nat, h: nat, e: nat, from: string, to: string)
    requires i <= a <= b <= b + 10 <= c <= h <= e <= e + 10 <= |s|
    requires s[i..a] == from && s[c..h] == to
    ensures s[i..] == from + s[a..b] + s[b..b + 10] + s[b + 10..c] + to + s[h..e] + s[e..e + 10] + s[e + 10..]
  {
    Joint(s, i, a, b);
    Joint(s, i, b, b + 10);
    Joint(s, i, b + 10, c);
    Joint(s, i, c, h);
    Joint(s, i, h, e);
    Joint(s, i, e, e + 10);
    Glue(s, i, e + 10);
  }

  /** The text from `i` read as the range expression, given where its pieces lie. */
  lemma {:induction false} RangeText(s: string, i: nat, b: nat, c: nat, e: nat, from: string, to: string)
    returns (sp1: string, sp2: string, sp3: string, post: string)
    requires i + |from| < b && b + 10 < c && c + |to| < e && e + 10 <= |s|
    requires s[i..i + |from|] == from && s[c..c + |to|] == to
    requires AllSpace(s[i + |from|..b]) && AllSpace(s[b + 10..c]) && AllSpace(s[c + |to|..e])
    ensures s[i..] == from + sp1 + s[b..b + 10] + sp2 + to + sp3 + s[e..e + 10] + post
    ensures sp1 != [] && sp2 != [] && sp3 != []
    ensures AllSpace(sp1) && AllSpace(sp2) && AllSpace(sp3)
  {
    var a, h := i + |from|, c + |to|;
    Pieces(s, i, a, b, c, h, e, from, to);
    sp1, sp2, sp3, post := s[a..b], s[b + 10..c], s[h..e], s[e + 10..];
  }

  /**
   * A match at `i` shows its own text there: `Desde Fecha`, a run of blanks,
   * the first date, a run of blanks, `Hasta Fecha`, a run of blanks and the
   * second date, then anything.
   */
  lemma {:induction false} RangeAtShows(s: string, i: nat) returns (sp1: string, sp2: string, sp3: string, post: string)
    requires i <= |s| && RangeAt(s, i).Some?
    ensures s[i..] == DesdeLabel + sp1 + RangeAt(s, i).value.0 + sp2 + HastaLabel + sp3 + RangeAt(s, i).value.1 + post
    ensures sp1 != [] && sp2 != [] && sp3 != []
    ensures AllSpace(sp1) && AllSpace(sp2) && AllSpace(sp3)
  {
    var b, c, e := RangeAtPlaces(s, i);
    Blanks(s, i + |DesdeLabel|, b, b + 10, c, c + |HastaLabel|, e);
    sp1, sp2, sp3, post := RangeText(s, i, b, c, e, DesdeLabel, HastaLabel);
  }

  /** The search returns the match at the first position from `i` on that has one. */
  lemma {:induction false} SearchFinds(s: string, i: nat) returns (k: nat)
    requires i <= |s| && SearchRange(s, i).Some?
    ensures i <= k <= |s| && RangeAt(s, k) == SearchRange(s, i)
    ensures forall j | i <= j < k :: RangeAt(s, j).None?
    decreases |s| - i
  {
    if RangeAt(s, i).Some? {
      k := i;
    } else {
      assert i < |s| && SearchRange(s, i) == SearchRange(s, i + 1);
      k := SearchFinds(s, i + 1);
      assert forall j | i < j < k :: RangeAt(s, j).None?;
    }
  }

  /**
   * Conversely to `RangeFound`: the dates found on a line are shown on it,
   * in the range text, at the leftmost position where the expression
   * matches.
   */
  lemma RangeShown(line: string) returns (k: nat, sp1: string, sp2: string, sp3: string, post: string)
    requires SearchRange(line, 0).Some?
    ensures var d1, d2 := SearchRange(line, 0).value.0, SearchRange(line, 0).value.1;
      && k <= |line|
      && line[k..] == DesdeLabel + sp1 + d1 + sp2 + HastaLabel + sp3 + d2 + post
      && sp1 != [] && sp2 != [] && sp3 != []
      && AllSpace(sp1) && AllSpace(sp2) && AllSpace(sp3)
      && IsDateShape(d1) && IsDateShape(d2)
    ensures forall j | 0 <= j < k :: RangeAt(line, j).None?
  {
    k := SearchFinds(line, 0);
    sp1, sp2, sp3, post := RangeAtShows(line, k);
  }

  // -------------------------------------------------------- section headers

  const MaterialTitle: string := "M A T E R I A L"
  const LabourTitle: string := "M A N O   D E   O B R A"

  /** The number of `_` characters `s` starts with. */
  function LeadingUnderscores(s: string): (k: nat)
    ensures k <= |s|
    ensures forall i | 0 <= i < k :: s[i] == '_'
    ensures k == |s| || s[k] != '_'
    decreases |s|
  {
    if s != [] && s[0] == '_' then 1 + LeadingUnderscores(s[1..]) else 0
  }

  /**
   * `re.match("^_+" + title + "_+$", s)` for a title that neither starts
   * nor ends with `_`: a run of underscores, the title, and a run of
   * underscores reaching the end.
   */
  predicate Banner(s: string, title: string) {
    var k := LeadingUnderscores(s);
    && k > 0
    && LiteralAt(s, k, title)
    && k + |title| < |s|
    && forall i | k + |title| <= i < |s| :: s[i] == '_'
  }

  /** A report line is the header of a section when its stripped text is the banner. */
  predicate IsHeader(line: string, title: string) {
    Banner(Strip(line), title)
  }

  predicate Underscores(u: string) {
    forall i | 0 <= i < |u| :: u[i] == '_'
  }

  /** Every banner is underscores, the title, then underscores. */
  lemma {:induction false} BannerShape(s: string, title: string)
    requires Banner(s, title)
    ensures var k := LeadingUnderscores(s);
            var m := k + |title|;
            && 0 < k && m < |s|
            && Underscores(s[..k]) && s[k..m] == title && Underscores(s[m..])
  {
  }

  /** And every such line is a banner. */
  lemma {:induction false} BannerOfShape(u: string, title: string, w: string)
    requires u != [] && w != [] && Underscores(u) && Underscores(w)
    requires title != [] && title[0] != '_'
    ensures Banner(u + title + w, title)
  {
    var s := u + title + w;
    UnderscoresThen(u, title + w);
    assert s == u + (title + w);
    assert s[|u|..|u| + |title|] == title;
    assert forall i | |u| + |title| <= i < |s| :: s[i] == w[i - |u| - |title|];
  }

  lemma {:induction false} UnderscoresThen(u: string, rest: string)
    requires forall i | 0 <= i < |u| :: u[i] == '_'
    requires rest != [] && rest[0] != '_'
    ensures LeadingUnderscores(u + rest) == |u|
    decreases |u|
  {
    if u != [] {
      assert (u + rest)[1..] == u[1..] + rest;
      UnderscoresThen(u[1..], rest);
    } else {
      assert u + rest == rest;
    }
  }

  // ------------------------------------------------------- section closings

  /** `n` copies of the character `c` (Python's `c * n`). */
  function Repeat(c: char, n: nat): (r: string)
    ensures |r| == n && forall i | 0 <= i < n :: r[i] == c
  {
    if n == 0 then [] else [c] + Repeat(c, n - 1)
  }

  /** The line that closes the materials section: the rules under the two totals. */
  const MaterialEnd: string :=
    Repeat(' ', 69) + Repeat('_', 11) + Repeat(' ', 17) + Repeat('_', 15) + "\n"

  /** The line that closes the labour section: the rules under its totals. */
  const LabourEnd: string :=
    Repeat(' ', 68) + Repeat('_', 10) + Repeat(' ', 9) + Repeat('_', 8) + " "
    + Repeat('_', 6) + " " + Repeat('_', 10) + "\n"
}

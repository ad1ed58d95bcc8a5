/**
 * The `todos` command: classify the names in the working directory as sell
 * reports (`nnnnnnventa.txt`) or cost reports (`nnnnnncoste.txt`), pair them
 * by their six-digit project prefix in an insertion-ordered dictionary of
 * `FicherosProyecto` entries, and run `ParseFile` once per entry, in order.
 *
 * The dictionary is specified on values (`Table`, built by `VentaPass` and
 * `CostePass`) and built imperatively by `Collect` over objects whose
 * `archivoCoste` field the second pass updates in place.
 */
module ProjectFiles {
  import opened Wrappers
  import ParseFile
  import MaterialLines
  import JobLines

  // ------------------------------------------------------------ file names

  /** `str.isdigit` on ASCII text: non-empty and only the digits `0`-`9`. */
  predicate IsDigits(s: string) {
    s != [] && forall i | 0 <= i < |s| :: '0' <= s[i] <= '9'
  }

  predicate EndsWith(s: string, suffix: string) {
    |suffix| <= |s| && s[|s| - |suffix|..] == suffix
  }

  const Venta: string := "venta"
  const Coste: string := "coste"

  /** `len(f) == 15 and f.endswith(".txt") and f[:6].isdigit() and f[6:11] == kind`. */
  predicate IsProjectFile(name: string, kind: string) {
    |name| == 15 && EndsWith(name, ".txt") && IsDigits(name[..6]) && name[6..11] == kind
  }

  /** `name` is a report of the given kind for project `p`. */
  predicate Names(name: string, kind: string, p: string) {
    IsProjectFile(name, kind) && name[..6] == p
  }

  /** The project of an entry: the prefix of the sell name when it is long enough, else of the cost name, else empty. */
  function ProjectKey(venta: string, coste: string): (k: string)
    ensures k == [] || |k| == 6
    ensures IsProjectFile(venta, Venta) ==> k == venta[..6]
    ensures venta == [] && IsProjectFile(coste, Coste) ==> k == coste[..6]
  {
    if |venta| > 6 then venta[..6]
    else if |coste| > 6 then coste[..6]
    else ""
  }

  /** One project: its key and the names of its two reports (`""` for a missing one). */
  class FicherosProyecto {
    var proyecto: string
    var archivoVenta: string
    var archivoCoste: string

    constructor(archivoVenta: string, archivoCoste: string)
      ensures proyecto == ProjectKey(archivoVenta, archivoCoste)
      ensures this.archivoVenta == archivoVenta && this.archivoCoste == archivoCoste
    {
      if |archivoVenta| > 6 {
        proyecto := archivoVenta[..6];
      } else if |archivoCoste| > 6 {
        proyecto := archivoCoste[..6];
      } else {
        proyecto := "";
      }
      this.archivoVenta := archivoVenta;
      this.archivoCoste := archivoCoste;
    }
  }

  // ------------------------------------------------ the dictionary as values

  /** The value of one entry. */
  datatype Entry = Entry(proyecto: string, venta: string, coste: string)

  /** An insertion-ordered dictionary: its keys in insertion order and its contents. */
  datatype Table = Table(keys: seq<string>, entries: map<string, Entry>)

  /** Each key is listed once, and exactly the keys present are listed. */
  ghost predicate Wf(t: Table) {
    && (forall i, j | 0 <= i < j < |t.keys| :: t.keys[i] != t.keys[j])
    && (forall k :: k in t.entries <==> k in t.keys)
  }

  /** `d[k] = e`: a new key goes to the end, an existing one keeps its place. */
  function Put(t: Table, k: string, e: Entry): Table {
    Table(if k in t.entries then t.keys else t.keys + [k], t.entries[k := e])
  }

  /** Storing keeps a dictionary well formed, and changes only the entry stored. */
  lemma PutWf(t: Table, k: string, e: Entry)
    requires Wf(t)
    ensures Wf(Put(t, k, e))
    ensures Put(t, k, e).keys[..|t.keys|] == t.keys
  {
  }

  /** The first loop over the names: every sell report creates (or replaces) the entry of its project. */
  function VentaPass(files: seq<string>): Table
    decreases |files|
  {
    if files == [] then Table([], map[])
    else
      var t := VentaPass(files[..|files| - 1]);
      var f := files[|files| - 1];
      if IsProjectFile(f, Venta) then Put(t, ProjectKey(f, ""), Entry(ProjectKey(f, ""), f, ""))
      else t
  }

  /**
   * The second loop over the names, from the dictionary `t0`: a cost report
   * sets the cost name of its project's entry, or creates an entry with no
   * sell name when there is none.
   */
  function CostePass(t0: Table, files: seq<string>): Table
    decreases |files|
  {
    if files == [] then t0
    else
      var t := CostePass(t0, files[..|files| - 1]);
      var f := files[|files| - 1];
      if IsProjectFile(f, Coste) then
        var id := f[..6];
        if id in t.entries then Table(t.keys, t.entries[id := t.entries[id].(coste := f)])
        else Put(t, ProjectKey("", f), Entry(ProjectKey("", f), "", f))
      else t
  }

  /** The dictionary both loops build from the names in the directory. */
  function Pairing(files: seq<string>): Table {
    CostePass(VentaPass(files), files)
  }

  // ------------------------------------------------ what the pairing means

  /** The last report of the given kind for project `p` among `files`, or `""` when there is none. */
  function LastNamed(files: seq<string>, kind: string, p: string): (r: string)
    ensures r == [] <==> forall i | 0 <= i < |files| :: !Names(files[i], kind, p)
    decreases |files|
  {
    if files == [] then ""
    else if Names(files[|files| - 1], kind, p) then files[|files| - 1]
    else
      var pre := files[..|files| - 1];
      var r := LastNamed(pre, kind, p);
      assert forall i | 0 <= i < |pre| :: files[i] == pre[i];
      r
  }

  /** When there is one, it is the report of that kind and project that no later name matches. */
  lemma {:induction false} LastNamedFound(files: seq<string>, kind: string, p: string)
    requires LastNamed(files, kind, p) != []
    ensures exists i | 0 <= i < |files| ::
      && files[i] == LastNamed(files, kind, p) && Names(files[i], kind, p)
      && forall j | i < j < |files| :: !Names(files[j], kind, p)
    decreases |files|
  {
    var n := |files|;
    if Names(files[n - 1], kind, p) {
      assert files[n - 1] == LastNamed(files, kind, p);
    } else {
      var pre := files[..n - 1];
      LastNamedFound(pre, kind, p);
      var i :| 0 <= i < |pre| && pre[i] == LastNamed(pre, kind, p) && Names(pre[i], kind, p)
        && forall j | i < j < |pre| :: !Names(pre[j], kind, p);
      assert files[i] == pre[i];
    }
  }

  /** `LastNamed` over a list grown by one name. */
  lemma LastNamedSnoc(files: seq<string>, f: string, kind: string, p: string)
    ensures LastNamed(files + [f], kind, p) == if Names(f, kind, p) then f else LastNamed(files, kind, p)
  {
    assert (files + [f])[..|files|] == files;
  }

  /** The first loop keeps the dictionary well formed. */
  lemma {:induction false} VentaPassWf(files: seq<string>)
    ensures Wf(VentaPass(files))
    decreases |files|
  {
    if files != [] {
      var pre, f := files[..|files| - 1], files[|files| - 1];
      VentaPassWf(pre);
      if IsProjectFile(f, Venta) {
        PutWf(VentaPass(pre), f[..6], Entry(f[..6], f, ""));
      }
    }
  }

  /**
   * After the first loop, the projects present are those with a sell
   * report; each entry holds its key, the last sell report of that project
   * and no cost report.
   */
  lemma {:induction false} VentaPassMeaning(files: seq<string>)
    ensures var t := VentaPass(files);
      && (forall p :: p in t.entries <==> LastNamed(files, Venta, p) != [])
      && (forall p | p in t.entries :: t.entries[p] == Entry(p, LastNamed(files, Venta, p), ""))
    decreases |files|
  {
    if files != [] {
      var pre, f := files[..|files| - 1], files[|files| - 1];
      assert files == pre + [f];
      VentaPassMeaning(pre);
      forall p {
        LastNamedSnoc(pre, f, Venta, p);
      }
    }
  }

  /**
   * The second loop, run on `files` from the result of the first loop on
   * `vs`: the projects present are those with a sell report in `vs` or a
   * cost report in `files`; each entry keeps its sell report and holds the
   * last cost report of its project.
   */
  lemma {:induction false} CostePassMeaning(vs: seq<string>, files: seq<string>)
    ensures var t := CostePass(VentaPass(vs), files);
      && (forall p :: p in t.entries <==> LastNamed(vs, Venta, p) != [] || LastNamed(files, Coste, p) != [])
      && (forall p | p in t.entries :: t.entries[p] == Entry(p, LastNamed(vs, Venta, p), LastNamed(files, Coste, p)))
    decreases |files|
  {
    if files == [] {
      VentaPassMeaning(vs);
    } else {
      var pre, f := files[..|files| - 1], files[|files| - 1];
      assert files == pre + [f];
      CostePassMeaning(vs, pre);
      CostePassStep(VentaPass(vs), files);
      var t, u := CostePass(VentaPass(vs), pre), CostePass(VentaPass(vs), files);
      forall p
        ensures p in u.entries <==> LastNamed(vs, Venta, p) != [] || LastNamed(files, Coste, p) != []
        ensures p in u.entries ==> u.entries[p] == Entry(p, LastNamed(vs, Venta, p), LastNamed(files, Coste, p))
      {
        LastNamedSnoc(pre, f, Coste, p);
        if !Names(f, Coste, p) {
          assert p in u.entries <==> p in t.entries;
          assert p in u.entries ==> u.entries[p] == t.entries[p];
        }
      }
    }
  }

  /** The last step of the second loop, on the entries alone. */
  lemma CostePassStep(t0: Table, files: seq<string>)
    requires files != []
    ensures var t := CostePass(t0, files[..|files| - 1]);
            var f := files[|files| - 1];
            var u := CostePass(t0, files);
      && (!IsProjectFile(f, Coste) ==> u == t)
      && (IsProjectFile(f, Coste) ==>
            u.entries == t.entries[f[..6] := if f[..6] in t.entries then t.entries[f[..6]].(coste := f) else Entry(f[..6], "", f)])
  {
  }

  /**
   * The pairing, independently of how the loops build it: one entry per
   * project that has a report of either kind, holding the last sell report
   * and the last cost report of that project (`""` for none); a cost report
   * never changes a sell name.
   */
  lemma PairingMeaning(files: seq<string>)
    ensures var t := Pairing(files);
      && Wf(t)
      && (forall p :: p in t.entries <==> LastNamed(files, Venta, p) != [] || LastNamed(files, Coste, p) != [])
      && (forall p | p in t.entries :: t.entries[p] == Entry(p, LastNamed(files, Venta, p), LastNamed(files, Coste, p)))
  {
    VentaPassWf(files);
    CostePassAppends(VentaPass(files), files);
    CostePassMeaning(files, files);
  }

  /** The second loop keeps the keys it starts from, in place, with their sell names, and only appends keys without one. */
  lemma {:induction false} CostePassAppends(t0: Table, files: seq<string>)
    requires Wf(t0)
    ensures var t := CostePass(t0, files);
      && |t0.keys| <= |t.keys| && t.keys[..|t0.keys|] == t0.keys
      && (forall p | p in t0.entries :: p in t.entries && t.entries[p].venta == t0.entries[p].venta)
      && (forall i | |t0.keys| <= i < |t.keys| :: t.keys[i] in t.entries && t.entries[t.keys[i]].venta == [])
      && Wf(t)
    decreases |files|
  {
    if files != [] {
      var pre, f := files[..|files| - 1], files[|files| - 1];
      CostePassAppends(t0, pre);
      var t := CostePass(t0, pre);
      if IsProjectFile(f, Coste) && f[..6] !in t.entries {
        PutWf(t, f[..6], Entry(f[..6], "", f));
      }
    }
  }

  /** Every entry the first loop creates has a sell name. */
  lemma VentaPassNamed(files: seq<string>)
    ensures forall p | p in VentaPass(files).entries :: VentaPass(files).entries[p].venta != []
  {
    VentaPassMeaning(files);
  }

  /** Projects with a sell report come first in the dictionary, before those with only a cost report. */
  lemma SellProjectsFirst(files: seq<string>)
    ensures var t := Pairing(files);
      forall i, j | 0 <= i < j < |t.keys| ::
        t.keys[j] in t.entries && t.keys[i] in t.entries &&
        (t.entries[t.keys[j]].venta != [] ==> t.entries[t.keys[i]].venta != [])
  {
    var t0 := VentaPass(files);
    VentaPassWf(files);
    VentaPassMeaning(files);
    VentaPassNamed(files);
    CostePassAppends(t0, files);
    var t := Pairing(files);
    forall i, j | 0 <= i < j < |t.keys|
      ensures t.keys[j] in t.entries && t.keys[i] in t.entries
      ensures t.entries[t.keys[j]].venta != [] ==> t.entries[t.keys[i]].venta != []
    {
      if i < |t0.keys| {
        assert t.keys[i] == t0.keys[i];
      }
    }
  }

  // ------------------------------------------------------------ the loops

  /** The objects of a dictionary are all different. */
  predicate Distinct(entries: map<string, FicherosProyecto>) {
    forall p, q | p in entries && q in entries && p != q :: entries[p] != entries[q]
  }

  /** The value of one entry object. */
  function EntryOf(o: FicherosProyecto): Entry
    reads o
  {
    Entry(o.proyecto, o.archivoVenta, o.archivoCoste)
  }

  /** The dictionary of objects as a value. */
  function View(keys: seq<string>, entries: map<string, FicherosProyecto>): Table
    reads entries.Values
  {
    Table(keys, map p | p in entries :: EntryOf(entries[p]))
  }

  /** Store a new entry object under its project, as `dict[key] = value` does. */
  method Store(keys: seq<string>, entries: map<string, FicherosProyecto>, o: FicherosProyecto)
    returns (keys': seq<string>, entries': map<string, FicherosProyecto>)
    requires Distinct(entries) && o !in entries.Values
    ensures keys' == (if o.proyecto in entries then keys else keys + [o.proyecto])
    ensures entries' == entries[o.proyecto := o]
    ensures Distinct(entries')
    ensures View(keys', entries') == Put(View(keys, entries), o.proyecto, EntryOf(o))
  {
    keys' := if o.proyecto in entries then keys else keys + [o.proyecto];
    entries' := entries[o.proyecto := o];
  }

  /** The first loop of the `todos` command: one fresh entry per sell report. */
  method VentaLoop(files: seq<string>) returns (keys: seq<string>, entries: map<string, FicherosProyecto>)
    ensures Distinct(entries) && forall p | p in entries :: fresh(entries[p])
    ensures View(keys, entries) == VentaPass(files)
  {
    keys, entries := [], map[];
    for i := 0 to |files|
      invariant Distinct(entries) && forall p | p in entries :: fresh(entries[p])
      invariant View(keys, entries) == VentaPass(files[..i])
    {
      var f := files[i];
      assert files[..i + 1] == files[..i] + [f];
      if |f| == 15 && EndsWith(f, ".txt") && IsDigits(f[..6]) && f[6..11] == "venta" {
        var proyecto := new FicherosProyecto(f, "");
        keys, entries := Store(keys, entries, proyecto);
      }
    }
    assert files[..|files|] == files;
  }

  /** Set the cost report of the entry of `id`; every other entry keeps its value. */
  method SetCoste(keys: seq<string>, entries: map<string, FicherosProyecto>, id: string, f: string)
    requires Distinct(entries) && id in entries
    modifies entries[id]
    ensures View(keys, entries) == old(View(keys, entries)).(entries := old(View(keys, entries)).entries[id := old(EntryOf(entries[id])).(coste := f)])
  {
    entries[id].archivoCoste := f;
  }

  /**
   * The second loop of the `todos` command: a cost report updates the
   * `archivoCoste` field of its project's entry in place, or adds a fresh
   * entry.
   */
  method CosteLoop(files: seq<string>, keys0: seq<string>, entries0: map<string, FicherosProyecto>)
    returns (keys: seq<string>, entries: map<string, FicherosProyecto>)
    requires Distinct(entries0)
    modifies entries0.Values
    ensures Distinct(entries)
    ensures forall p | p in entries :: entries[p] in entries0.Values || fresh(entries[p])
    ensures View(keys, entries) == CostePass(old(View(keys0, entries0)), files)
  {
    keys, entries := keys0, entries0;
    for i := 0 to |files|
      invariant Distinct(entries)
      invariant forall p | p in entries :: entries[p] in entries0.Values || fresh(entries[p])
      invariant View(keys, entries) == CostePass(old(View(keys0, entries0)), files[..i])
    {
      var f := files[i];
      assert files[..i + 1] == files[..i] + [f];
      if |f| == 15 && EndsWith(f, ".txt") && IsDigits(f[..6]) && f[6..11] == "coste" {
        var id := f[..6];
        if id in entries {
          SetCoste(keys, entries, id, f);
        } else {
          var proyecto := new FicherosProyecto("", f);
          keys, entries := Store(keys, entries, proyecto);
        }
      }
    }
    assert files[..|files|] == files;
  }

  /** Both loops of the `todos` command over the names in the directory. */
  method Collect(files: seq<string>) returns (keys: seq<string>, entries: map<string, FicherosProyecto>)
    ensures Distinct(entries) && forall p | p in entries :: fresh(entries[p])
    ensures View(keys, entries) == Pairing(files)
  {
    var k, e := VentaLoop(files);
    keys, entries := CosteLoop(files, k, e);
  }

  // ------------------------------------------------------- the processing

  type CostReport = ParseFile.Report<MaterialLines.MaterialLine, JobLines.JobLine>

  /** The lines of a report by name; `""` stands for no report and gives no lines. */
  function LinesOf(read: string -> seq<string>, name: string): seq<string> {
    if name == "" then [] else read(name)
  }

  /** `ParseFile(archivo_coste, archivo_venta, ...)`: the cost report first, the sell report second. */
  function SheetsOf(read: string -> seq<string>, e: Entry): (s: ParseFile.Sheets)
    ensures e.coste == [] ==> s.cost == []
    ensures e.venta == [] ==> s.sell == []
  {
    ParseFile.Sheets(LinesOf(read, e.coste), LinesOf(read, e.venta))
  }

  /**
   * The processing loop: `parse` once per entry, in insertion order, on the
   * entry's cost and sell reports, until the first entry whose parse stops
   * the run.
   */
  method ProcessProjects<R, F>(t: Table, read: string -> seq<string>, parse: ParseFile.Sheets -> Result<R, F>)
    returns (reports: seq<(string, R)>, stopped: Option<(string, F)>)
    requires forall k | k in t.keys :: k in t.entries
    ensures |reports| <= |t.keys|
    ensures forall i | 0 <= i < |reports| ::
      reports[i].0 == t.keys[i] && parse(SheetsOf(read, t.entries[t.keys[i]])) == Success(reports[i].1)
    ensures stopped.None? <==> |reports| == |t.keys|
    ensures stopped.Some? ==>
      stopped.value.0 == t.keys[|reports|] &&
      parse(SheetsOf(read, t.entries[t.keys[|reports|]])) == Failure(stopped.value.1)
  {
    reports := [];
    for i := 0 to |t.keys|
      invariant |reports| == i
      invariant forall j | 0 <= j < i ::
        reports[j].0 == t.keys[j] && parse(SheetsOf(read, t.entries[t.keys[j]])) == Success(reports[j].1)
    {
      var archivos := t.entries[t.keys[i]];
      var r := parse(SheetsOf(read, archivos));
      if r.Failure? {
        return reports, Some((t.keys[i], r.error));
      }
      reports := reports + [(t.keys[i], r.value)];
    }
    return reports, None;
  }

  /**
   * The `todos` command after the confirmation: pair the names, then parse
   * every project in the order of the pairing, stopping at the first fatal
   * error.
   */
  method ConvertDirectory(files: seq<string>, read: string -> seq<string>, errors: bool)
    returns (reports: seq<(string, CostReport)>, stopped: Option<(string, ParseFile.Fatal)>)
    ensures var t := Pairing(files);
      && |reports| <= |t.keys|
      && (stopped.None? <==> |reports| == |t.keys|)
      && (forall i | 0 <= i < |reports| ::
            reports[i].0 == t.keys[i] && t.keys[i] in t.entries &&
            ParseFile.ParseReport(SheetsOf(read, t.entries[t.keys[i]]), errors) == Success(reports[i].1))
      && (stopped.Some? ==>
            stopped.value.0 == t.keys[|reports|] && t.keys[|reports|] in t.entries &&
            ParseFile.ParseReport(SheetsOf(read, t.entries[t.keys[|reports|]]), errors) == Failure(stopped.value.1))
  {
    PairingMeaning(files);
    var keys, entries := Collect(files);
    reports, stopped := ProcessProjects(View(keys, entries), read, s => ParseFile.ParseReport(s, errors));
  }
}

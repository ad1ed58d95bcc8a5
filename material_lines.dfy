/**
 * One row of the materials section (`MaterialLine.parse`): fixed-width
 * columns cut from the guide line, the cost line and the sell line,
 * validated in a fixed order, with the identity columns of the cost and
 * sell lines compared when both reports are present.
 */
module MaterialLines {
  import opened Wrappers
  import opened PyText
  import opened FieldCodec
  import opened RowChecks

  // Column ends of a material row (each column starts where the previous one ends).
  const ReferenciaEnd: nat := 16
  const DescripcionEnd: nat := 57
  const FechaEnd: nat := 68
  const CantidadEnd: nat := 80
  const PrecioEnd: nat := 96
  const ImporteEnd: nat := 112

  /** A validated material row; `lineNumber` is the 0-based index of the line in the report. */
  datatype MaterialLine = MaterialLine(
    lineNumber: nat,
    referencia: string,
    descripcion: string,
    fechaStr: string,
    fecha: Date,
    cantidadStr: string,
    cantidad: Decimal,
    precioUnitarioCosteStr: string,
    precioUnitarioCoste: Decimal,
    importeTotalCosteStr: string,
    importeTotalCoste: Decimal,
    precioUnitarioVentaStr: string,
    precioUnitarioVenta: Decimal,
    importeTotalVentaStr: string,
    importeTotalVenta: Decimal)

  /** The identity columns of a line, in the order they are compared. */
  function IdentityColumns(line: string): (cols: seq<string>)
    ensures |cols| == |IdentityNames|
  {
    [ Field(line, 0, ReferenciaEnd), Field(line, ReferenciaEnd, DescripcionEnd),
      Field(line, DescripcionEnd, FechaEnd), Field(line, FechaEnd, CantidadEnd) ]
  }

  const IdentityNames := [Referencia, Descripcion, Fecha, Cantidad]

  /** The identity columns of the cost line and the sell line, paired. */
  function IdentityPairs(cost: string, sell: string): seq<Pair> {
    Zip(IdentityNames, IdentityColumns(cost), IdentityColumns(sell))
  }

  /** The column texts of a material row, as cut and stripped before any check runs. */
  datatype RowText = RowText(
    referencia: string,
    descripcion: string,
    fechaStr: string,
    cantidadStr: string,
    precioCosteStr: string,
    importeCosteStr: string,
    precioVentaStr: string,
    importeVentaStr: string)

  /**
   * The slicing half of `MaterialLine.parse`: identity columns from the
   * guide line; price and amount of a side from that side's line, and only
   * when the side is in use (otherwise they keep their default `""`).
   */
  function Cut(guide: string, cost: string, sell: string, useCost: bool, useSell: bool): (t: RowText)
    ensures !useCost ==> t.precioCosteStr == [] && t.importeCosteStr == []
    ensures !useSell ==> t.precioVentaStr == [] && t.importeVentaStr == []
  {
    RowText(
      Field(guide, 0, ReferenciaEnd),
      Field(guide, ReferenciaEnd, DescripcionEnd),
      Field(guide, DescripcionEnd, FechaEnd),
      Field(guide, FechaEnd, CantidadEnd),
      if useCost then Field(cost, CantidadEnd, PrecioEnd) else "",
      if useCost then Field(cost, PrecioEnd, ImporteEnd) else "",
      if useSell then Field(sell, CantidadEnd, PrecioEnd) else "",
      if useSell then Field(sell, PrecioEnd, ImporteEnd) else "")
  }

  /**
   * The checking half of `MaterialLine.parse`: date, quantity, the cost
   * side, the sell side, then (both sides in use) the congruence loop over
   * `pairs`; the first failure is raised.
   */
  function Validate(t: RowText, pairs: seq<Pair>, n: nat, useCost: bool, useSell: bool)
    : (r: Result<MaterialLine, RowError>)
    ensures r.Success? ==>
      var m := r.value;
      && m.lineNumber == n
      && m.referencia == t.referencia && m.descripcion == t.descripcion
      && m.fechaStr == t.fechaStr && m.cantidadStr == t.cantidadStr
      && m.precioUnitarioCosteStr == t.precioCosteStr && m.importeTotalCosteStr == t.importeCosteStr
      && m.precioUnitarioVentaStr == t.precioVentaStr && m.importeTotalVentaStr == t.importeVentaStr
    ensures r.Success? ==> IsCalendarDate(r.value.fecha) && ParseDate(t.fechaStr) == Some(r.value.fecha)
    ensures r.Success? ==> ParseNumber(t.cantidadStr) == Some(r.value.cantidad)
    ensures r.Success? && useCost ==>
      ParseNumber(t.precioCosteStr) == Some(r.value.precioUnitarioCoste) && ParseNumber(t.importeCosteStr) == Some(r.value.importeTotalCoste)
    ensures r.Success? && !useCost ==> r.value.precioUnitarioCoste == Zero && r.value.importeTotalCoste == Zero
    ensures r.Success? && useSell ==>
      ParseNumber(t.precioVentaStr) == Some(r.value.precioUnitarioVenta) && ParseNumber(t.importeVentaStr) == Some(r.value.importeTotalVenta)
    ensures r.Success? && !useSell ==> r.value.precioUnitarioVenta == Zero && r.value.importeTotalVenta == Zero
    ensures r.Success? && useCost && useSell ==> forall i | 0 <= i < |pairs| :: pairs[i].costText == pairs[i].sellText
    ensures r.Failure? ==> r.error.reportedLine == n + 1
    ensures r.Failure? && r.error.Incongruent? ==> useCost && useSell && Congruence(pairs, n) == Failure(r.error)
  {
    var m :- ReadRow(t, n, useCost, useSell);
    var agreed :- if useCost && useSell then Congruence(pairs, n) else Success(());
    Success(m)
  }

  /** The checks of `Validate` that come before the congruence loop. */
  function ReadRow(t: RowText, n: nat, useCost: bool, useSell: bool): (r: Result<MaterialLine, RowError>)
    ensures r.Success? ==>
      var m := r.value;
      && m.lineNumber == n
      && m.referencia == t.referencia && m.descripcion == t.descripcion
      && m.fechaStr == t.fechaStr && m.cantidadStr == t.cantidadStr
      && m.precioUnitarioCosteStr == t.precioCosteStr && m.importeTotalCosteStr == t.importeCosteStr
      && m.precioUnitarioVentaStr == t.precioVentaStr && m.importeTotalVentaStr == t.importeVentaStr
    ensures r.Success? ==> IsCalendarDate(r.value.fecha) && ParseDate(t.fechaStr) == Some(r.value.fecha)
    ensures r.Success? ==> ParseNumber(t.cantidadStr) == Some(r.value.cantidad)
    ensures r.Success? && useCost ==>
      ParseNumber(t.precioCosteStr) == Some(r.value.precioUnitarioCoste) && ParseNumber(t.importeCosteStr) == Some(r.value.importeTotalCoste)
    ensures r.Success? && !useCost ==> r.value.precioUnitarioCoste == Zero && r.value.importeTotalCoste == Zero
    ensures r.Success? && useSell ==>
      ParseNumber(t.precioVentaStr) == Some(r.value.precioUnitarioVenta) && ParseNumber(t.importeVentaStr) == Some(r.value.importeTotalVenta)
    ensures r.Success? && !useSell ==> r.value.precioUnitarioVenta == Zero && r.value.importeTotalVenta == Zero
    ensures r.Failure? ==> r.error.reportedLine == n + 1 && !r.error.Incongruent?
  {
    var fecha :- ReadDate(Fecha, t.fechaStr, n);
    var cantidad :- ReadNumber(Cantidad, t.cantidadStr, n);
    var precioCoste :- if useCost then ReadNumber(PrecioUnitarioCoste, t.precioCosteStr, n) else Success(Zero);
    var importeCoste :- if useCost then ReadNumber(ImporteTotalCoste, t.importeCosteStr, n) else Success(Zero);
    var precioVenta :- if useSell then ReadNumber(PrecioUnitarioVenta, t.precioVentaStr, n) else Success(Zero);
    var importeVenta :- if useSell then ReadNumber(ImporteTotalVenta, t.importeVentaStr, n) else Success(Zero);
    Success(MaterialLine(n, t.referencia, t.descripcion, t.fechaStr, fecha, t.cantidadStr, cantidad,
                         t.precioCosteStr, precioCoste, t.importeCosteStr, importeCoste,
                         t.precioVentaStr, precioVenta, t.importeVentaStr, importeVenta))
  }

  /** `MaterialLine.parse`: a validated row, or the first error its checks raise. */
  function Parse(guide: string, cost: string, sell: string, n: nat, useCost: bool, useSell: bool)
    : (r: Result<MaterialLine, RowError>)
    ensures r.Success? ==>
      var m := r.value;
      && m.lineNumber == n
      && m.referencia == Field(guide, 0, ReferenciaEnd)
      && m.descripcion == Field(guide, ReferenciaEnd, DescripcionEnd)
      && m.fechaStr == Field(guide, DescripcionEnd, FechaEnd)
      && m.cantidadStr == Field(guide, FechaEnd, CantidadEnd)
      && m.precioUnitarioCosteStr == (if useCost then Field(cost, CantidadEnd, PrecioEnd) else "")
      && m.importeTotalCosteStr == (if useCost then Field(cost, PrecioEnd, ImporteEnd) else "")
      && m.precioUnitarioVentaStr == (if useSell then Field(sell, CantidadEnd, PrecioEnd) else "")
      && m.importeTotalVentaStr == (if useSell then Field(sell, PrecioEnd, ImporteEnd) else "")
    ensures Field(guide, DescripcionEnd, FechaEnd) == [] ==> r == Failure(NotValid(Fecha, Empty, n + 1, ""))
  {
    Validate(Cut(guide, cost, sell, useCost, useSell), IdentityPairs(cost, sell), n, useCost, useSell)
  }

  // ------------------------------------------------------ validation order

  /** The checks of a material row, in the order the row is validated. */
  function Checks(t: RowText, pairs: seq<Pair>, useCost: bool, useSell: bool): seq<Check> {
    [DateCheck(Fecha, t.fechaStr)]
    + ([NumberCheck(Cantidad, t.cantidadStr)]
    + (SideChecks(PrecioUnitarioCoste, t.precioCosteStr, ImporteTotalCoste, t.importeCosteStr, useCost)
    + (SideChecks(PrecioUnitarioVenta, t.precioVentaStr, ImporteTotalVenta, t.importeVentaStr, useSell)
    + (if useCost && useSell then SameChecks(pairs) else []))))
  }

  /** The price and amount checks of one side, present only when the side is in use. */
  function SideChecks(price: FieldName, priceText: string, amount: FieldName, amountText: string, used: bool): seq<Check> {
    if used then [NumberCheck(price, priceText), NumberCheck(amount, amountText)] else []
  }

  /** The error the price and amount of one side raise, price first. */
  function SideErr(price: FieldName, priceText: string, amount: FieldName, amountText: string, used: bool, n: nat)
    : Option<RowError>
  {
    if used then Or(Err(ReadNumber(price, priceText, n)), Err(ReadNumber(amount, amountText, n))) else None
  }

  lemma {:induction false} SideChecksErr(price: FieldName, priceText: string, amount: FieldName, amountText: string, used: bool, n: nat)
    ensures FirstComplaint(SideChecks(price, priceText, amount, amountText, used), n)
         == SideErr(price, priceText, amount, amountText, used, n)
  {
    if used {
      FirstComplaintCons(NumberCheck(price, priceText), [NumberCheck(amount, amountText)], n);
      FirstComplaintOne(NumberCheck(amount, amountText), n);
    }
  }

  /** `Validate` as the chain of its steps: the first step that fails decides. */
  lemma {:induction false} ValidateChain(t: RowText, pairs: seq<Pair>, n: nat, useCost: bool, useSell: bool)
    ensures Err(Validate(t, pairs, n, useCost, useSell))
         == Or(Err(ReadDate(Fecha, t.fechaStr, n)),
            Or(Err(ReadNumber(Cantidad, t.cantidadStr, n)),
            Or(SideErr(PrecioUnitarioCoste, t.precioCosteStr, ImporteTotalCoste, t.importeCosteStr, useCost, n),
            Or(SideErr(PrecioUnitarioVenta, t.precioVentaStr, ImporteTotalVenta, t.importeVentaStr, useSell, n),
               if useCost && useSell then Err(Congruence(pairs, n)) else None))))
  {
  }

  /** The checks of a row as the chain of their blocks. */
  lemma {:induction false} ChecksChain(t: RowText, pairs: seq<Pair>, n: nat, useCost: bool, useSell: bool)
    ensures FirstComplaint(Checks(t, pairs, useCost, useSell), n)
         == Or(Complaint(DateCheck(Fecha, t.fechaStr), n),
            Or(Complaint(NumberCheck(Cantidad, t.cantidadStr), n),
            Or(FirstComplaint(SideChecks(PrecioUnitarioCoste, t.precioCosteStr, ImporteTotalCoste, t.importeCosteStr, useCost), n),
            Or(FirstComplaint(SideChecks(PrecioUnitarioVenta, t.precioVentaStr, ImporteTotalVenta, t.importeVentaStr, useSell), n),
               FirstComplaint(if useCost && useSell then SameChecks(pairs) else [], n)))))
  {
    var c := SideChecks(PrecioUnitarioCoste, t.precioCosteStr, ImporteTotalCoste, t.importeCosteStr, useCost);
    var d := SideChecks(PrecioUnitarioVenta, t.precioVentaStr, ImporteTotalVenta, t.importeVentaStr, useSell);
    var e := if useCost && useSell then SameChecks(pairs) else [];
    FirstComplaintConcat(d, e, n);
    FirstComplaintConcat(c, d + e, n);
    FirstComplaintCons(NumberCheck(Cantidad, t.cantidadStr), c + (d + e), n);
    FirstComplaintCons(DateCheck(Fecha, t.fechaStr), [NumberCheck(Cantidad, t.cantidadStr)] + (c + (d + e)), n);
  }

  /**
   * A row is accepted exactly when none of its checks complains, and a
   * rejected row carries the complaint of the first failing check: date,
   * quantity, cost columns, sell columns, then the identity comparison.
   */
  lemma {:induction false} ValidateFollowsChecks(t: RowText, pairs: seq<Pair>, n: nat, useCost: bool, useSell: bool)
    ensures Err(Validate(t, pairs, n, useCost, useSell)) == FirstComplaint(Checks(t, pairs, useCost, useSell), n)
  {
    ValidateChain(t, pairs, n, useCost, useSell);
    ChecksChain(t, pairs, n, useCost, useSell);
    SideChecksErr(PrecioUnitarioCoste, t.precioCosteStr, ImporteTotalCoste, t.importeCosteStr, useCost, n);
    SideChecksErr(PrecioUnitarioVenta, t.precioVentaStr, ImporteTotalVenta, t.importeVentaStr, useSell, n);
    CongruenceIsChecks(pairs, n);
  }

  /** Without both sides in use the identity pairs are never compared. */
  lemma {:induction false} PairsUnused(t: RowText, pairs: seq<Pair>, pairs': seq<Pair>, n: nat, useCost: bool, useSell: bool)
    requires !(useCost && useSell)
    ensures Validate(t, pairs, n, useCost, useSell) == Validate(t, pairs', n, useCost, useSell)
  {
    assert Validate(t, pairs, n, useCost, useSell) == ReadRow(t, n, useCost, useSell);
    assert Validate(t, pairs', n, useCost, useSell) == ReadRow(t, n, useCost, useSell);
  }

  /** The line of a side that is not in use is never looked at: any other line gives the same result. */
  lemma {:induction false} UnusedSideIgnored(guide: string, cost: string, sell: string, cost': string, sell': string,
                          n: nat, useCost: bool, useSell: bool)
    ensures !useCost ==> Parse(guide, cost, sell, n, false, useSell) == Parse(guide, cost', sell, n, false, useSell)
    ensures !useSell ==> Parse(guide, cost, sell, n, useCost, false) == Parse(guide, cost, sell', n, useCost, false)
  {
    assert Cut(guide, cost, sell, false, useSell) == Cut(guide, cost', sell, false, useSell);
    PairsUnused(Cut(guide, cost, sell, false, useSell), IdentityPairs(cost, sell), IdentityPairs(cost', sell), n, false, useSell);
    assert Cut(guide, cost, sell, useCost, false) == Cut(guide, cost, sell', useCost, false);
    PairsUnused(Cut(guide, cost, sell, useCost, false), IdentityPairs(cost, sell), IdentityPairs(cost, sell'), n, useCost, false);
  }

  /** Agreeing identity columns leave only the conversion errors. */
  lemma {:induction false} AgreeingPairsCongruent(t: RowText, pairs: seq<Pair>, n: nat, useCost: bool, useSell: bool)
    requires forall i | 0 <= i < |pairs| :: pairs[i].costText == pairs[i].sellText
    ensures var r := Validate(t, pairs, n, useCost, useSell);
            r.Failure? ==> r.error.NotValid?
  {
  }

  /** A line compared with itself agrees on every identity column. */
  lemma SamePairsAgree(line: string)
    ensures forall i | 0 <= i < |IdentityPairs(line, line)| :: IdentityPairs(line, line)[i].costText == IdentityPairs(line, line)[i].sellText
  {
  }

  /** A cost line and a sell line with the same identity columns are never reported as incongruent. */
  lemma {:induction false} SameLinesCongruent(guide: string, line: string, n: nat, useCost: bool, useSell: bool)
    ensures var r := Parse(guide, line, line, n, useCost, useSell);
            r.Failure? ==> r.error.NotValid?
  {
    var pairs := IdentityPairs(line, line);
    SamePairsAgree(line);
    AgreeingPairsCongruent(Cut(guide, line, line, useCost, useSell), pairs, n, useCost, useSell);
  }

  /** A line too short to reach the date column is rejected for an empty date. */
  lemma {:induction false} ShortLineRejected(guide: string, cost: string, sell: string, n: nat, useCost: bool, useSell: bool)
    requires |guide| <= DescripcionEnd
    ensures Parse(guide, cost, sell, n, useCost, useSell) == Failure(NotValid(Fecha, Empty, n + 1, ""))
  {
  }
}

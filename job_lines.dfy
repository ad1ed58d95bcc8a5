/**
 * One row of the labour section (`JobLine.parse`): fixed-width columns cut
 * from the guide line, the cost line and the sell line, validated in a
 * fixed order, with the identity columns of the cost and sell lines
 * compared when both reports are present.
 */
module JobLines {
  import opened Wrappers
  import opened PyText
  import opened FieldCodec
  import opened RowChecks

  // Column ends of a labour row (each column starts where the previous one ends).
  const OperacionIdEnd: nat := 4
  const OperacionEnd: nat := 29
  const FechaEnd: nat := 40
  const OperarioIdEnd: nat := 45
  const OperarioNombreEnd: nat := 70
  const CantidadEnd: nat := 78
  const PrecioEnd: nat := 86
  const DietasEnd: nat := 95
  const DesplazamientoEnd: nat := 102
  const ImporteEnd: nat := 113

  /** A validated labour row; `lineNumber` is the 0-based index of the line in the report. */
  datatype JobLine = JobLine(
    lineNumber: nat,
    operacionId: string,
    operacion: string,
    fechaStr: string,
    fecha: Date,
    operarioId: string,
    operarioNombre: string,
    cantidadStr: string,
    cantidad: Decimal,
    precioUnitarioCosteStr: string,
    precioUnitarioCoste: Decimal,
    dietasCosteStr: string,
    dietasCoste: Decimal,
    desplazamientoCosteStr: string,
    desplazamientoCoste: Decimal,
    importeTotalCosteStr: string,
    importeTotalCoste: Decimal,
    precioUnitarioVentaStr: string,
    precioUnitarioVenta: Decimal,
    dietasVentaStr: string,
    dietasVenta: Decimal,
    desplazamientoVentaStr: string,
    desplazamientoVenta: Decimal,
    importeTotalVentaStr: string,
    importeTotalVenta: Decimal)

  /** The four money columns of one side of a labour row, as text. */
  datatype SideText = SideText(precio: string, importe: string, dietas: string, desplazamiento: string)

  /** The four money columns of one side, converted. */
  datatype Amounts = Amounts(precio: Decimal, importe: Decimal, dietas: Decimal, desplazamiento: Decimal)

  /** The names under which the four columns of one side are reported. */
  datatype SideNames = SideNames(precio: FieldName, importe: FieldName, dietas: FieldName, desplazamiento: FieldName)

  const CostNames := SideNames(PrecioUnitarioCoste, ImporteTotalCoste, DietasCoste, DesplazamientoCoste)
  const SellNames := SideNames(PrecioUnitarioVenta, ImporteTotalVenta, DietasVenta, DesplazamientoVenta)

  /** The column texts of a labour row, as cut and stripped before any check runs. */
  datatype JobText = JobText(
    operacionId: string,
    operacion: string,
    fechaStr: string,
    operarioId: string,
    operarioNombre: string,
    cantidadStr: string,
    cost: SideText,
    sell: SideText)

  /**
   * The slicing half of `JobLine.parse`. Every column is cut whatever the
   * flags say. The identity columns come from the guide line; price and
   * amount of the cost side from the cost line but its allowance and travel
   * columns from the guide line; all four sell columns from the sell line.
   */
  function Cut(guide: string, cost: string, sell: string): (t: JobText)
    ensures |guide| <= OperacionEnd ==> t.fechaStr == []
  {
    JobText(
      Field(guide, 0, OperacionIdEnd),
      Field(guide, OperacionIdEnd, OperacionEnd),
      Field(guide, OperacionEnd, FechaEnd),
      Field(guide, FechaEnd, OperarioIdEnd),
      Field(guide, OperarioIdEnd, OperarioNombreEnd),
      Field(guide, OperarioNombreEnd, CantidadEnd),
      SideText(Field(cost, CantidadEnd, PrecioEnd), Field(cost, DesplazamientoEnd, ImporteEnd),
               Field(guide, PrecioEnd, DietasEnd), Field(guide, DietasEnd, DesplazamientoEnd)),
      SideText(Field(sell, CantidadEnd, PrecioEnd), Field(sell, DesplazamientoEnd, ImporteEnd),
               Field(sell, PrecioEnd, DietasEnd), Field(sell, DietasEnd, DesplazamientoEnd)))
  }

  /** The identity columns of a line, in the order they are compared. */
  function IdentityColumns(line: string): (cols: seq<string>)
    ensures |cols| == |IdentityNames|
  {
    [ Field(line, 0, OperacionIdEnd), Field(line, OperacionIdEnd, OperacionEnd),
      Field(line, OperacionEnd, FechaEnd), Field(line, FechaEnd, OperarioIdEnd),
      Field(line, OperarioIdEnd, OperarioNombreEnd), Field(line, OperarioNombreEnd, CantidadEnd) ]
  }

  const IdentityNames := [OperacionId, Operacion, Fecha, OperarioId, OperarioNombre, Cantidad]

  /** The identity columns of the cost line and the sell line, paired. */
  function IdentityPairs(cost: string, sell: string): seq<Pair> {
    Zip(IdentityNames, IdentityColumns(cost), IdentityColumns(sell))
  }

  /** The checks of one side, present only when the side is in use: price, amount, allowance, travel. */
  function SideChecks(names: SideNames, s: SideText, used: bool): seq<Check> {
    if used then
      [ NumberCheck(names.precio, s.precio), NumberCheck(names.importe, s.importe),
        NumberCheck(names.dietas, s.dietas), NumberCheck(names.desplazamiento, s.desplazamiento) ]
    else []
  }

  /**
   * The `if use_coste:` / `if use_venta:` block: the four columns of a side
   * converted in order, the first failure raised; a side not in use keeps
   * its zero amounts.
   */
  function ReadSide(names: SideNames, s: SideText, used: bool, n: nat): (r: Result<Amounts, RowError>)
    ensures r.Success? && used ==>
      && ParseNumber(s.precio) == Some(r.value.precio) && ParseNumber(s.importe) == Some(r.value.importe)
      && ParseNumber(s.dietas) == Some(r.value.dietas) && ParseNumber(s.desplazamiento) == Some(r.value.desplazamiento)
    ensures !used ==> r == Success(Amounts(Zero, Zero, Zero, Zero))
    ensures r.Failure? ==> r.error.NotValid? && r.error.reportedLine == n + 1
  {
    if !used then Success(Amounts(Zero, Zero, Zero, Zero))
    else
      var precio :- ReadNumber(names.precio, s.precio, n);
      var importe :- ReadNumber(names.importe, s.importe, n);
      var dietas :- ReadNumber(names.dietas, s.dietas, n);
      var desplazamiento :- ReadNumber(names.desplazamiento, s.desplazamiento, n);
      Success(Amounts(precio, importe, dietas, desplazamiento))
  }

  /** The error the four columns of one side raise, in the order they are converted. */
  function SideErr(names: SideNames, s: SideText, used: bool, n: nat): Option<RowError> {
    if used then
      Or(Err(ReadNumber(names.precio, s.precio, n)),
      Or(Err(ReadNumber(names.importe, s.importe, n)),
      Or(Err(ReadNumber(names.dietas, s.dietas, n)),
         Err(ReadNumber(names.desplazamiento, s.desplazamiento, n)))))
    else None
  }

  /** A side raises the error of the first of its four columns that fails. */
  lemma {:induction false} ReadSideErr(names: SideNames, s: SideText, used: bool, n: nat)
    ensures Err(ReadSide(names, s, used, n)) == SideErr(names, s, used, n)
  {
  }

  lemma {:induction false} SideChecksErr(names: SideNames, s: SideText, used: bool, n: nat)
    ensures FirstComplaint(SideChecks(names, s, used), n) == SideErr(names, s, used, n)
  {
    if used {
      var cs := SideChecks(names, s, used);
      assert cs == [cs[0]] + ([cs[1]] + ([cs[2]] + [cs[3]]));
      FirstComplaintCons(cs[0], [cs[1]] + ([cs[2]] + [cs[3]]), n);
      FirstComplaintCons(cs[1], [cs[2]] + [cs[3]], n);
      FirstComplaintCons(cs[2], [cs[3]], n);
      FirstComplaintOne(cs[3], n);
    }
  }

  /**
   * The checking half of `JobLine.parse`: date, quantity, the cost side,
   * the sell side, then (both sides in use) the congruence loop over
   * `pairs`; the first failure is raised. Every column text is kept in the
   * row, converted or not.
   */
  function Validate(t: JobText, pairs: seq<Pair>, n: nat, useCost: bool, useSell: bool)
    : (r: Result<JobLine, RowError>)
    ensures r.Success? ==>
      var m := r.value;
      && m.lineNumber == n
      && m.operacionId == t.operacionId && m.operacion == t.operacion && m.fechaStr == t.fechaStr
      && m.operarioId == t.operarioId && m.operarioNombre == t.operarioNombre && m.cantidadStr == t.cantidadStr
      && m.precioUnitarioCosteStr == t.cost.precio && m.importeTotalCosteStr == t.cost.importe
      && m.dietasCosteStr == t.cost.dietas && m.desplazamientoCosteStr == t.cost.desplazamiento
      && m.precioUnitarioVentaStr == t.sell.precio && m.importeTotalVentaStr == t.sell.importe
      && m.dietasVentaStr == t.sell.dietas && m.desplazamientoVentaStr == t.sell.desplazamiento
    ensures r.Success? ==> IsCalendarDate(r.value.fecha) && ParseDate(t.fechaStr) == Some(r.value.fecha)
    ensures r.Success? ==> ParseNumber(t.cantidadStr) == Some(r.value.cantidad)
    ensures r.Success? && useCost ==>
      && ParseNumber(t.cost.precio) == Some(r.value.precioUnitarioCoste)
      && ParseNumber(t.cost.importe) == Some(r.value.importeTotalCoste)
      && ParseNumber(t.cost.dietas) == Some(r.value.dietasCoste)
      && ParseNumber(t.cost.desplazamiento) == Some(r.value.desplazamientoCoste)
    ensures r.Success? && !useCost ==>
      && r.value.precioUnitarioCoste == Zero && r.value.importeTotalCoste == Zero
      && r.value.dietasCoste == Zero && r.value.desplazamientoCoste == Zero
    ensures r.Success? && useSell ==>
      && ParseNumber(t.sell.precio) == Some(r.value.precioUnitarioVenta)
      && ParseNumber(t.sell.importe) == Some(r.value.importeTotalVenta)
      && ParseNumber(t.sell.dietas) == Some(r.value.dietasVenta)
      && ParseNumber(t.sell.desplazamiento) == Some(r.value.desplazamientoVenta)
    ensures r.Success? && !useSell ==>
      && r.value.precioUnitarioVenta == Zero && r.value.importeTotalVenta == Zero
      && r.value.dietasVenta == Zero && r.value.desplazamientoVenta == Zero
    ensures r.Success? && useCost && useSell ==> forall i | 0 <= i < |pairs| :: pairs[i].costText == pairs[i].sellText
    ensures r.Failure? ==> r.error.reportedLine == n + 1
    ensures r.Failure? && r.error.Incongruent? ==> useCost && useSell && Congruence(pairs, n) == Failure(r.error)
  {
    var fecha :- ReadDate(Fecha, t.fechaStr, n);
    var cantidad :- ReadNumber(Cantidad, t.cantidadStr, n);
    var c :- ReadSide(CostNames, t.cost, useCost, n);
    var s :- ReadSide(SellNames, t.sell, useSell, n);
    var agreed :- if useCost && useSell then Congruence(pairs, n) else Success(());
    Success(JobLine(n, t.operacionId, t.operacion, t.fechaStr, fecha, t.operarioId, t.operarioNombre,
                    t.cantidadStr, cantidad,
                    t.cost.precio, c.precio, t.cost.dietas, c.dietas,
                    t.cost.desplazamiento, c.desplazamiento, t.cost.importe, c.importe,
                    t.sell.precio, s.precio, t.sell.dietas, s.dietas,
                    t.sell.desplazamiento, s.desplazamiento, t.sell.importe, s.importe))
  }

  /** `JobLine.parse`: a validated row, or the first error its checks raise. */
  function Parse(guide: string, cost: string, sell: string, n: nat, useCost: bool, useSell: bool)
    : (r: Result<JobLine, RowError>)
    ensures r.Success? ==>
      var m := r.value;
      && m.lineNumber == n
      && m.operacionId == Field(guide, 0, OperacionIdEnd)
      && m.operacion == Field(guide, OperacionIdEnd, OperacionEnd)
      && m.fechaStr == Field(guide, OperacionEnd, FechaEnd)
      && m.operarioId == Field(guide, FechaEnd, OperarioIdEnd)
      && m.operarioNombre == Field(guide, OperarioIdEnd, OperarioNombreEnd)
      && m.cantidadStr == Field(guide, OperarioNombreEnd, CantidadEnd)
      && m.precioUnitarioCosteStr == Field(cost, CantidadEnd, PrecioEnd)
      && m.importeTotalCosteStr == Field(cost, DesplazamientoEnd, ImporteEnd)
      && m.dietasCosteStr == Field(guide, PrecioEnd, DietasEnd)
      && m.desplazamientoCosteStr == Field(guide, DietasEnd, DesplazamientoEnd)
      && m.precioUnitarioVentaStr == Field(sell, CantidadEnd, PrecioEnd)
      && m.importeTotalVentaStr == Field(sell, DesplazamientoEnd, ImporteEnd)
      && m.dietasVentaStr == Field(sell, PrecioEnd, DietasEnd)
      && m.desplazamientoVentaStr == Field(sell, DietasEnd, DesplazamientoEnd)
    ensures Field(guide, OperacionEnd, FechaEnd) == [] ==> r == Failure(NotValid(Fecha, Empty, n + 1, ""))
  {
    Validate(Cut(guide, cost, sell), IdentityPairs(cost, sell), n, useCost, useSell)
  }

  // ------------------------------------------------------ validation order

  /** The checks of a labour row, in the order the row is validated. */
  function Checks(t: JobText, pairs: seq<Pair>, useCost: bool, useSell: bool): seq<Check> {
    [DateCheck(Fecha, t.fechaStr)]
    + ([NumberCheck(Cantidad, t.cantidadStr)]
    + (SideChecks(CostNames, t.cost, useCost)
    + (SideChecks(SellNames, t.sell, useSell)
    + (if useCost && useSell then SameChecks(pairs) else []))))
  }

  /** `Validate` as the chain of its steps: the first step that fails decides. */
  lemma {:induction false} ValidateChain(t: JobText, pairs: seq<Pair>, n: nat, useCost: bool, useSell: bool)
    ensures Err(Validate(t, pairs, n, useCost, useSell))
         == Or(Err(ReadDate(Fecha, t.fechaStr, n)),
            Or(Err(ReadNumber(Cantidad, t.cantidadStr, n)),
            Or(SideErr(CostNames, t.cost, useCost, n),
            Or(SideErr(SellNames, t.sell, useSell, n),
               if useCost && useSell then Err(Congruence(pairs, n)) else None))))
  {
    ReadSideErr(CostNames, t.cost, useCost, n);
    ReadSideErr(SellNames, t.sell, useSell, n);
  }

  /** The checks of a row as the chain of their blocks. */
  lemma {:induction false} ChecksChain(t: JobText, pairs: seq<Pair>, n: nat, useCost: bool, useSell: bool)
    ensures FirstComplaint(Checks(t, pairs, useCost, useSell), n)
         == Or(Complaint(DateCheck(Fecha, t.fechaStr), n),
            Or(Complaint(NumberCheck(Cantidad, t.cantidadStr), n),
            Or(FirstComplaint(SideChecks(CostNames, t.cost, useCost), n),
            Or(FirstComplaint(SideChecks(SellNames, t.sell, useSell), n),
               FirstComplaint(if useCost && useSell then SameChecks(pairs) else [], n)))))
  {
    var c := SideChecks(CostNames, t.cost, useCost);
    var d := SideChecks(SellNames, t.sell, useSell);
    var e := if useCost && useSell then SameChecks(pairs) else [];
    FirstComplaintConcat(d, e, n);
    FirstComplaintConcat(c, d + e, n);
    FirstComplaintCons(NumberCheck(Cantidad, t.cantidadStr), c + (d + e), n);
    FirstComplaintCons(DateCheck(Fecha, t.fechaStr), [NumberCheck(Cantidad, t.cantidadStr)] + (c + (d + e)), n);
  }

  /**
   * A row is accepted exactly when none of its checks complains, and a
   * rejected row carries the complaint of the first failing check: date,
   * quantity, the four cost columns, the four sell columns, then the
   * identity comparison.
   */
  lemma {:induction false} ValidateFollowsChecks(t: JobText, pairs: seq<Pair>, n: nat, useCost: bool, useSell: bool)
    ensures Err(Validate(t, pairs, n, useCost, useSell)) == FirstComplaint(Checks(t, pairs, useCost, useSell), n)
  {
    ValidateChain(t, pairs, n, useCost, useSell);
    ChecksChain(t, pairs, n, useCost, useSell);
    SideChecksErr(CostNames, t.cost, useCost, n);
    SideChecksErr(SellNames, t.sell, useSell, n);
    CongruenceIsChecks(pairs, n);
  }

  /**
   * The line of a side that is not in use does not decide whether the row
   * is accepted nor what it is rejected for (its columns are still copied
   * into an accepted row).
   */
  lemma {:induction false} UnusedSideIgnored(guide: string, cost: string, sell: string, cost': string, sell': string,
                          n: nat, useCost: bool, useSell: bool)
    ensures !useCost ==> Err(Parse(guide, cost, sell, n, false, useSell)) == Err(Parse(guide, cost', sell, n, false, useSell))
    ensures !useSell ==> Err(Parse(guide, cost, sell, n, useCost, false)) == Err(Parse(guide, cost, sell', n, useCost, false))
  {
    ValidateChain(Cut(guide, cost, sell), IdentityPairs(cost, sell), n, false, useSell);
    ValidateChain(Cut(guide, cost', sell), IdentityPairs(cost', sell), n, false, useSell);
    ValidateChain(Cut(guide, cost, sell), IdentityPairs(cost, sell), n, useCost, false);
    ValidateChain(Cut(guide, cost, sell'), IdentityPairs(cost, sell'), n, useCost, false);
  }

  /**
   * The allowance and travel cost columns are cut from the guide line; since
   * the guide is the cost line whenever the cost report is in use, that is
   * the same as cutting them from the cost line.
   */
  lemma {:induction false} GuideCostColumns(cost: string, sell: string)
    ensures Cut(cost, cost, sell).cost == SideText(Field(cost, CantidadEnd, PrecioEnd), Field(cost, DesplazamientoEnd, ImporteEnd),
                                                   Field(cost, PrecioEnd, DietasEnd), Field(cost, DietasEnd, DesplazamientoEnd))
  {
  }

  /** Agreeing identity columns leave only the conversion errors. */
  lemma {:induction false} AgreeingPairsCongruent(t: JobText, pairs: seq<Pair>, n: nat, useCost: bool, useSell: bool)
    requires forall i | 0 <= i < |pairs| :: pairs[i].costText == pairs[i].sellText
    ensures var r := Validate(t, pairs, n, useCost, useSell);
            r.Failure? ==> r.error.NotValid?
  {
  }

  /** A line compared with itself agrees on every identity column. */
  lemma SamePairsAgree(line: string)
    ensures forall i | 0 <= i < |IdentityPairs(line, line)| :: IdentityPairs(line, line)[i].costText == IdentityPairs(line, line)[i].sellText
  {
  }

  /** A cost line and a sell line with the same identity columns are never reported as incongruent. */
  lemma {:induction false} SameLinesCongruent(guide: string, line: string, n: nat, useCost: bool, useSell: bool)
    ensures var r := Parse(guide, line, line, n, useCost, useSell);
            r.Failure? ==> r.error.NotValid?
  {
    var pairs := IdentityPairs(line, line);
    SamePairsAgree(line);
    AgreeingPairsCongruent(Cut(guide, line, line), pairs, n, useCost, useSell);
  }

  /** A line too short to reach the date column (a blank line among them) is rejected for an empty date. */
  lemma {:induction false} ShortLineRejected(guide: string, cost: string, sell: string, n: nat, useCost: bool, useSell: bool)
    requires |guide| <= OperacionEnd
    ensures Parse(guide, cost, sell, n, useCost, useSell) == Failure(NotValid(Fecha, Empty, n + 1, ""))
  {
  }
}

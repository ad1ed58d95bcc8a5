/**
 * What the two row builders (materials and labour) share: the names of the
 * columns they validate, the two kinds of row error, the date and number
 * readers, the cost/sell congruence loop, and a declarative list of checks
 * whose first failure decides a row's error.
 */
module RowChecks {
  import opened Wrappers
  import opened FieldCodec

  /** Every column a row builder can complain about. */
  datatype FieldName =
    | Referencia | Descripcion
    | OperacionId | Operacion | OperarioId | OperarioNombre
    | Fecha | Cantidad
    | PrecioUnitarioCoste | ImporteTotalCoste | DietasCoste | DesplazamientoCoste
    | PrecioUnitarioVenta | ImporteTotalVenta | DietasVenta | DesplazamientoVenta

  /** Why a column was rejected: it was blank, or it did not convert. */
  datatype Problem = Empty | Malformed

  /**
   * The two exceptions a row builder raises. `NotValid` is a blank or
   * unconvertible column; `Incongruent` is an identity column that differs
   * between the cost line and the sell line. Both report the line as
   * the 0-based index plus one, as their messages do.
   */
  datatype RowError =
    | NotValid(field: FieldName, problem: Problem, reportedLine: int, text: string)
    | Incongruent(field: FieldName, costText: string, sellText: string, reportedLine: int)

  /** A date column: blank is `Empty`, anything `strptime("%d/%m/%Y")` rejects is `Malformed`. */
  function ReadDate(name: FieldName, text: string, n: nat): (r: Result<Date, RowError>)
    ensures r.Success? <==> text != [] && ParseDate(text).Some?
    ensures r.Success? ==> IsCalendarDate(r.value) && ParseDate(text) == Some(r.value)
    ensures r.Failure? ==> r.error == NotValid(name, if text == [] then Empty else Malformed, n + 1, text)
    ensures Complaint(DateCheck(name, text), n) == Err(r)
  {
    if text == [] then Failure(NotValid(name, Empty, n + 1, text))
    else
      match ParseDate(text)
      case None => Failure(NotValid(name, Malformed, n + 1, text))
      case Some(d) => Success(d)
  }

  /** A number column: blank is `Empty`, anything the European-number conversion rejects is `Malformed`. */
  function ReadNumber(name: FieldName, text: string, n: nat): (r: Result<Decimal, RowError>)
    ensures r.Success? <==> text != [] && ParseNumber(text).Some?
    ensures r.Success? ==> ParseNumber(text) == Some(r.value)
    ensures r.Failure? ==> r.error == NotValid(name, if text == [] then Empty else Malformed, n + 1, text)
    ensures Complaint(NumberCheck(name, text), n) == Err(r)
  {
    match Complaint(NumberCheck(name, text), n)
    case Some(e) => Failure(e)
    case None => Success(ParseNumber(text).value)
  }

  /** One identity column as read from the cost line and from the sell line. */
  datatype Pair = Pair(name: FieldName, costText: string, sellText: string)

  /** The pairs compared by the congruence loop: each name with its cost text and its sell text. */
  function Zip(names: seq<FieldName>, cost: seq<string>, sell: seq<string>): (ps: seq<Pair>)
    requires |cost| == |names| && |sell| == |names|
    ensures |ps| == |names|
    ensures forall i | 0 <= i < |names| :: ps[i] == Pair(names[i], cost[i], sell[i])
  {
    if names == [] then []
    else [Pair(names[0], cost[0], sell[0])] + Zip(names[1..], cost[1..], sell[1..])
  }

  /**
   * The congruence loop: the pairs are compared in order and the first one
   * whose two texts differ is reported.
   */
  function Congruence(pairs: seq<Pair>, n: nat): (r: Result<(), RowError>)
    ensures r.Success? <==> forall i | 0 <= i < |pairs| :: pairs[i].costText == pairs[i].sellText
    ensures r.Failure? ==>
      exists i | 0 <= i < |pairs| ::
        && pairs[i].costText != pairs[i].sellText
        && (forall j | 0 <= j < i :: pairs[j].costText == pairs[j].sellText)
        && r.error == Incongruent(pairs[i].name, pairs[i].costText, pairs[i].sellText, n + 1)
  {
    if pairs == [] then Success(())
    else if pairs[0].costText != pairs[0].sellText then
      Failure(Incongruent(pairs[0].name, pairs[0].costText, pairs[0].sellText, n + 1))
    else
      var r := Congruence(pairs[1..], n);
      assert forall i | 1 <= i < |pairs| :: pairs[i] == pairs[1..][i - 1];
      r
  }

  // ----------------------------------------------------- declarative checks

  /** One validation step of a row builder, independent of how the builder is written. */
  datatype Check =
    | DateCheck(name: FieldName, text: string)
    | NumberCheck(name: FieldName, text: string)
    | SameCheck(name: FieldName, costText: string, sellText: string)

  /** The error one check raises on its own, if any. */
  function Complaint(c: Check, n: nat): Option<RowError> {
    match c
    case DateCheck(name, text) =>
      if text == [] then Some(NotValid(name, Empty, n + 1, text))
      else if ParseDate(text).None? then Some(NotValid(name, Malformed, n + 1, text))
      else None
    case NumberCheck(name, text) =>
      if text == [] then Some(NotValid(name, Empty, n + 1, text))
      else if ParseNumber(text).None? then Some(NotValid(name, Malformed, n + 1, text))
      else None
    case SameCheck(name, a, b) =>
      if a != b then Some(Incongruent(name, a, b, n + 1)) else None
  }

  /** The complaint of the first check in `cs` that fails. */
  function FirstComplaint(cs: seq<Check>, n: nat): (r: Option<RowError>)
    ensures r.None? <==> forall i | 0 <= i < |cs| :: Complaint(cs[i], n).None?
    ensures r.Some? ==>
      exists i | 0 <= i < |cs| ::
        && Complaint(cs[i], n) == r
        && forall j | 0 <= j < i :: Complaint(cs[j], n).None?
  {
    if cs == [] then None
    else if Complaint(cs[0], n).Some? then Complaint(cs[0], n)
    else
      var r := FirstComplaint(cs[1..], n);
      assert forall i | 1 <= i < |cs| :: cs[i] == cs[1..][i - 1];
      r
  }

  /** The checks of the congruence loop, one per pair. */
  function SameChecks(pairs: seq<Pair>): (cs: seq<Check>)
    ensures |cs| == |pairs|
    ensures forall i | 0 <= i < |pairs| ::
      cs[i] == SameCheck(pairs[i].name, pairs[i].costText, pairs[i].sellText)
  {
    if pairs == [] then []
    else [SameCheck(pairs[0].name, pairs[0].costText, pairs[0].sellText)] + SameChecks(pairs[1..])
  }

  /** The first of two possible errors. */
  function Or(x: Option<RowError>, y: Option<RowError>): Option<RowError> {
    if x.Some? then x else y
  }

  /** The error a step raised, if any. */
  function Err<T>(r: Result<T, RowError>): Option<RowError> {
    if r.Failure? then Some(r.error) else None
  }

  /** A failing prefix decides; a passing prefix hands over to the rest. */
  lemma {:induction false} FirstComplaintConcat(a: seq<Check>, b: seq<Check>, n: nat)
    ensures FirstComplaint(a + b, n) == Or(FirstComplaint(a, n), FirstComplaint(b, n))
    decreases |a|
  {
    if a == [] {
      assert a + b == b;
    } else {
      assert (a + b)[1..] == a[1..] + b;
      FirstComplaintConcat(a[1..], b, n);
    }
  }

  /** The first complaint of a list is that of its head, or else the first of its tail. */
  lemma FirstComplaintCons(c: Check, rest: seq<Check>, n: nat)
    ensures FirstComplaint([c] + rest, n) == Or(Complaint(c, n), FirstComplaint(rest, n))
  {
    assert ([c] + rest)[1..] == rest;
  }

  /** The single-check list complains as its check does. */
  lemma FirstComplaintOne(c: Check, n: nat)
    ensures FirstComplaint([c], n) == Complaint(c, n)
  {
    assert [c][1..] == [];
  }

  /** The congruence loop fails exactly when one of its checks complains, with the first complaint. */
  lemma {:induction false} CongruenceIsChecks(pairs: seq<Pair>, n: nat)
    ensures Err(Congruence(pairs, n)) == FirstComplaint(SameChecks(pairs), n)
    decreases |pairs|
  {
    if pairs != [] {
      var cs := SameChecks(pairs);
      assert cs[1..] == SameChecks(pairs[1..]);
      CongruenceIsChecks(pairs[1..], n);
    }
  }
}

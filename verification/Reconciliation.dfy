/** The comparison pass of ReconcileBrokerState. */
module Reconciliation {
  import opened Primitives

  datatype Holding = Holding(symbol: Symbol, quantity: Quantity)

  datatype LocalOrder = LocalOrder(clientId: nat, brokerId: string)

  datatype Funds = Funds(balance: real, equity: real)

  datatype Line =
    | AccountUnreachable
    | BalanceDiverges
    | EquityDiverges
    | PositionsUnreachable
    | PositionMissing(symbol: Symbol)
    | QuantityDiverges(symbol: Symbol, here: Quantity, there: Quantity)
    | OrdersUnreachable
    | OrderMissing(clientId: nat, brokerId: string)

  datatype Report = Report(divergences: nat, critical: bool, details: seq<Line>)

  function Add(r: Report, l: Line): Report { r.(divergences := r.divergences + 1, details := r.details + [l]) }

  function AddCritical(r: Report, l: Line): Report { Add(r, l).(critical := true) }

  /** Relative to the local figure; a zero local figure tolerates nothing. */
  predicate Diverges(here: real, there: real, tolerance: real) {
    if here == 0.0 then Abs(here - there) != 0.0 else Abs(here - there) / Abs(here) > tolerance
  }

  /** Off by more than the tolerance, in either direction, without a division. */
  lemma DivergesIsOutOfBand(here: real, there: real, tolerance: real)
    ensures Diverges(here, there, tolerance) <==>
            if here == 0.0 then there != 0.0 else Abs(here - there) > tolerance * Abs(here)
  {
    if here != 0.0 {
      var ratio := Abs(here - there) / Abs(here);
      assert ratio * Abs(here) == Abs(here - there);
      if ratio > tolerance {
        assert (ratio - tolerance) * Abs(here) > 0.0;
      } else {
        assert (tolerance - ratio) * Abs(here) >= 0.0;
      }
    }
  }

  // ----- what should be reported

  predicate Absent(there: seq<Holding>, s: Symbol) { forall k :: 0 <= k < |there| ==> there[k].symbol != s }

  predicate OutOfTolerance(here: Holding, there: Holding, tolerance: real) {
    there.symbol == here.symbol && Diverges(here.quantity, there.quantity, tolerance)
  }

  function PairLines(here: Holding, there: seq<Holding>, tolerance: real): seq<Line> {
    if there == [] then []
    else
      var last := there[|there| - 1];
      PairLines(here, there[..|there| - 1], tolerance) +
      if OutOfTolerance(here, last, tolerance) then [QuantityDiverges(here.symbol, here.quantity, last.quantity)] else []
  }

  function PositionLines(here: seq<Holding>, there: seq<Holding>, tolerance: real): seq<Line> {
    if here == [] then []
    else
      var last := here[|here| - 1];
      PositionLines(here[..|here| - 1], there, tolerance) +
      if Absent(there, last.symbol) then [PositionMissing(last.symbol)] else PairLines(last, there, tolerance)
  }

  predicate Lost(o: LocalOrder, there: set<string>) { o.brokerId != "" && o.brokerId !in there }

  function OrderLines(here: seq<LocalOrder>, there: set<string>): seq<Line> {
    if here == [] then []
    else
      var last := here[|here| - 1];
      OrderLines(here[..|here| - 1], there) + if Lost(last, there) then [OrderMissing(last.clientId, last.brokerId)] else []
  }

  function FundsLines(here: Funds, there: Funds, tolerance: real): seq<Line> {
    (if Diverges(here.balance, there.balance, tolerance) then [BalanceDiverges] else []) +
    (if Diverges(here.equity, there.equity, tolerance) then [EquityDiverges] else [])
  }

  function IdsOf(orders: seq<string>): set<string> { set k | 0 <= k < |orders| :: orders[k] }

  function PositionPart(here: seq<Holding>, there: Option<seq<Holding>>, tolerance: real): seq<Line> {
    if there.None? then [PositionsUnreachable] else PositionLines(here, there.value, tolerance)
  }

  function OrderPart(here: seq<LocalOrder>, there: Option<seq<string>>): seq<Line> {
    if there.None? then [OrdersUnreachable] else OrderLines(here, IdsOf(there.value))
  }

  /** What both sides answered, in the order they are asked; None is a failed read. */
  datatype Reads = Reads(
    brokerFunds: Option<Funds>,
    funds: Option<Funds>,
    positions: Option<seq<Holding>>,
    brokerPositions: Option<seq<Holding>>,
    orders: Option<seq<LocalOrder>>,
    brokerOrders: Option<seq<string>>)

  /** Every read that ends the pass succeeded: the broker account and the three local ones. */
  predicate Finishes(x: Reads) { x.brokerFunds.Some? && x.funds.Some? && x.positions.Some? && x.orders.Some? }

  /** A local read failed, which the pass reports as an error. */
  predicate Fails(x: Reads) { x.brokerFunds.Some? && (x.funds.None? || x.positions.None? || x.orders.None?) }

  /** The detail lines of a pass, up to the read that ended it. */
  function Expected(x: Reads, tolerance: real): seq<Line> {
    if x.brokerFunds.None? then [AccountUnreachable]
    else if x.funds.None? then []
    else if x.positions.None? then FundsLines(x.funds.value, x.brokerFunds.value, tolerance)
    else
      FundsLines(x.funds.value, x.brokerFunds.value, tolerance)
      + PositionPart(x.positions.value, x.brokerPositions, tolerance)
      + if x.orders.None? then [] else OrderPart(x.orders.value, x.brokerOrders)
  }

  /** The broker answers its positions, but not all the local ones are among them. */
  predicate SomeMissing(here: seq<Holding>, there: seq<Holding>) {
    exists k :: 0 <= k < |here| && Absent(there, here[k].symbol)
  }

  predicate IsCritical(l: Line) {
    l.AccountUnreachable? || l.PositionsUnreachable? || l.PositionMissing? || l.OrdersUnreachable?
  }

  ghost predicate HasCritical(lines: seq<Line>) { exists k :: 0 <= k < |lines| && IsCritical(lines[k]) }

  /** The report carries these lines: counted, and critical exactly when one of them is. */
  ghost predicate Carries(r: Report, lines: seq<Line>) {
    r.details == lines && r.divergences == |lines| && (r.critical <==> HasCritical(lines))
  }

  lemma CriticalAppends(lines: seq<Line>, more: seq<Line>)
    ensures HasCritical(lines + more) <==> HasCritical(lines) || HasCritical(more)
  {
    if HasCritical(lines) {
      var k :| 0 <= k < |lines| && IsCritical(lines[k]);
      assert (lines + more)[k] == lines[k];
    }
    if HasCritical(more) {
      var k :| 0 <= k < |more| && IsCritical(more[k]);
      assert (lines + more)[|lines| + k] == more[k];
    }
  }

  lemma AddCarries(r: Report, lines: seq<Line>, l: Line)
    requires Carries(r, lines)
    ensures Carries(if IsCritical(l) then AddCritical(r, l) else Add(r, l), lines + [l])
  {
    CriticalAppends(lines, [l]);
    assert HasCritical([l]) <==> IsCritical([l][0]);
  }

  // ----- the pass

  method ComparePairs(r: Report, ghost lines: seq<Line>, here: Holding, there: seq<Holding>, tolerance: real)
    returns (r': Report)
    requires Carries(r, lines)
    ensures Carries(r', lines + PairLines(here, there, tolerance))
  {
    r' := r;
    assert lines + [] == lines;
    for k := 0 to |there|
      invariant Carries(r', lines + PairLines(here, there[..k], tolerance))
    {
      assert there[..k + 1][..k] == there[..k];
      ghost var sofar := lines + PairLines(here, there[..k], tolerance);
      if there[k].symbol == here.symbol && Diverges(here.quantity, there[k].quantity, tolerance) {
        var line := QuantityDiverges(here.symbol, here.quantity, there[k].quantity);
        AddCarries(r', sofar, line);
        r' := Add(r', line);
        assert sofar + [line] == lines + PairLines(here, there[..k + 1], tolerance);
      } else {
        assert sofar == lines + PairLines(here, there[..k + 1], tolerance);
      }
    }
    assert there[..|there|] == there;
  }

  method ComparePositions(r: Report, ghost lines: seq<Line>, here: seq<Holding>, there: seq<Holding>, tolerance: real)
    returns (r': Report)
    requires Carries(r, lines)
    ensures Carries(r', lines + PositionLines(here, there, tolerance))
  {
    var known: set<Symbol> := {};
    for k := 0 to |there|
      invariant known == set i | 0 <= i < k :: there[i].symbol
    {
      known := known + {there[k].symbol};
    }
    r' := r;
    assert lines + [] == lines;
    for n := 0 to |here|
      invariant Carries(r', lines + PositionLines(here[..n], there, tolerance))
    {
      assert here[..n + 1][..n] == here[..n];
      ghost var sofar := lines + PositionLines(here[..n], there, tolerance);
      if here[n].symbol !in known {
        assert Absent(there, here[n].symbol);
        AddCarries(r', sofar, PositionMissing(here[n].symbol));
        r' := AddCritical(r', PositionMissing(here[n].symbol));
        assert sofar + [PositionMissing(here[n].symbol)] == lines + PositionLines(here[..n + 1], there, tolerance);
      } else {
        assert !Absent(there, here[n].symbol);
        r' := ComparePairs(r', sofar, here[n], there, tolerance);
        assert sofar + PairLines(here[n], there, tolerance) == lines + PositionLines(here[..n + 1], there, tolerance);
      }
    }
    assert here[..|here|] == here;
  }

  method CompareOrders(r: Report, ghost lines: seq<Line>, here: seq<LocalOrder>, there: seq<string>) returns (r': Report)
    requires Carries(r, lines)
    ensures Carries(r', lines + OrderLines(here, IdsOf(there)))
  {
    var known := IdsOf(there);
    r' := r;
    assert lines + [] == lines;
    for n := 0 to |here|
      invariant Carries(r', lines + OrderLines(here[..n], known))
    {
      assert here[..n + 1][..n] == here[..n];
      ghost var sofar := lines + OrderLines(here[..n], known);
      if here[n].brokerId !in known && here[n].brokerId != "" {
        var line := OrderMissing(here[n].clientId, here[n].brokerId);
        AddCarries(r', sofar, line);
        r' := Add(r', line);
        assert sofar + [line] == lines + OrderLines(here[..n + 1], known);
      } else {
        assert sofar == lines + OrderLines(here[..n + 1], known);
      }
    }
    assert here[..|here|] == here;
  }

  method CompareFunds(here: Funds, there: Funds, tolerance: real) returns (r: Report)
    ensures Carries(r, FundsLines(here, there, tolerance))
  {
    r := Report(0, false, []);
    if Diverges(here.balance, there.balance, tolerance) {
      AddCarries(r, [], BalanceDiverges);
      r := Add(r, BalanceDiverges);
    }
    ghost var sofar := r.details;
    if Diverges(here.equity, there.equity, tolerance) {
      AddCarries(r, sofar, EquityDiverges);
      r := Add(r, EquityDiverges);
    }
    assert r.details == FundsLines(here, there, tolerance);
  }

  method ComparePart(r: Report, ghost lines: seq<Line>, here: seq<Holding>, there: Option<seq<Holding>>, tolerance: real)
    returns (r': Report)
    requires Carries(r, lines)
    ensures Carries(r', lines + PositionPart(here, there, tolerance))
  {
    if there.None? {
      AddCarries(r, lines, PositionsUnreachable);
      r' := AddCritical(r, PositionsUnreachable);
    } else {
      r' := ComparePositions(r, lines, here, there.value, tolerance);
    }
  }

  method CompareOrderPart(r: Report, ghost lines: seq<Line>, here: seq<LocalOrder>, there: Option<seq<string>>)
    returns (r': Report)
    requires Carries(r, lines)
    ensures Carries(r', lines + OrderPart(here, there))
  {
    if there.None? {
      AddCarries(r, lines, OrdersUnreachable);
      r' := AddCritical(r, OrdersUnreachable);
    } else {
      r' := CompareOrders(r, lines, here, there.value);
    }
  }

  /**
   * Execute: the report, whether a local read ends the pass in an error, and whether it goes on to force CLOSE_ONLY. An
   * unreachable broker account is reported as critical but ends the pass before anything is forced; so does a
   * failed local read, however critical the report already is.
   */
  method Reconcile(x: Reads, tolerance: real) returns (r: Report, failed: bool, forces: bool)
    ensures Carries(r, Expected(x, tolerance))
    ensures failed <==> Fails(x)
    ensures forces <==> Finishes(x) && r.critical
    ensures forces <==> Finishes(x) && (x.brokerPositions.None? || x.brokerOrders.None?
                                        || SomeMissing(x.positions.value, x.brokerPositions.value))
  {
    r, failed, forces := Report(0, false, []), false, false;
    if x.brokerFunds.None? {
      r := AddCritical(r, AccountUnreachable);
      assert IsCritical(r.details[0]);
      return;
    }
    if x.funds.None? { return r, true, false; }
    r := CompareFunds(x.funds.value, x.brokerFunds.value, tolerance);
    if x.positions.None? { return r, true, false; }
    ghost var first := FundsLines(x.funds.value, x.brokerFunds.value, tolerance);
    r := ComparePart(r, first, x.positions.value, x.brokerPositions, tolerance);
    ghost var second := first + PositionPart(x.positions.value, x.brokerPositions, tolerance);
    if x.orders.None? {
      assert second + [] == second;
      return r, true, false;
    }
    r := CompareOrderPart(r, second, x.orders.value, x.brokerOrders);
    CriticalExactlyWhen(x, tolerance);
    if r.divergences == 0 { return; }
    forces := r.critical;
  }

  /** A pass with no failed read of its own is critical exactly when the broker does not answer or lacks a position. */
  lemma CriticalExactlyWhen(x: Reads, tolerance: real)
    requires Finishes(x)
    ensures HasCritical(Expected(x, tolerance)) <==>
            x.brokerPositions.None? || x.brokerOrders.None? || SomeMissing(x.positions.value, x.brokerPositions.value)
  {
    var first := FundsLines(x.funds.value, x.brokerFunds.value, tolerance);
    var second := PositionPart(x.positions.value, x.brokerPositions, tolerance);
    var third := OrderPart(x.orders.value, x.brokerOrders);
    CriticalAppends(first, second);
    CriticalAppends(first + second, third);
    assert !HasCritical(first);
    PositionPartIsCritical(x.positions.value, x.brokerPositions, tolerance);
    OrderPartIsCritical(x.orders.value, x.brokerOrders);
  }

  lemma PositionPartIsCritical(here: seq<Holding>, there: Option<seq<Holding>>, tolerance: real)
    ensures HasCritical(PositionPart(here, there, tolerance)) <==> there.None? || SomeMissing(here, there.value)
  {
    if there.None? {
      assert IsCritical(PositionPart(here, there, tolerance)[0]);
    } else {
      PositionLinesCount(here, there.value, tolerance);
    }
  }

  lemma OrderPartIsCritical(here: seq<LocalOrder>, there: Option<seq<string>>)
    ensures HasCritical(OrderPart(here, there)) <==> there.None?
  {
    if there.None? {
      assert IsCritical(OrderPart(here, there)[0]);
    } else {
      OrderLinesCount(here, IdsOf(there.value));
    }
  }

  // ----- the report is exact

  function MissingTotal(here: seq<Holding>, there: seq<Holding>): nat {
    if here == [] then 0 else MissingTotal(here[..|here| - 1], there) + Bit(Absent(there, here[|here| - 1].symbol))
  }

  function PairTotal(here: Holding, there: seq<Holding>, tolerance: real): nat {
    if there == [] then 0
    else PairTotal(here, there[..|there| - 1], tolerance) + Bit(OutOfTolerance(here, there[|there| - 1], tolerance))
  }

  function PairsTotal(here: seq<Holding>, there: seq<Holding>, tolerance: real): nat {
    if here == [] then 0 else PairsTotal(here[..|here| - 1], there, tolerance) + PairTotal(here[|here| - 1], there, tolerance)
  }

  function LostTotal(here: seq<LocalOrder>, there: set<string>): nat {
    if here == [] then 0 else LostTotal(here[..|here| - 1], there) + Bit(Lost(here[|here| - 1], there))
  }

  lemma {:induction false} PairLinesCount(here: Holding, there: seq<Holding>, tolerance: real)
    ensures |PairLines(here, there, tolerance)| == PairTotal(here, there, tolerance)
    ensures !HasCritical(PairLines(here, there, tolerance))
    ensures Absent(there, here.symbol) ==> PairTotal(here, there, tolerance) == 0
  {
    if there != [] {
      PairLinesCount(here, there[..|there| - 1], tolerance);
    }
  }

  lemma {:induction false} PositionLinesCount(here: seq<Holding>, there: seq<Holding>, tolerance: real)
    ensures |PositionLines(here, there, tolerance)| == MissingTotal(here, there) + PairsTotal(here, there, tolerance)
    ensures HasCritical(PositionLines(here, there, tolerance)) <==> SomeMissing(here, there)
  {
    if here != [] {
      var before, last := here[..|here| - 1], here[|here| - 1];
      PositionLinesCount(before, there, tolerance);
      PairLinesCount(last, there, tolerance);
      CriticalAppends(PositionLines(before, there, tolerance),
                      if Absent(there, last.symbol) then [PositionMissing(last.symbol)] else PairLines(last, there, tolerance));
      if Absent(there, last.symbol) {
        assert IsCritical([PositionMissing(last.symbol)][0]);
        assert Absent(there, here[|here| - 1].symbol);
      }
      if k :| 0 <= k < |before| && Absent(there, before[k].symbol) {
        assert Absent(there, here[k].symbol);
      }
      assert forall k :: 0 <= k < |here| - 1 ==> here[k] == before[k];
    }
  }

  lemma {:induction false} OrderLinesCount(here: seq<LocalOrder>, there: set<string>)
    ensures |OrderLines(here, there)| == LostTotal(here, there)
    ensures !HasCritical(OrderLines(here, there))
  {
    if here != [] {
      OrderLinesCount(here[..|here| - 1], there);
    }
  }

  predicate AllReadsSucceed(x: Reads) { Finishes(x) && x.brokerPositions.Some? && x.brokerOrders.Some? }

  /**
   * With every read succeeding, the count is balance + equity mismatches + local positions the broker lacks +
   * same-symbol pairs out of tolerance + acknowledged local orders the broker lacks.
   */
  lemma ReportCountIsExact(r: Report, x: Reads, tolerance: real)
    requires AllReadsSucceed(x) && Carries(r, Expected(x, tolerance))
    ensures r.divergences == |r.details|
    ensures r.divergences == Bit(Diverges(x.funds.value.balance, x.brokerFunds.value.balance, tolerance))
                             + Bit(Diverges(x.funds.value.equity, x.brokerFunds.value.equity, tolerance))
                             + MissingTotal(x.positions.value, x.brokerPositions.value)
                             + PairsTotal(x.positions.value, x.brokerPositions.value, tolerance)
                             + LostTotal(x.orders.value, IdsOf(x.brokerOrders.value))
  {
    PositionLinesCount(x.positions.value, x.brokerPositions.value, tolerance);
    OrderLinesCount(x.orders.value, IdsOf(x.brokerOrders.value));
  }

  /** With every read succeeding, a pass is critical exactly when the broker lacks some local position. */
  lemma CriticalMeansPositionMissing(r: Report, x: Reads, tolerance: real)
    requires AllReadsSucceed(x) && Carries(r, Expected(x, tolerance))
    ensures r.critical <==> SomeMissing(x.positions.value, x.brokerPositions.value)
  {
    CriticalExactlyWhen(x, tolerance);
  }

  /** Critical and yet nothing forced, with the broker account reachable: a position is missing, then the local orders cannot be read. */
  lemma CriticalButNotForced(s: Symbol, q: Quantity, tolerance: real)
    ensures var x := Reads(Some(Funds(1.0, 1.0)), Some(Funds(1.0, 1.0)), Some([Holding(s, q)]), Some([]), None, None);
            HasCritical(Expected(x, tolerance)) && Fails(x) && !Finishes(x)
  {
    var x := Reads(Some(Funds(1.0, 1.0)), Some(Funds(1.0, 1.0)), Some([Holding(s, q)]), Some([]), None, None);
    PositionPartIsCritical(x.positions.value, x.brokerPositions, tolerance);
    assert Absent([], x.positions.value[0].symbol);
    var first := FundsLines(x.funds.value, x.brokerFunds.value, tolerance);
    var second := PositionPart(x.positions.value, x.brokerPositions, tolerance);
    CriticalAppends(first, second);
    assert Expected(x, tolerance) == first + second;
  }

  // ----- what each line says

  lemma {:induction false} PairLineSays(here: Holding, there: seq<Holding>, tolerance: real, l: Line)
    ensures l in PairLines(here, there, tolerance) <==>
            exists k :: 0 <= k < |there| && there[k].symbol == here.symbol
                        && Diverges(here.quantity, there[k].quantity, tolerance)
                        && l == QuantityDiverges(here.symbol, here.quantity, there[k].quantity)
  {
    if there != [] {
      PairLineSays(here, there[..|there| - 1], tolerance, l);
      assert there == there[..|there| - 1] + [there[|there| - 1]];
    }
  }

  /** The line is about this local position: the broker lacks it, or holds it in a quantity out of tolerance. */
  ghost predicate SaysOf(here: Holding, there: seq<Holding>, tolerance: real, l: Line) {
    || (l == PositionMissing(here.symbol) && forall k :: 0 <= k < |there| ==> there[k].symbol != here.symbol)
    || (exists k :: 0 <= k < |there| && there[k].symbol == here.symbol
                    && Diverges(here.quantity, there[k].quantity, tolerance)
                    && l == QuantityDiverges(here.symbol, here.quantity, there[k].quantity))
  }

  lemma {:induction false} PositionLineSays(here: seq<Holding>, there: seq<Holding>, tolerance: real, l: Line)
    ensures l in PositionLines(here, there, tolerance) <==>
            exists n :: 0 <= n < |here| && SaysOf(here[n], there, tolerance, l)
  {
    if here != [] {
      var before, last := here[..|here| - 1], here[|here| - 1];
      PositionLineSays(before, there, tolerance, l);
      PairLineSays(last, there, tolerance, l);
      assert l in PositionLines(here, there, tolerance) <==>
             l in PositionLines(before, there, tolerance) || SaysOf(last, there, tolerance, l);
      assert forall n :: 0 <= n < |before| ==> before[n] == here[n];
      if n :| 0 <= n < |here| && SaysOf(here[n], there, tolerance, l) {
        assert n == |here| - 1 || SaysOf(before[n], there, tolerance, l);
      }
      if n :| 0 <= n < |before| && SaysOf(before[n], there, tolerance, l) {
        assert SaysOf(here[n], there, tolerance, l);
      }
    }
  }

  lemma {:induction false} OrderLineSays(here: seq<LocalOrder>, there: set<string>, l: Line)
    ensures l in OrderLines(here, there) <==>
            exists n :: 0 <= n < |here| && here[n].brokerId != "" && here[n].brokerId !in there
                        && l == OrderMissing(here[n].clientId, here[n].brokerId)
  {
    if here != [] {
      OrderLineSays(here[..|here| - 1], there, l);
      assert here == here[..|here| - 1] + [here[|here| - 1]];
    }
  }

  /** With every read succeeding, a line is reported exactly when what it says is so. */
  lemma ReportSaysWhatIsSo(x: Reads, tolerance: real, l: Line)
    requires AllReadsSucceed(x)
    ensures l in Expected(x, tolerance) <==>
            || (l == BalanceDiverges && Diverges(x.funds.value.balance, x.brokerFunds.value.balance, tolerance))
            || (l == EquityDiverges && Diverges(x.funds.value.equity, x.brokerFunds.value.equity, tolerance))
            || (exists n :: 0 <= n < |x.positions.value|
                            && SaysOf(x.positions.value[n], x.brokerPositions.value, tolerance, l))
            || (exists n :: 0 <= n < |x.orders.value|
                            && x.orders.value[n].brokerId != "" && x.orders.value[n].brokerId !in x.brokerOrders.value
                            && l == OrderMissing(x.orders.value[n].clientId, x.orders.value[n].brokerId))
  {
    var first := FundsLines(x.funds.value, x.brokerFunds.value, tolerance);
    var second := PositionLines(x.positions.value, x.brokerPositions.value, tolerance);
    var third := OrderLines(x.orders.value, IdsOf(x.brokerOrders.value));
    assert Expected(x, tolerance) == first + second + third;
    PositionLineSays(x.positions.value, x.brokerPositions.value, tolerance, l);
    OrderLineSays(x.orders.value, IdsOf(x.brokerOrders.value), l);
    assert forall id :: id in IdsOf(x.brokerOrders.value) <==> id in x.brokerOrders.value;
  }
}

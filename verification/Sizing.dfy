/** Position sizing (internal/domain/risk/position_sizing.go). */
module Sizing {
  import opened Primitives

  type Leverage = r: real | r >= 1.0 witness 1.0

  datatype Input = Input(
    available: real,
    riskPct: real,
    entry: Price,
    stop: Price,
    minQuantity: Quantity,
    step: real,
    minNotional: real,
    maxLeverage: Leverage,
    atr: Option<real>)

  datatype Reason = InsufficientBalance | ZeroStopDistance | RoundsToZero | BelowMinQuantity | BelowMinNotional

  datatype Result = Approved(quantity: Lot) | Rejected(reason: Reason)

  function RoundDownToStep(div: Division, raw: real, step: real): real {
    if step == 0.0 then raw else Steps(div(raw, step).Floor, step)
  }

  function CapByLeverage(div: Division, raw: real, i: Input): real {
    var byLeverage := div(i.available * i.maxLeverage, i.entry);
    if raw > byLeverage then byLeverage else raw
  }

  function Finalize(div: Division, raw: real, i: Input): Result {
    var q := RoundDownToStep(div, raw, i.step);
    if q <= 0.0 then Rejected(RoundsToZero)
    else if q < i.minQuantity then Rejected(BelowMinQuantity)
    else if q * i.entry < i.minNotional then Rejected(BelowMinNotional)
    else Approved(q)
  }

  function SizeAt(div: Division, i: Input, distance: real): Result {
    if i.available <= 0.0 then Rejected(InsufficientBalance)
    else if distance == 0.0 then Rejected(ZeroStopDistance)
    else Finalize(div, CapByLeverage(div, div(i.available * i.riskPct, distance), i), i)
  }

  function StopDistance(i: Input): real { Abs(i.entry - i.stop) }

  /** FixedRiskPositionSizing.Size */
  function FixedRiskSize(div: Division, i: Input): Result { SizeAt(div, i, StopDistance(i)) }

  const DEFAULT_MULTIPLIER := 1.5

  function AtrDistance(i: Input, multiplier: real): real {
    if i.atr.Some? && i.atr.value != 0.0
    then i.atr.value * (if multiplier == 0.0 then DEFAULT_MULTIPLIER else multiplier)
    else StopDistance(i)
  }

  /** ATRPositionSizing.Size */
  function AtrSize(div: Division, i: Input, multiplier: real): Result { SizeAt(div, i, AtrDistance(i, multiplier)) }

  // ----- the declarative optimum

  /**
   * Within the upper bounds: the loss at the stop within the risk budget and the notional within leverage,
   * each widened by `slack` units of the asset. A negative distance flips the sign of both sides.
   */
  ghost predicate WithinBudget(i: Input, distance: real, q: real, slack: real) {
    var sign := if distance < 0.0 then -1.0 else 1.0;
    && (q - slack) * Abs(distance) <= sign * (i.available * i.riskPct)
    && (q - slack) * i.entry <= i.maxLeverage * i.available
  }

  /** At or above the broker's minima. */
  ghost predicate MeetsMinima(i: Input, q: real) { q > 0.0 && q >= i.minQuantity && q * i.entry >= i.minNotional }

  function Steps(k: int, step: real): real { k as real * step }

  ghost predicate IsMultiple(q: real, step: real) { exists k: int :: q == Steps(k, step) }

  /** A zero step leaves every quantity tradable. */
  ghost predicate OnStep(q: real, step: real) { step == 0.0 || IsMultiple(q, step) }

  ghost predicate Feasible(i: Input, distance: real, q: real) {
    OnStep(q, i.step) && WithinBudget(i, distance, q, 0.0) && MeetsMinima(i, q)
  }

  lemma QuotientBound(x: real, budget: real, d: real)
    requires d > 0.0
    ensures x <= budget / d <==> x * d <= budget
  {
    assert budget / d * d == budget;
    if x <= budget / d {
      assert (budget / d - x) * d >= 0.0;
    } else {
      assert (x - budget / d) * d > 0.0;
    }
  }

  lemma NegatedQuotient(a: real, d: real)
    requires d != 0.0
    ensures a / d == (-a) / (-d)
  {
    var x, y := a / d, (-a) / (-d);
    assert x * d == a && y * (-d) == -a;
    assert (x - y) * d == 0.0;
  }

  ghost function ByRisk(i: Input, distance: real): real
    requires distance != 0.0
  {
    i.available * i.riskPct / distance
  }

  ghost function ByLeverage(i: Input): real { i.available * i.maxLeverage / i.entry }

  /** Being within budget is being at most both quotients. */
  lemma BudgetIsQuotients(i: Input, distance: real, q: real, slack: real)
    requires distance != 0.0
    ensures WithinBudget(i, distance, q, slack) <==> q - slack <= ByRisk(i, distance) && q - slack <= ByLeverage(i)
  {
    QuotientBound(q - slack, i.available * i.maxLeverage, i.entry);
    if distance > 0.0 {
      QuotientBound(q - slack, i.available * i.riskPct, distance);
    } else {
      NegatedQuotient(i.available * i.riskPct, distance);
      QuotientBound(q - slack, -(i.available * i.riskPct), -distance);
    }
  }

  /** Rounding down to the step gives the greatest multiple not above `raw`, up to the division error. */
  lemma StepIsGreatest(div: Division, eps: real, raw: real, step: real, k: int)
    requires step > 0.0 && eps >= 0.0 && Rounds(div, eps)
    ensures var q := RoundDownToStep(div, raw, step);
            && IsMultiple(q, step)
            && q <= raw + eps * step
            && (Steps(k, step) <= raw - eps * step ==> Steps(k, step) <= q)
  {
    var ratio, n := div(raw, step), div(raw, step).Floor;
    var exact := raw / step;
    assert exact - eps <= ratio <= exact + eps;
    assert exact * step == raw;
    assert (exact + eps - n as real) * step >= 0.0;
    if Steps(k, step) <= raw - eps * step {
      QuotientBound(k as real + eps, raw, step);
      assert (k as real + eps) * step == Steps(k, step) + eps * step;
      assert k <= n;
      assert (n as real - k as real) * step >= 0.0;
    }
  }

  /** The quantity before stepping. */
  function Raw(div: Division, i: Input, distance: real): real {
    CapByLeverage(div, div(i.available * i.riskPct, distance), i)
  }

  /** It is the smaller quotient, up to the division error. */
  lemma RawIsSmallerQuotient(div: Division, eps: real, i: Input, distance: real)
    requires distance != 0.0 && eps >= 0.0 && Rounds(div, eps)
    ensures Raw(div, i, distance) <= ByRisk(i, distance) + eps && Raw(div, i, distance) <= ByLeverage(i) + eps
    ensures Raw(div, i, distance) >= ByRisk(i, distance) - eps || Raw(div, i, distance) >= ByLeverage(i) - eps
  {
    assert div(i.available * i.riskPct, distance) <= i.available * i.riskPct / distance + eps;
    assert div(i.available * i.maxLeverage, i.entry) <= i.available * i.maxLeverage / i.entry + eps;
  }

  function Stepped(div: Division, i: Input, distance: real): real {
    RoundDownToStep(div, Raw(div, i, distance), i.step)
  }

  /** The stepped quantity decides alone: it is approved exactly when it meets the minima. */
  lemma ApprovalIsMinima(div: Division, i: Input, distance: real)
    requires distance != 0.0 && i.available > 0.0
    ensures SizeAt(div, i, distance).Approved? <==> MeetsMinima(i, Stepped(div, i, distance))
    ensures SizeAt(div, i, distance).Approved? ==> SizeAt(div, i, distance).quantity == Stepped(div, i, distance)
  {
  }

  lemma LargerMeetsMinima(i: Input, q: real, larger: real)
    requires MeetsMinima(i, q) && q <= larger
    ensures MeetsMinima(i, larger)
  {
    assert (larger - q) * i.entry >= 0.0;
  }

  /** How far an approved size may overshoot a bound when each division errs by `eps`. */
  ghost function Slack(i: Input, eps: real): real { eps + eps * i.step }

  lemma SteppedIsBelowQuotients(div: Division, eps: real, i: Input, distance: real)
    requires eps >= 0.0 && Rounds(div, eps) && i.step >= 0.0 && distance != 0.0
    ensures OnStep(Stepped(div, i, distance), i.step)
    ensures Stepped(div, i, distance) - Slack(i, eps) <= ByRisk(i, distance)
    ensures Stepped(div, i, distance) - Slack(i, eps) <= ByLeverage(i)
  {
    RawIsSmallerQuotient(div, eps, i, distance);
    if i.step > 0.0 {
      StepIsGreatest(div, eps, Raw(div, i, distance), i.step, 0);
    }
  }

  lemma SteppedIsWithinBudget(div: Division, eps: real, i: Input, distance: real)
    requires eps >= 0.0 && Rounds(div, eps) && i.step >= 0.0 && distance != 0.0
    ensures OnStep(Stepped(div, i, distance), i.step)
    ensures WithinBudget(i, distance, Stepped(div, i, distance), Slack(i, eps))
  {
    SteppedIsBelowQuotients(div, eps, i, distance);
    BudgetIsQuotients(i, distance, Stepped(div, i, distance), Slack(i, eps));
  }

  lemma StepIsAboveMultiples(div: Division, eps: real, raw: real, byRisk: real, byLeverage: real, step: real, k: int)
    requires step > 0.0 && eps >= 0.0 && Rounds(div, eps)
    requires raw >= byRisk - eps || raw >= byLeverage - eps
    requires Steps(k, step) + (eps + eps * step) <= byRisk && Steps(k, step) + (eps + eps * step) <= byLeverage
    ensures Steps(k, step) <= RoundDownToStep(div, raw, step)
  {
    StepIsGreatest(div, eps, raw, step, k);
  }

  lemma SteppedIsAboveMultiples(div: Division, eps: real, i: Input, distance: real, k: int)
    requires eps >= 0.0 && Rounds(div, eps) && i.step > 0.0 && distance != 0.0
    requires Steps(k, i.step) + Slack(i, eps) <= ByRisk(i, distance)
    requires Steps(k, i.step) + Slack(i, eps) <= ByLeverage(i)
    ensures Steps(k, i.step) <= Stepped(div, i, distance)
  {
    RawIsSmallerQuotient(div, eps, i, distance);
    StepIsAboveMultiples(div, eps, Raw(div, i, distance), ByRisk(i, distance), ByLeverage(i), i.step, k);
  }

  lemma SteppedDominates(div: Division, eps: real, i: Input, distance: real, q: real)
    requires eps >= 0.0 && Rounds(div, eps) && i.step >= 0.0 && distance != 0.0
    requires OnStep(q, i.step) && WithinBudget(i, distance, q, -Slack(i, eps))
    ensures q <= Stepped(div, i, distance)
  {
    BudgetIsQuotients(i, distance, q, -Slack(i, eps));
    if i.step > 0.0 {
      var k: int :| q == Steps(k, i.step);
      SteppedIsAboveMultiples(div, eps, i, distance, k);
    } else {
      RawIsSmallerQuotient(div, eps, i, distance);
    }
  }

  /**
   * With rounded division: an approved size keeps both upper bounds up to the slack and all minima exactly,
   * and no quantity `q` on the step that leaves that slack to both bounds is rejected or beaten.
   */
  lemma SizingWithRounding(div: Division, eps: real, i: Input, distance: real, q: real)
    requires eps >= 0.0 && Rounds(div, eps) && i.step >= 0.0 && distance != 0.0 && i.available > 0.0
    ensures var r := SizeAt(div, i, distance);
            && (r.Approved? ==> OnStep(r.quantity, i.step) && MeetsMinima(i, r.quantity)
                                && WithinBudget(i, distance, r.quantity, Slack(i, eps)))
            && (OnStep(q, i.step) && MeetsMinima(i, q) && WithinBudget(i, distance, q, -Slack(i, eps)) ==>
                  r.Approved? && q <= r.quantity)
  {
    ApprovalIsMinima(div, i, distance);
    SteppedIsWithinBudget(div, eps, i, distance);
    if OnStep(q, i.step) && MeetsMinima(i, q) && WithinBudget(i, distance, q, -Slack(i, eps)) {
      SteppedDominates(div, eps, i, distance, q);
      LargerMeetsMinima(i, q, Stepped(div, i, distance));
    }
  }

  /**
   * With exact division the size is the optimum: approved exactly when some quantity on the step is feasible,
   * and then the largest feasible one.
   */
  lemma SizingIsOptimal(div: Division, i: Input, distance: real)
    requires Rounds(div, 0.0) && i.step >= 0.0 && distance != 0.0 && i.available > 0.0
    ensures var r := SizeAt(div, i, distance);
            && (r.Approved? <==> exists q: real :: Feasible(i, distance, q))
            && (r.Approved? ==> Feasible(i, distance, r.quantity))
            && (r.Approved? ==> forall q: real :: Feasible(i, distance, q) ==> q <= r.quantity)
  {
    var r := SizeAt(div, i, distance);
    SizingWithRounding(div, 0.0, i, distance, 0.0);
    if r.Approved? {
      assert Feasible(i, distance, r.quantity);
    }
    forall q: real | Feasible(i, distance, q)
      ensures r.Approved? && q <= r.quantity
    {
      SizingWithRounding(div, 0.0, i, distance, q);
    }
  }

  ghost predicate LeavesSlack(i: Input, d: real, eps: real, q: real) {
    OnStep(q, i.step) && MeetsMinima(i, q) && WithinBudget(i, d, q, -Slack(i, eps))
  }

  /** A sizer's answer at its own stop distance: within bounds up to the slack, and not beaten by a slack-leaving `q`. */
  ghost predicate NearOptimal(i: Input, d: real, eps: real, r: Result, q: real) {
    && (r.Approved? ==> i.available > 0.0 && d != 0.0 && OnStep(r.quantity, i.step) && MeetsMinima(i, r.quantity)
                        && WithinBudget(i, d, r.quantity, Slack(i, eps)))
    && (i.available > 0.0 && d != 0.0 && LeavesSlack(i, d, eps, q) ==> r.Approved? && q <= r.quantity)
  }

  lemma SizeIsNearOptimal(div: Division, eps: real, i: Input, d: real, q: real)
    requires eps >= 0.0 && Rounds(div, eps) && i.step >= 0.0
    ensures NearOptimal(i, d, eps, SizeAt(div, i, d), q)
  {
    if i.available > 0.0 && d != 0.0 {
      SizingWithRounding(div, eps, i, d, q);
    }
  }

  /** Both strategies are that optimum at their own stop distance; nothing is approved without balance or distance. */
  lemma BothSizersAreOptimal(div: Division, eps: real, i: Input, multiplier: real, q: real)
    requires eps >= 0.0 && Rounds(div, eps) && i.step >= 0.0
    ensures NearOptimal(i, StopDistance(i), eps, FixedRiskSize(div, i), q)
    ensures NearOptimal(i, AtrDistance(i, multiplier), eps, AtrSize(div, i, multiplier), q)
  {
    SizeIsNearOptimal(div, eps, i, StopDistance(i), q);
    SizeIsNearOptimal(div, eps, i, AtrDistance(i, multiplier), q);
  }

  // ----- when a full stop-out loses exactly the risk budget

  /** No feasible size exceeds the quantity that risks the whole budget, so that quantity is approved if it is feasible. */
  lemma WholeBudgetIsApproved(div: Division, i: Input, distance: real)
    requires Rounds(div, 0.0) && i.step >= 0.0 && distance != 0.0 && i.available > 0.0
    ensures var r := SizeAt(div, i, distance);
            && (r.Approved? ==> r.quantity <= ByRisk(i, distance))
            && (r.Approved? && r.quantity == ByRisk(i, distance) <==> Feasible(i, distance, ByRisk(i, distance)))
  {
    var r := SizeAt(div, i, distance);
    SizingIsOptimal(div, i, distance);
    if r.Approved? {
      BudgetIsQuotients(i, distance, r.quantity, 0.0);
    }
  }

  lemma QuotientIsExact(x: real, budget: real, d: real)
    requires d > 0.0
    ensures x == budget / d <==> x * d == budget
  {
    assert budget / d * d == budget;
    if x * d == budget {
      assert (x - budget / d) * d == 0.0;
    }
  }

  /** Being at most, and being, the quotient in terms of the loss at the stop. */
  lemma StopOutOf(r: Result, budget: real, d: real, fits: bool)
    requires d > 0.0
    requires r.Approved? ==> r.quantity <= budget / d
    requires r.Approved? && r.quantity == budget / d <==> fits
    ensures r.Approved? ==> r.quantity * d <= budget
    ensures r.Approved? && r.quantity * d == budget <==> fits
  {
    if r.Approved? {
      QuotientBound(r.quantity, budget, d);
      QuotientIsExact(r.quantity, budget, d);
    }
  }

  /** The loss of a full stop-out exceeds the risk budget by at most what `slack` units lose. */
  ghost predicate LosesWithinBudget(i: Input, d: real, r: Result, slack: real) {
    r.Approved? ==> r.quantity * d <= i.available * i.riskPct + slack * d
  }

  ghost predicate LosesWholeBudget(i: Input, d: real, r: Result) { r.Approved? && r.quantity * d == i.available * i.riskPct }

  lemma StopOutAt(div: Division, i: Input, d: real)
    requires Rounds(div, 0.0) && i.step >= 0.0 && d > 0.0 && i.available > 0.0
    ensures LosesWithinBudget(i, d, SizeAt(div, i, d), 0.0)
    ensures LosesWholeBudget(i, d, SizeAt(div, i, d)) <==> Feasible(i, d, ByRisk(i, d))
  {
    WholeBudgetIsApproved(div, i, d);
    StopOutOf(SizeAt(div, i, d), i.available * i.riskPct, d, Feasible(i, d, ByRisk(i, d)));
  }

  lemma LossIsWithin(i: Input, d: real, q: real, slack: real)
    requires d > 0.0 && WithinBudget(i, d, q, slack)
    ensures q * d <= i.available * i.riskPct + slack * d
  {
    assert (q - slack) * d == q * d - slack * d;
  }

  lemma LossOf(i: Input, d: real, r: Result, slack: real)
    requires d > 0.0 && (r.Approved? ==> WithinBudget(i, d, r.quantity, slack))
    ensures LosesWithinBudget(i, d, r, slack)
  {
    if r.Approved? {
      LossIsWithin(i, d, r.quantity, slack);
    }
  }

  lemma StopOutWithRoundingAt(div: Division, eps: real, i: Input, d: real)
    requires eps >= 0.0 && Rounds(div, eps) && i.step >= 0.0 && d >= 0.0
    ensures LosesWithinBudget(i, d, SizeAt(div, i, d), Slack(i, eps))
  {
    if i.available > 0.0 && d > 0.0 {
      SizingWithRounding(div, eps, i, d, 0.0);
      LossOf(i, d, SizeAt(div, i, d), Slack(i, eps));
    } else {
      assert SizeAt(div, i, d).Rejected?;
    }
  }

  /** Whatever the division rounds, a full stop-out of an approved size loses at most the budget and the slack. */
  lemma StopOutWithRounding(div: Division, eps: real, i: Input)
    requires eps >= 0.0 && Rounds(div, eps) && i.step >= 0.0
    ensures LosesWithinBudget(i, StopDistance(i), FixedRiskSize(div, i), Slack(i, eps))
  {
    StopOutWithRoundingAt(div, eps, i, StopDistance(i));
  }

  /**
   * With exact division a full stop-out of an approved size never loses more than the risk budget, and loses all
   * of it exactly when the quantity that risks it all is on the step, within leverage and above the minima.
   */
  lemma StopOutLosesBudgetExactlyWhen(div: Division, i: Input)
    requires Rounds(div, 0.0) && i.step >= 0.0
    ensures var r, d := FixedRiskSize(div, i), StopDistance(i);
            && LosesWithinBudget(i, d, r, 0.0)
            && (LosesWholeBudget(i, d, r) <==> i.available > 0.0 && d != 0.0 && Feasible(i, d, ByRisk(i, d)))
  {
    var d := StopDistance(i);
    if i.available > 0.0 && d != 0.0 {
      StopOutAt(div, i, d);
    } else {
      assert FixedRiskSize(div, i).Rejected?;
    }
  }

  /** The quantity that risks the whole budget is feasible exactly when step, leverage and minima admit it. */
  lemma WholeBudgetFits(i: Input, distance: real)
    requires distance > 0.0
    ensures var q := i.available * i.riskPct / distance;
            Feasible(i, distance, ByRisk(i, distance)) <==>
            OnStep(q, i.step) && q * i.entry <= i.maxLeverage * i.available && MeetsMinima(i, q)
  {
    var q := ByRisk(i, distance);
    QuotientIsExact(q, i.available * i.riskPct, distance);
    assert q - 0.0 == q;
  }

  /** Risking 1.00 of 100.00 from 100 to 97 by tenths: the size is 0.3, and a stop-out loses 0.90. */
  const LOSES_LESS := Input(100.0, 0.01, 100.0, 97.0, 0.0, 0.1, 0.0, 1.0, None)

  lemma StopOutMayLoseLess(div: Division)
    requires Rounds(div, 0.0)
    ensures var r := FixedRiskSize(div, LOSES_LESS);
            && r == Approved(0.3) && r.quantity * StopDistance(LOSES_LESS) == 0.9
            && LOSES_LESS.available * LOSES_LESS.riskPct == 1.0
  {
    var raw := 1.0 / 3.0;
    assert div(1.0, 3.0) == raw && div(100.0, 100.0) == 1.0;
    assert Raw(div, LOSES_LESS, 3.0) == raw;
    assert div(raw, 0.1) == raw / 0.1 && 3.0 <= raw / 0.1 < 4.0;
    assert div(raw, 0.1).Floor == 3;
  }

  // ----- the distances and the reasons of a rejection

  /** The distance each strategy sizes at: entry to stop, or a given ATR times its multiplier, 1.5 unless set. */
  lemma DistancesAre(i: Input, multiplier: real)
    ensures StopDistance(i) == if i.entry >= i.stop then i.entry - i.stop else i.stop - i.entry
    ensures (i.atr.None? || i.atr == Some(0.0)) ==> AtrDistance(i, multiplier) == StopDistance(i)
    ensures i.atr.Some? && i.atr.value != 0.0 && multiplier != 0.0 ==> AtrDistance(i, multiplier) == i.atr.value * multiplier
    ensures i.atr.Some? && i.atr.value != 0.0 && multiplier == 0.0 ==> AtrDistance(i, multiplier) == i.atr.value * 1.5
  {
  }

  /** With exact division: the largest quantity on the step within both bounds, if any quantity is. */
  ghost predicate LargestWithin(i: Input, d: real, q: real) {
    && OnStep(q, i.step) && WithinBudget(i, d, q, 0.0)
    && forall x: real :: OnStep(x, i.step) && WithinBudget(i, d, x, 0.0) ==> x <= q
  }

  lemma SteppedIsLargest(div: Division, i: Input, d: real)
    requires Rounds(div, 0.0) && i.step >= 0.0 && d != 0.0
    ensures LargestWithin(i, d, Stepped(div, i, d))
  {
    SteppedIsWithinBudget(div, 0.0, i, d);
    forall x: real | OnStep(x, i.step) && WithinBudget(i, d, x, 0.0)
      ensures x <= Stepped(div, i, d)
    {
      SteppedDominates(div, 0.0, i, d, x);
    }
  }

  /** Each rejection names the first thing that stands in the way of the largest quantity within both bounds. */
  lemma RejectionReasons(div: Division, i: Input, d: real, q: real)
    requires Rounds(div, 0.0) && i.step >= 0.0 && (d != 0.0 ==> LargestWithin(i, d, q))
    ensures var r := SizeAt(div, i, d);
            && (r == Rejected(InsufficientBalance) <==> i.available <= 0.0)
            && (r == Rejected(ZeroStopDistance) <==> i.available > 0.0 && d == 0.0)
            && (i.available > 0.0 && d != 0.0 ==>
                  && (r == Rejected(RoundsToZero) <==> q <= 0.0)
                  && (r == Rejected(BelowMinQuantity) <==> 0.0 < q < i.minQuantity)
                  && (r == Rejected(BelowMinNotional) <==> 0.0 < q && i.minQuantity <= q && q * i.entry < i.minNotional)
                  && (r.Approved? ==> r.quantity == q))
  {
    if d != 0.0 {
      SteppedIsLargest(div, i, d);
      assert q == Stepped(div, i, d);
    }
  }
}

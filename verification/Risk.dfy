/** The twelve rules, the composite policy and the recorded decision (internal/domain/risk, evaluate_risk.go). */
module Risk {
  import opened Primitives
  import opened Operation
  import opened Accounts
  import Sizing

  datatype Signal = Signal(symbol: Symbol, side: Side, entry: Price, stop: Price, createdAt: int, validUntil: int)

  datatype MarketEvent = MarketEvent(severityCritical: bool, blocksEntries: bool, killSwitch: bool,
                                     affected: set<Symbol>, expiresAt: int)

  datatype Thresholds = Thresholds(
    perTradePct: real,
    maxDailyLossPct: real,
    maxWeeklyLossPct: real,
    maxDrawdown: real,
    maxOpenPositions: int,
    maxLeverage: Sizing.Leverage,
    maxSignalAge: int,
    maxMarketDataAge: int,
    maxSlippage: real)

  datatype Context = Context(
    now: int,
    account: Account,
    openPositions: nat,
    signal: Option<Signal>,
    events: seq<MarketEvent>,
    marketDataAge: int,
    brokerHealthy: bool,
    expectedFill: Price,
    requestedLeverage: Sizing.Leverage,
    limits: Thresholds)

  datatype Rule =
    | BrokerHealthy
    | MarketDataFresh
    | SignalNotExpired
    | ValidStop
    | NoCriticalEvent
    | MaxDrawdown
    | MaxDailyLoss
    | MaxWeeklyLoss
    | MaxOpenPositions
    | MaxLeverage
    | SufficientBalance
    | MaximumSlippage

  const DEFAULT_POLICY: seq<Rule> := [
    BrokerHealthy, MarketDataFresh, SignalNotExpired, ValidStop, NoCriticalEvent, MaxDrawdown,
    MaxDailyLoss, MaxWeeklyLoss, MaxOpenPositions, MaxLeverage, SufficientBalance, MaximumSlippage]

  datatype Code =
    | BrokerUnhealthy
    | MarketDataStale
    | SignalExpired
    | InvalidStop
    | CriticalEventActive
    | MaxDrawdownReached
    | MaxDailyLossReached
    | MaxWeeklyLossReached
    | MaxOpenPositionsReached
    | MaxLeverageExceeded
    | InsufficientBalance
    | MaxSlippageExceeded
    | OperationalModeBlocksEntry

  function CodeOf(r: Rule): Code {
    match r
    case BrokerHealthy => BrokerUnhealthy
    case MarketDataFresh => MarketDataStale
    case SignalNotExpired => SignalExpired
    case ValidStop => InvalidStop
    case NoCriticalEvent => CriticalEventActive
    case MaxDrawdown => MaxDrawdownReached
    case MaxDailyLoss => MaxDailyLossReached
    case MaxWeeklyLoss => MaxWeeklyLossReached
    case MaxOpenPositions => MaxOpenPositionsReached
    case MaxLeverage => MaxLeverageExceeded
    case SufficientBalance => InsufficientBalance
    case MaximumSlippage => MaxSlippageExceeded
  }

  predicate IsCritical(e: MarketEvent) { e.severityCritical || e.blocksEntries || e.killSwitch }

  predicate LossReached(pnl: real, pct: real, balance: real) { pnl < 0.0 && -pnl >= balance * pct }

  predicate Violated(r: Rule, c: Context) {
    match r
    case BrokerHealthy => !c.brokerHealthy
    case MarketDataFresh => c.marketDataAge > c.limits.maxMarketDataAge
    case SignalNotExpired =>
      c.signal.None? || c.now > c.signal.value.validUntil || c.now - c.signal.value.createdAt > c.limits.maxSignalAge
    case ValidStop => c.signal.None? || c.signal.value.stop == c.signal.value.entry
    case NoCriticalEvent =>
      c.signal.Some? &&
      exists k :: 0 <= k < |c.events| && IsCritical(c.events[k]) && c.signal.value.symbol in c.events[k].affected
                  && c.now <= c.events[k].expiresAt
    case MaxDrawdown => c.account.drawdown >= c.limits.maxDrawdown
    case MaxDailyLoss => LossReached(c.account.daily, c.limits.maxDailyLossPct, c.account.balance)
    case MaxWeeklyLoss => LossReached(c.account.weekly, c.limits.maxWeeklyLossPct, c.account.balance)
    case MaxOpenPositions => c.openPositions >= c.limits.maxOpenPositions
    case MaxLeverage => c.requestedLeverage > c.limits.maxLeverage
    case SufficientBalance => c.account.available <= 0.0
    case MaximumSlippage =>
      c.signal.None? || Abs(c.signal.value.entry - c.expectedFill) / c.signal.value.entry > c.limits.maxSlippage
  }

  datatype Evaluation = Evaluation(allowed: bool, reasons: seq<Code>, applied: seq<Rule>)

  /** Tells whether a rule is violated; the policy itself does not know the rules it combines. */
  type Check = Rule -> bool

  function CheckOf(c: Context): Check { (r: Rule) => Violated(r, c) }

  /** The codes of the violated rules, in policy order. */
  function ViolatedCodes(policy: seq<Rule>, violated: Check): seq<Code> {
    if policy == [] then []
    else
      var before, last := policy[..|policy| - 1], policy[|policy| - 1];
      ViolatedCodes(before, violated) + if violated(last) then [CodeOf(last)] else []
  }

  lemma {:induction false} NoCodesWhenNoneViolated(policy: seq<Rule>, violated: Check)
    ensures ViolatedCodes(policy, violated) == [] <==> forall r :: r in policy ==> !violated(r)
  {
    if policy != [] {
      var before, last := policy[..|policy| - 1], policy[|policy| - 1];
      NoCodesWhenNoneViolated(before, violated);
      assert policy == before + [last];
    }
  }

  ghost predicate Increasing(at: seq<nat>) { forall j, k :: 0 <= j < k < |at| ==> at[j] < at[k] }

  ghost predicate AtViolations(policy: seq<Rule>, violated: Check, at: seq<nat>) {
    forall k :: 0 <= k < |at| ==> at[k] < |policy| && violated(policy[at[k]])
  }

  /** As many places as there are violated rules, in increasing order, each that of a violated rule: so, exactly theirs. */
  ghost predicate Places(policy: seq<Rule>, violated: Check, at: seq<nat>) {
    |at| == CountIf(policy, violated) && Increasing(at) && AtViolations(policy, violated, at)
  }

  ghost function PlacesWith(before: seq<Rule>, last: Rule, violated: Check, at: seq<nat>): seq<nat> {
    if violated(last) then at + [|before|] else at
  }

  lemma IncreasingExtends(before: seq<Rule>, violated: Check, at: seq<nat>)
    requires Increasing(at) && AtViolations(before, violated, at)
    ensures Increasing(at + [|before|])
  {
    var after := at + [|before|];
    forall j, k | 0 <= j < k < |after|
      ensures after[j] < after[k]
    {
      assert after[j] == at[j];
    }
  }

  lemma ViolationsExtend(before: seq<Rule>, last: Rule, violated: Check, at: seq<nat>)
    requires AtViolations(before, violated, at)
    ensures AtViolations(before + [last], violated, PlacesWith(before, last, violated, at))
  {
    var policy, after := before + [last], PlacesWith(before, last, violated, at);
    forall k | 0 <= k < |after|
      ensures after[k] < |policy| && violated(policy[after[k]])
    {
      if k < |at| {
        assert after[k] == at[k] && policy[at[k]] == before[at[k]];
      }
    }
  }

  lemma PlacesExtend(before: seq<Rule>, last: Rule, violated: Check, at: seq<nat>)
    requires Places(before, violated, at)
    ensures Places(before + [last], violated, PlacesWith(before, last, violated, at))
  {
    IncreasingExtends(before, violated, at);
    ViolationsExtend(before, last, violated, at);
    CountAppend(before, last, violated);
  }

  /** The k-th code is that of the rule at the k-th place. */
  ghost predicate CodesAt(policy: seq<Rule>, codes: seq<Code>, at: seq<nat>) {
    |codes| == |at| && forall k :: 0 <= k < |at| ==> at[k] < |policy| && codes[k] == CodeOf(policy[at[k]])
  }

  lemma CodesExtend(before: seq<Rule>, last: Rule, codes: seq<Code>, at: seq<nat>)
    requires CodesAt(before, codes, at)
    ensures CodesAt(before + [last], codes, at)
    ensures CodesAt(before + [last], codes + [CodeOf(last)], at + [|before|])
  {
  }

  lemma CodesWith(before: seq<Rule>, last: Rule, violated: Check, at: seq<nat>)
    requires CodesAt(before, ViolatedCodes(before, violated), at)
    ensures CodesAt(before + [last], ViolatedCodes(before + [last], violated), PlacesWith(before, last, violated, at))
  {
    assert (before + [last])[..|before|] == before;
    var codes := ViolatedCodes(before, violated);
    CodesExtend(before, last, codes, at);
    assert codes + [] == codes;
  }

  /** The reported codes, one by one, are those of the rules at these places: policy order, none lost, none made up. */
  lemma {:induction false} CodesFollowThePolicy(policy: seq<Rule>, violated: Check) returns (at: seq<nat>)
    ensures Places(policy, violated, at) && CodesAt(policy, ViolatedCodes(policy, violated), at)
  {
    if policy == [] {
      at := [];
    } else {
      var before, last := policy[..|policy| - 1], policy[|policy| - 1];
      var earlier := CodesFollowThePolicy(before, violated);
      PlacesExtend(before, last, violated, earlier);
      CodesWith(before, last, violated, earlier);
      at := PlacesWith(before, last, violated, earlier);
      assert policy == before + [last];
    }
  }

  lemma OneMoreRule(policy: seq<Rule>, violated: Check, n: nat)
    requires n < |policy|
    ensures ViolatedCodes(policy[..n + 1], violated)
         == ViolatedCodes(policy[..n], violated) + if violated(policy[n]) then [CodeOf(policy[n])] else []
  {
    assert policy[..n + 1][..n] == policy[..n];
  }

  /** CompositeRiskPolicy.Evaluate: every rule runs, nothing short-circuits. */
  method Evaluate(policy: seq<Rule>, violated: Check) returns (e: Evaluation)
    ensures e.allowed <==> forall r :: r in policy ==> !violated(r)
    ensures e.reasons == ViolatedCodes(policy, violated)
    ensures e.applied == policy
  {
    e := Evaluation(true, [], []);
    for n := 0 to |policy|
      invariant e.applied == policy[..n]
      invariant e.reasons == ViolatedCodes(policy[..n], violated)
      invariant e.allowed <==> e.reasons == []
    {
      OneMoreRule(policy, violated, n);
      e := e.(applied := e.applied + [policy[n]]);
      if violated(policy[n]) {
        e := e.(allowed := false, reasons := e.reasons + [CodeOf(policy[n])]);
      }
    }
    assert policy[..|policy|] == policy;
    NoCodesWhenNoneViolated(policy, violated);
  }

  datatype Decision = Decision(allowed: bool, originalSize: Quantity, approvedSize: Quantity, reasons: seq<Code>)

  /** NewDecision */
  function NewDecision(e: Evaluation, originalSize: Quantity, sizing: Option<Lot>): Decision {
    var allowed := e.allowed && sizing.Some?;
    Decision(allowed, originalSize, if allowed then sizing.value else 0.0,
             e.reasons + if sizing.None? then [InsufficientBalance] else [])
  }

  datatype TradingRules = TradingRules(minQuantity: Quantity, step: real, minNotional: real)

  function ContextFor(now: int, account: Account, openPositions: nat, signal: Signal, events: seq<MarketEvent>,
                      brokerHealthy: bool, price: Price, limits: Thresholds): Context {
    Context(now, account, openPositions, Some(signal), events, now - signal.createdAt, brokerHealthy, price,
            limits.maxLeverage, limits)
  }

  function SizingFor(c: Context, s: Signal, rules: TradingRules): Sizing.Input {
    Sizing.Input(c.account.available, c.limits.perTradePct, s.entry, s.stop, rules.minQuantity, rules.step,
                 rules.minNotional, c.limits.maxLeverage, None)
  }

  /** EvaluateRisk.Execute from the mode gate to the recorded decision. */
  method EvaluateRisk(div: Division, now: int, account: Account, openPositions: nat, signal: Signal,
                      events: seq<MarketEvent>, brokerHealthy: bool, price: Price, limits: Thresholds, rules: TradingRules)
    returns (d: Decision)
    ensures d == Decide(div, ContextFor(now, account, openPositions, signal, events, brokerHealthy, price, limits),
                        signal, rules)
  {
    var c := ContextFor(now, account, openPositions, signal, events, brokerHealthy, price, limits);
    var evaluation;
    if !AllowsNewEntries(account.mode) {
      evaluation := Evaluation(false, [OperationalModeBlocksEntry], []);
    } else {
      evaluation := Evaluate(DEFAULT_POLICY, CheckOf(c));
    }
    var sizing: Option<Lot> := None;
    if evaluation.allowed {
      var size := Sizing.FixedRiskSize(div, SizingFor(c, signal, rules));
      if size.Approved? { sizing := Some(size.quantity); }
    }
    var originalSize: Quantity := 0.0;
    if sizing.Some? { originalSize := sizing.value; }
    d := NewDecision(evaluation, originalSize, sizing);
    NoCodesWhenNoneViolated(DEFAULT_POLICY, CheckOf(c));
  }

  /** The code of the mode gate, or those of the violated rules in policy order. */
  function VetoCodes(c: Context): seq<Code> {
    if AllowsNewEntries(c.account.mode) then ViolatedCodes(DEFAULT_POLICY, CheckOf(c)) else [OperationalModeBlocksEntry]
  }

  /** What a decision should be: the gate, the policy and the sizing each have a veto, and each veto leaves its code. */
  ghost function Decide(div: Division, c: Context, s: Signal, rules: TradingRules): Decision {
    var size := Sizing.FixedRiskSize(div, SizingFor(c, s, rules));
    var codes := VetoCodes(c);
    if codes == [] && size.Approved? then Decision(true, size.quantity, size.quantity, [])
    else Decision(false, 0.0, 0.0, codes + [InsufficientBalance])
  }

  /**
   * A decision allows exactly when the mode permits entries, all twelve rules hold and sizing approves;
   * that is when there are no reasons, and when a positive size is approved. Every approved size keeps the
   * risk and leverage bounds up to the slack of the division, and exactly at eps = 0.
   */
  lemma DecisionCharacterised(div: Division, eps: real, c: Context, s: Signal, rules: TradingRules)
    requires c.signal == Some(s)
    ensures var d, i := Decide(div, c, s, rules), SizingFor(c, s, rules);
            && (d.allowed <==> && AllowsNewEntries(c.account.mode)
                               && (forall r :: r in DEFAULT_POLICY ==> !Violated(r, c))
                               && Sizing.FixedRiskSize(div, i).Approved?)
            && (d.allowed <==> d.reasons == [])
            && (d.allowed <==> d.approvedSize > 0.0)
            && (!d.allowed ==> d.reasons == VetoCodes(c) + [InsufficientBalance])
            && (d.allowed && eps >= 0.0 && Rounds(div, eps) && rules.step >= 0.0 ==>
                  && Sizing.WithinBudget(i, Sizing.StopDistance(i), d.approvedSize, Sizing.Slack(i, eps))
                  && Sizing.MeetsMinima(i, d.approvedSize)
                  && Sizing.OnStep(d.approvedSize, rules.step))
  {
    NoCodesWhenNoneViolated(DEFAULT_POLICY, CheckOf(c));
    var d, i := Decide(div, c, s, rules), SizingFor(c, s, rules);
    if d.allowed && eps >= 0.0 && Rounds(div, eps) && rules.step >= 0.0 {
      Sizing.SizingWithRounding(div, eps, i, Sizing.StopDistance(i), 0.0);
    }
  }

  // ----- the rules written out

  /** One thing that may be wrong, and the code that says so. */
  datatype Finding = Finding(fails: bool, code: Code)

  /** The codes of what fails, in order. */
  function Report(findings: seq<Finding>): seq<Code> {
    if findings == [] then []
    else
      var last := findings[|findings| - 1];
      Report(findings[..|findings| - 1]) + if last.fails then [last.code] else []
  }

  lemma {:induction false} NothingReported(findings: seq<Finding>)
    ensures Report(findings) == [] <==> forall k :: 0 <= k < |findings| ==> !findings[k].fails
  {
    if findings != [] {
      NothingReported(findings[..|findings| - 1]);
    }
  }

  /** A policy reports what its rules find. */
  lemma {:induction false} PolicyReports(policy: seq<Rule>, v: Check, findings: seq<Finding>)
    requires |findings| == |policy|
    requires forall k :: 0 <= k < |policy| ==> findings[k] == Finding(v(policy[k]), CodeOf(policy[k]))
    ensures ViolatedCodes(policy, v) == Report(findings)
  {
    if policy != [] {
      PolicyReports(policy[..|policy| - 1], v, findings[..|policy| - 1]);
    }
  }

  /** A loss that uses up the given share of the balance. */
  predicate LossAtLimit(pnl: real, pct: real, balance: real) { pnl < 0.0 && pnl + pct * balance <= 0.0 }

  /** The price is further from the entry than the given share of it. */
  predicate SlippedTooFar(entry: Price, fill: Price, limit: real) { Abs(entry - fill) > limit * entry }

  lemma LossWrittenOut(pnl: real, pct: real, balance: real)
    ensures LossReached(pnl, pct, balance) <==> LossAtLimit(pnl, pct, balance)
  {
  }

  lemma SlippageWrittenOut(entry: Price, fill: Price, limit: real)
    ensures Abs(entry - fill) / entry > limit <==> SlippedTooFar(entry, fill, limit)
  {
    var ratio := Abs(entry - fill) / entry;
    assert ratio * entry == Abs(entry - fill);
    if ratio > limit {
      assert (ratio - limit) * entry > 0.0;
    } else {
      ProductIsNonNegative(limit - ratio, entry);
    }
  }

  /** A live event on the symbol that is critical, blocks entries or calls for the kill switch. */
  predicate CriticalNow(now: int, symbol: Symbol, events: seq<MarketEvent>) {
    exists k :: 0 <= k < |events| && symbol in events[k].affected && now <= events[k].expiresAt
                && (events[k].severityCritical || events[k].blocksEntries || events[k].killSwitch)
  }

  /** When each rule is violated by an evaluation with a signal. */
  lemma RulesWrittenOut(c: Context, s: Signal)
    requires c.signal == Some(s)
    ensures Violated(BrokerHealthy, c) <==> !c.brokerHealthy
    ensures Violated(MarketDataFresh, c) <==> c.marketDataAge > c.limits.maxMarketDataAge
    ensures Violated(SignalNotExpired, c) <==> c.now > s.validUntil || c.now - s.createdAt > c.limits.maxSignalAge
    ensures Violated(ValidStop, c) <==> s.stop == s.entry
    ensures Violated(NoCriticalEvent, c) <==> CriticalNow(c.now, s.symbol, c.events)
    ensures Violated(MaxDrawdown, c) <==> c.account.drawdown >= c.limits.maxDrawdown
    ensures Violated(MaxDailyLoss, c) <==> LossAtLimit(c.account.daily, c.limits.maxDailyLossPct, c.account.balance)
    ensures Violated(MaxWeeklyLoss, c) <==> LossAtLimit(c.account.weekly, c.limits.maxWeeklyLossPct, c.account.balance)
    ensures Violated(MaxOpenPositions, c) <==> c.openPositions >= c.limits.maxOpenPositions
    ensures Violated(MaxLeverage, c) <==> c.requestedLeverage > c.limits.maxLeverage
    ensures Violated(SufficientBalance, c) <==> c.account.available <= 0.0
    ensures Violated(MaximumSlippage, c) <==> SlippedTooFar(s.entry, c.expectedFill, c.limits.maxSlippage)
  {
    LossWrittenOut(c.account.daily, c.limits.maxDailyLossPct, c.account.balance);
    LossWrittenOut(c.account.weekly, c.limits.maxWeeklyLossPct, c.account.balance);
    SlippageWrittenOut(s.entry, c.expectedFill, c.limits.maxSlippage);
    EventsWrittenOut(c, s);
  }

  lemma EventsWrittenOut(c: Context, s: Signal)
    requires c.signal == Some(s)
    ensures Violated(NoCriticalEvent, c) <==> CriticalNow(c.now, s.symbol, c.events)
  {
    if Violated(NoCriticalEvent, c) {
      var k :| 0 <= k < |c.events| && IsCritical(c.events[k]) && s.symbol in c.events[k].affected
               && c.now <= c.events[k].expiresAt;
      assert CriticalNow(c.now, s.symbol, c.events);
    }
    if CriticalNow(c.now, s.symbol, c.events) {
      var k :| 0 <= k < |c.events| && s.symbol in c.events[k].affected && c.now <= c.events[k].expiresAt
               && (c.events[k].severityCritical || c.events[k].blocksEntries || c.events[k].killSwitch);
      assert IsCritical(c.events[k]);
    }
  }

  /** Without a signal there is none to be live, stopped or close to the market; the other rules do not care. */
  lemma RulesWithoutSignal(c: Context)
    requires c.signal.None?
    ensures Violated(SignalNotExpired, c) && Violated(ValidStop, c) && Violated(MaximumSlippage, c)
    ensures !Violated(NoCriticalEvent, c)
  {
  }

  /** The twelve findings in the order they are reported, each with its code. */
  function Listed(broker: bool, data: bool, signal: bool, stop: bool, event: bool, drawdown: bool, daily: bool,
                  weekly: bool, positions: bool, leverage: bool, balance: bool, slippage: bool): seq<Finding> {
    [ Finding(broker, BrokerUnhealthy), Finding(data, MarketDataStale), Finding(signal, SignalExpired),
      Finding(stop, InvalidStop), Finding(event, CriticalEventActive), Finding(drawdown, MaxDrawdownReached),
      Finding(daily, MaxDailyLossReached), Finding(weekly, MaxWeeklyLossReached),
      Finding(positions, MaxOpenPositionsReached), Finding(leverage, MaxLeverageExceeded),
      Finding(balance, InsufficientBalance), Finding(slippage, MaxSlippageExceeded) ]
  }

  function ListedFor(v: Check): seq<Finding> {
    Listed(v(BrokerHealthy), v(MarketDataFresh), v(SignalNotExpired), v(ValidStop), v(NoCriticalEvent), v(MaxDrawdown),
           v(MaxDailyLoss), v(MaxWeeklyLoss), v(MaxOpenPositions), v(MaxLeverage), v(SufficientBalance), v(MaximumSlippage))
  }

  lemma PolicyOrder(k: nat)
    requires k < |DEFAULT_POLICY|
    ensures k < 12
    ensures DEFAULT_POLICY[k] ==
            if k < 6 then
              if k < 3 then if k == 0 then BrokerHealthy else if k == 1 then MarketDataFresh else SignalNotExpired
              else if k == 3 then ValidStop else if k == 4 then NoCriticalEvent else MaxDrawdown
            else
              if k < 9 then if k == 6 then MaxDailyLoss else if k == 7 then MaxWeeklyLoss else MaxOpenPositions
              else if k == 9 then MaxLeverage else if k == 10 then SufficientBalance else MaximumSlippage
  {
  }

  /** Rule by rule, the default policy finds what is listed. */
  lemma ListedIsThePolicys(v: Check, k: nat)
    requires k < |DEFAULT_POLICY|
    ensures k < |ListedFor(v)| && ListedFor(v)[k] == Finding(v(DEFAULT_POLICY[k]), CodeOf(DEFAULT_POLICY[k]))
  {
    PolicyOrder(k);
  }

  lemma DefaultPolicyReports(v: Check)
    ensures ViolatedCodes(DEFAULT_POLICY, v) == Report(ListedFor(v))
  {
    forall k | 0 <= k < |DEFAULT_POLICY|
      ensures k < |ListedFor(v)| && ListedFor(v)[k] == Finding(v(DEFAULT_POLICY[k]), CodeOf(DEFAULT_POLICY[k]))
    {
      ListedIsThePolicys(v, k);
    }
    PolicyReports(DEFAULT_POLICY, v, ListedFor(v));
  }

  /** What the twelve rules look at. */
  ghost function Findings(c: Context, s: Signal): seq<Finding> {
    Listed(!c.brokerHealthy,
           c.marketDataAge > c.limits.maxMarketDataAge,
           c.now > s.validUntil || c.now - s.createdAt > c.limits.maxSignalAge,
           s.stop == s.entry,
           CriticalNow(c.now, s.symbol, c.events),
           c.account.drawdown >= c.limits.maxDrawdown,
           LossAtLimit(c.account.daily, c.limits.maxDailyLossPct, c.account.balance),
           LossAtLimit(c.account.weekly, c.limits.maxWeeklyLossPct, c.account.balance),
           c.openPositions >= c.limits.maxOpenPositions,
           c.requestedLeverage > c.limits.maxLeverage,
           c.account.available <= 0.0,
           SlippedTooFar(s.entry, c.expectedFill, c.limits.maxSlippage))
  }

  /** Evaluated on a signal, the default policy reports exactly these findings, in this order. */
  lemma PolicyWrittenOut(c: Context, s: Signal)
    requires c.signal == Some(s)
    ensures ViolatedCodes(DEFAULT_POLICY, CheckOf(c)) == Report(Findings(c, s))
  {
    DefaultPolicyReports(CheckOf(c));
    RulesWrittenOut(c, s);
  }

  /** None of it fails. */
  ghost predicate AllClear(c: Context, s: Signal) {
    && c.brokerHealthy
    && c.marketDataAge <= c.limits.maxMarketDataAge
    && c.now <= s.validUntil && c.now - s.createdAt <= c.limits.maxSignalAge
    && s.stop != s.entry
    && !CriticalNow(c.now, s.symbol, c.events)
    && c.account.drawdown < c.limits.maxDrawdown
    && !LossAtLimit(c.account.daily, c.limits.maxDailyLossPct, c.account.balance)
    && !LossAtLimit(c.account.weekly, c.limits.maxWeeklyLossPct, c.account.balance)
    && c.openPositions < c.limits.maxOpenPositions
    && c.requestedLeverage <= c.limits.maxLeverage
    && c.account.available > 0.0
    && !SlippedTooFar(s.entry, c.expectedFill, c.limits.maxSlippage)
  }

  lemma NoFindingsExactlyWhen(c: Context, s: Signal)
    ensures Report(Findings(c, s)) == [] <==> AllClear(c, s)
  {
    var f := Findings(c, s);
    NothingReported(f);
    assert (forall k :: 0 <= k < 12 ==> !f[k].fails) ==>
      !f[0].fails && !f[1].fails && !f[2].fails && !f[3].fails && !f[4].fails && !f[5].fails
      && !f[6].fails && !f[7].fails && !f[8].fails && !f[9].fails && !f[10].fails && !f[11].fails;
  }

  /** The decision in terms of what is evaluated and what is sized. */
  ghost predicate WrittenOut(d: Decision, c: Context, s: Signal, size: Sizing.Result) {
    var open := c.account.mode in {Paper, Testnet, Real};
    && (d.allowed <==> open && AllClear(c, s) && size.Approved?)
    && (d.allowed ==> d == Decision(true, size.quantity, size.quantity, []))
    && (!d.allowed ==>
          d == Decision(false, 0.0, 0.0,
                        (if open then Report(Findings(c, s)) else [OperationalModeBlocksEntry]) + [InsufficientBalance]))
  }

  lemma DecideWrittenOut(div: Division, c: Context, s: Signal, rules: TradingRules)
    requires c.signal == Some(s)
    ensures WrittenOut(Decide(div, c, s, rules), c, s, Sizing.FixedRiskSize(div, SizingFor(c, s, rules)))
  {
    PolicyWrittenOut(c, s);
    NoFindingsExactlyWhen(c, s);
  }

  /**
   * The recorded decision from the inputs of the evaluation alone. It allows exactly when the mode permits
   * entries, nothing the twelve rules look at fails and sizing approves, and then for the size sized; otherwise
   * its reasons are the mode code, or the codes of what fails in order, and INSUFFICIENT_BALANCE.
   */
  lemma EvaluationWrittenOut(div: Division, now: int, account: Account, openPositions: nat, s: Signal,
                             events: seq<MarketEvent>, brokerHealthy: bool, price: Price, limits: Thresholds,
                             rules: TradingRules)
    ensures WrittenOut(Decide(div, ContextFor(now, account, openPositions, s, events, brokerHealthy, price, limits), s, rules),
                       Context(now, account, openPositions, Some(s), events, now - s.createdAt, brokerHealthy, price,
                               limits.maxLeverage, limits),
                       s,
                       Sizing.FixedRiskSize(div, Sizing.Input(account.available, limits.perTradePct, s.entry, s.stop,
                                                              rules.minQuantity, rules.step, rules.minNotional,
                                                              limits.maxLeverage, None)))
  {
    DecideWrittenOut(div, ContextFor(now, account, openPositions, s, events, brokerHealthy, price, limits), s, rules);
  }

  /** Whatever fails in a permitting mode has its own code among the reasons. */
  lemma {:induction false} FailureIsReported(findings: seq<Finding>, code: Code)
    ensures code in Report(findings) <==> exists k :: 0 <= k < |findings| && findings[k] == Finding(true, code)
  {
    if findings != [] {
      var n := |findings| - 1;
      FailureIsReported(findings[..n], code);
      if k :| 0 <= k < n && findings[..n][k] == Finding(true, code) {
        assert findings[k] == Finding(true, code);
      }
      if k :| 0 <= k <= n && findings[k] == Finding(true, code) {
        assert k == n || findings[..n][k] == Finding(true, code);
      }
    }
  }
}

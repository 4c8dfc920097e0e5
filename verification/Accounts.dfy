/** The account ledger (internal/domain/account) and its drawdown (internal/domain/shared/drawdown.go). */
module Accounts {
  import opened Primitives
  import opened Operation

  datatype Account = Account(
    balance: real,
    equity: real,
    available: real,
    peak: real,
    daily: real,
    weekly: real,
    drawdown: real,
    mode: Mode,
    version: nat)

  function DrawdownFromPeak(peak: real, current: real): real {
    if peak == 0.0 || current >= peak then 0.0
    else if (peak - current) / peak > 1.0 then 1.0
    else (peak - current) / peak
  }

  function NewPaperAccount(start: real): Option<Account> {
    if start <= 0.0 then None
    else Some(Account(start, start, start, start, 0.0, 0.0, 0.0, Paper, 1))
  }

  /** A starting balance must be positive; then all of it is available, equity and peak, in PAPER at version 1. */
  lemma NewAccountExactlyWhen(start: real)
    ensures NewPaperAccount(start)
         == if start > 0.0 then Some(Account(start, start, start, start, 0.0, 0.0, 0.0, Paper, 1)) else None
  {
  }

  datatype Call =
    | ApplyRealizedPnL(delta: real)
    | ReserveMargin(amount: real)
    | ReleaseMargin(amount: real)
    | MarkToMarket(unrealized: real)
    | ResetDailyPnL
    | ResetWeeklyPnL
    | SetOperationalMode(mode: Mode)

  predicate Accepts(a: Account, c: Call) { c.ReserveMargin? ==> c.amount <= a.available }

  function Revalue(a: Account, equity: real): Account {
    var peak := if equity > a.peak then equity else a.peak;
    a.(equity := equity, peak := peak, drawdown := DrawdownFromPeak(peak, equity))
  }

  /** The account after one call; only a ReserveMargin beyond the available balance is refused, unversioned. */
  function Apply(a: Account, c: Call): Account {
    if !Accepts(a, c) then a
    else
      var next :=
        match c
        case ApplyRealizedPnL(d) =>
          Revalue(a, a.equity + d).(balance := a.balance + d, available := a.available + d,
                                    daily := a.daily + d, weekly := a.weekly + d)
        case ReserveMargin(x) => a.(available := a.available - x)
        case ReleaseMargin(x) => a.(available := a.available + x)
        case MarkToMarket(u) => Revalue(a, a.balance + u)
        case ResetDailyPnL => a.(daily := 0.0)
        case ResetWeeklyPnL => a.(weekly := 0.0)
        case SetOperationalMode(m) => a.(mode := m);
      next.(version := a.version + 1)
  }

  class AccountAggregate {
    var balance: real
    var equity: real
    var available: real
    var peak: real
    var daily: real
    var weekly: real
    var drawdown: real
    var mode: Mode
    var version: nat

    function Value(): Account
      reads this
    {
      Account(balance, equity, available, peak, daily, weekly, drawdown, mode, version)
    }

    constructor (start: real)
      requires start > 0.0
      ensures Some(Value()) == NewPaperAccount(start)
    {
      balance, equity, available, peak := start, start, start, start;
      daily, weekly, drawdown, mode, version := 0.0, 0.0, 0.0, Paper, 1;
    }

    method Handle(c: Call) returns (ok: bool)
      modifies this
      ensures ok <==> Accepts(old(Value()), c)
      ensures Value() == Apply(old(Value()), c)
    {
      match c {
        case ApplyRealizedPnL(delta) =>
          balance := balance + delta;
          equity := equity + delta;
          available := available + delta;
          daily := daily + delta;
          weekly := weekly + delta;
          if equity > peak { peak := equity; }
          drawdown := DrawdownFromPeak(peak, equity);
        case ReserveMargin(amount) =>
          if amount > available { return false; }
          available := available - amount;
        case ReleaseMargin(amount) =>
          available := available + amount;
        case MarkToMarket(unrealized) =>
          equity := balance + unrealized;
          if equity > peak { peak := equity; }
          drawdown := DrawdownFromPeak(peak, equity);
        case ResetDailyPnL =>
          daily := 0.0;
        case ResetWeeklyPnL =>
          weekly := 0.0;
        case SetOperationalMode(m) =>
          mode := m;
      }
      version := version + 1;
      return true;
    }
  }

  // ----- the account against its own history

  function Run(a: Account, calls: seq<Call>): Account {
    if calls == [] then a else Apply(Run(a, calls[..|calls| - 1]), calls[|calls| - 1])
  }

  function Realized(c: Call): real { if c.ApplyRealizedPnL? then c.delta else 0.0 }

  predicate IsDailyReset(c: Call) { c.ResetDailyPnL? }

  predicate IsWeeklyReset(c: Call) { c.ResetWeeklyPnL? }

  ghost function RealizedTotal(calls: seq<Call>): real {
    if calls == [] then 0.0 else RealizedTotal(calls[..|calls| - 1]) + Realized(calls[|calls| - 1])
  }

  /** Realized P&L since the last call for which `reset` holds. */
  ghost function RealizedSince(calls: seq<Call>, reset: Call -> bool): real {
    if calls == [] || reset(calls[|calls| - 1]) then 0.0
    else RealizedSince(calls[..|calls| - 1], reset) + Realized(calls[|calls| - 1])
  }

  /** Margin reserved by accepted calls minus margin released. */
  ghost function Outstanding(a: Account, calls: seq<Call>): real {
    if calls == [] then 0.0
    else
      var before := calls[..|calls| - 1];
      var c := calls[|calls| - 1];
      Outstanding(a, before) +
      (if c.ReserveMargin? && c.amount <= Run(a, before).available then c.amount
       else if c.ReleaseMargin? then -c.amount else 0.0)
  }

  /**
   * Drawdown is zero at or above the peak, and below a positive peak the lost fraction of it, clipped to 1. It
   * lies in [0, 1] in all cases but one: below a negative peak.
   */
  lemma DrawdownBounds(peak: real, current: real)
    ensures var d := DrawdownFromPeak(peak, current);
            && (0.0 <= d <= 1.0 <==> peak >= 0.0 || current >= peak)
            && (current >= peak || peak == 0.0 ==> d == 0.0)
            && (0.0 <= current < peak ==> 0.0 < d && d * peak == peak - current)
            && (current < 0.0 < peak ==> d == 1.0)
  {
    if peak != 0.0 && current < peak {
      var ratio := (peak - current) / peak;
      assert ratio * peak == peak - current;
      if peak > 0.0 {
        RatioBounds(ratio, peak, current);
      } else {
        assert ratio >= 0.0 ==> ratio * (-peak) >= 0.0;
        assert ratio < 0.0;
      }
    }
  }

  lemma RatioBounds(ratio: real, peak: real, current: real)
    requires peak > 0.0 && current < peak && ratio * peak == peak - current
    ensures ratio > 0.0 && (ratio > 1.0 <==> current < 0.0)
  {
    assert ratio <= 0.0 ==> (-ratio) * peak >= 0.0;
    assert ratio > 1.0 ==> (ratio - 1.0) * peak > 0.0;
    assert ratio <= 1.0 ==> (1.0 - ratio) * peak >= 0.0;
  }

  /** Running totals of every call sequence, from the calls alone. */
  lemma {:induction false} AccountTotals(start: real, calls: seq<Call>)
    requires start > 0.0
    ensures var first := NewPaperAccount(start).value;
            var a := Run(first, calls);
            && a.balance == start + RealizedTotal(calls)
            && a.available == a.balance - Outstanding(first, calls)
            && a.daily == RealizedSince(calls, IsDailyReset)
            && a.weekly == RealizedSince(calls, IsWeeklyReset)
  {
    if calls != [] {
      AccountTotals(start, calls[..|calls| - 1]);
    }
  }

  /** The unrealized P&L of the latest valuation. */
  ghost function LastMark(calls: seq<Call>): real {
    if calls == [] then 0.0
    else if calls[|calls| - 1].MarkToMarket? then calls[|calls| - 1].unrealized
    else LastMark(calls[..|calls| - 1])
  }

  ghost function LastMode(calls: seq<Call>): Mode {
    if calls == [] then Paper
    else if calls[|calls| - 1].SetOperationalMode? then calls[|calls| - 1].mode
    else LastMode(calls[..|calls| - 1])
  }

  /** Calls that took effect: all but reservations beyond the available balance. */
  ghost function Effective(a: Account, calls: seq<Call>): nat {
    if calls == [] then 0
    else
      var before, c := calls[..|calls| - 1], calls[|calls| - 1];
      Effective(a, before) + if c.ReserveMargin? && c.amount > Run(a, before).available then 0 else 1
  }

  /** Equity is balance plus the latest valuation, whatever was booked since; mode and version follow the calls. */
  lemma {:induction false} AccountEquity(start: real, calls: seq<Call>)
    requires start > 0.0
    ensures var first := NewPaperAccount(start).value;
            var a := Run(first, calls);
            && a.equity == start + RealizedTotal(calls) + LastMark(calls)
            && a.mode == LastMode(calls)
            && a.version == 1 + Effective(first, calls)
  {
    if calls != [] {
      AccountEquity(start, calls[..|calls| - 1]);
      AccountTotals(start, calls[..|calls| - 1]);
    }
  }

  /** Drawdown is the clipped loss from the peak, a fraction of it, after every call sequence. */
  lemma {:induction false} AccountDrawdown(start: real, calls: seq<Call>)
    requires start > 0.0
    ensures var a := Run(NewPaperAccount(start).value, calls);
            && a.drawdown == DrawdownFromPeak(a.peak, a.equity)
            && a.peak >= start && a.equity <= a.peak
            && 0.0 <= a.drawdown <= 1.0
  {
    var a := Run(NewPaperAccount(start).value, calls);
    if calls == [] {
      DrawdownBounds(start, start);
    } else {
      AccountDrawdown(start, calls[..|calls| - 1]);
      DrawdownBounds(a.peak, a.equity);
    }
  }

  /** Peak equity is the maximum: an upper bound on every equity ever held, and itself one of them. */
  lemma {:induction false} PeakIsMaximum(start: real, calls: seq<Call>) returns (k: nat)
    requires start > 0.0
    ensures var first := NewPaperAccount(start).value;
            && (forall i :: 0 <= i <= |calls| ==> Run(first, calls[..i]).equity <= Run(first, calls).peak)
            && k <= |calls|
            && Run(first, calls[..k]).equity == Run(first, calls).peak
  {
    var first := NewPaperAccount(start).value;
    if calls == [] {
      k := 0;
    } else {
      var before := calls[..|calls| - 1];
      k := PeakIsMaximum(start, before);
      assert before[..k] == calls[..k];
      var b, a := Run(first, before), Run(first, calls);
      assert calls[..|calls|] == calls;
      AccountDrawdown(start, calls);
      assert a.peak >= b.peak;
      forall i | 0 <= i <= |calls|
        ensures Run(first, calls[..i]).equity <= a.peak
      {
        if i < |calls| {
          assert before[..i] == calls[..i];
        }
      }
      if a.peak != b.peak {
        k := |calls|;
      }
    }
  }
}

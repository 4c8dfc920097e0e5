/** What a paper reset does to every row, and when it commits. */
module Resets {
  import opened Primitives
  import opened Storage
  import opened Protocol
  import opened Invariants
  import opened Safety
  import Operation
  import Orders
  import Positions
  import Accounts

  // ----- orders

  /** Statuses that may be cancelled. */
  predicate MayCancel(s: Orders.Status) { s.Submitted? || s.PartiallyFilled? || s.Unknown? }

  /** The order is listed, and may be cancelled as listed. */
  ghost predicate ToCancel(os: OrderList, i: nat) {
    exists n :: 0 <= n < |os| && os[n].0 == i && MayCancel(os[n].1.status)
  }

  function CancelledRow(o: Orders.Order): Orders.Order { o.(status := Orders.Cancelled, version := o.version + 1) }

  /** Exactly the listed rows that may be cancelled are; every other row is untouched. */
  ghost predicate CancelledAsListed(before: seq<Orders.Order>, after: seq<Orders.Order>, os: OrderList) {
    && |after| == |before|
    && forall i :: 0 <= i < |before| ==> after[i] == if ToCancel(os, i) then CancelledRow(before[i]) else before[i]
  }

  /** No listed row that may be cancelled has moved since it was listed. */
  ghost predicate Unmoved(orders: seq<Orders.Order>, os: OrderList) {
    forall n :: 0 <= n < |os| && MayCancel(os[n].1.status) ==> os[n].0 < |orders| && orders[os[n].0] == os[n].1
  }

  lemma ToCancelOneMore(os: OrderList, i: nat)
    requires os != []
    ensures ToCancel(os, i) <==>
            ToCancel(os[..|os| - 1], i) || (os[|os| - 1].0 == i && MayCancel(os[|os| - 1].1.status))
  {
    var before := os[..|os| - 1];
    if ToCancel(before, i) {
      var m :| 0 <= m < |before| && before[m].0 == i && MayCancel(before[m].1.status);
      assert os[m] == before[m];
    }
    if ToCancel(os, i) {
      var m :| 0 <= m < |os| && os[m].0 == i && MayCancel(os[m].1.status);
      assert m == |os| - 1 || before[m] == os[m];
    }
    if os[|os| - 1].0 == i && MayCancel(os[|os| - 1].1.status) {
      assert os[|os| - 1].0 == i;
    }
  }

  lemma CancelOneIs(t: Tables, i: nat, o: Orders.Order)
    requires i < |t.orders| && FreshOrder(o, t.orders[i]) && Orders.LifecycleOk(o)
    ensures var r := CancelOne(t, (i, o));
            if !MayCancel(o.status) then r == Some(t)
            else if t.orders[i] == o then r == Some(t.(orders := t.orders[i := CancelledRow(o)]))
            else r.None?
  {
    Orders.AcceptsExactlyWhen(o, Orders.Cancel);
    if MayCancel(o.status) {
      Orders.CallEffects(o, Orders.Cancel);
      assert StoredOrder(o, CancelledRow(o)) == CancelledRow(o);
    }
  }

  /** Cancelling a listing fails when a row to be cancelled has moved, and otherwise cancels as listed. */
  lemma {:induction false} CancellingIs(t: Tables, os: OrderList)
    requires OrderSnapshots(t.orders, os)
    ensures CancelOrders(t, os).Some? <==> Unmoved(t.orders, os)
    ensures CancelOrders(t, os).Some? ==>
              var t' := CancelOrders(t, os).value;
              t' == t.(orders := t'.orders) && CancelledAsListed(t.orders, t'.orders, os)
  {
    if os != [] {
      var before, last := os[..|os| - 1], os[|os| - 1];
      CancellingIs(t, before);
      assert Unmoved(t.orders, os) <==>
             Unmoved(t.orders, before) && (MayCancel(last.1.status) ==> t.orders[last.0] == last.1) by {
        assert forall n :: 0 <= n < |before| ==> before[n] == os[n];
      }
      if CancelOrders(t, before).Some? {
        LastIsCancelled(t, CancelOrders(t, before).value, os);
      }
    }
  }

  lemma LastIsCancelled(t: Tables, t1: Tables, os: OrderList)
    requires os != [] && OrderSnapshots(t.orders, os)
    requires t1 == t.(orders := t1.orders) && CancelledAsListed(t.orders, t1.orders, os[..|os| - 1])
    ensures var last := os[|os| - 1];
            && (CancelOne(t1, last).Some? <==> (MayCancel(last.1.status) ==> t.orders[last.0] == last.1))
            && (CancelOne(t1, last).Some? ==>
                  var t' := CancelOne(t1, last).value;
                  t' == t.(orders := t'.orders) && CancelledAsListed(t.orders, t'.orders, os))
  {
    var before, last := os[..|os| - 1], os[|os| - 1];
    assert !ToCancel(before, last.0);
    assert t1.orders[last.0] == t.orders[last.0];
    CancelOneIs(t1, last.0, last.1);
    forall i | 0 <= i < |t.orders|
      ensures ToCancel(os, i) <==> ToCancel(before, i) || (last.0 == i && MayCancel(last.1.status))
    {
      ToCancelOneMore(os, i);
    }
  }

  // ----- positions

  /** The row closed at its own last price. */
  ghost predicate ClosedAtMark(div: Division, eps: real, p: Positions.Position, p': Positions.Position) {
    && p' == p.(quantity := 0.0, unrealized := 0.0, isOpen := false, realized := p'.realized, version := p.version + 1)
    && (Rounds(div, eps) ==>
          Positions.Off(p'.realized, p.realized + p.side.Sign() * (p.current - p.entry) * p.quantity) <= eps)
  }

  lemma ClosedRowIs(div: Division, eps: real, p: Positions.Position)
    requires Positions.Valid(p) && p.isOpen
    ensures ClosedAtMark(div, eps, p, ClosedRow(div, p))
  {
    if Rounds(div, eps) {
      Positions.ReduceBooks(div, eps, p, p.quantity, p.current);
    }
  }

  /** Every OPEN row is closed at its last price; every other row is untouched. */
  ghost predicate AllClosed(div: Division, eps: real, before: seq<Positions.Position>, after: seq<Positions.Position>) {
    && |after| == |before|
    && forall j :: 0 <= j < |before| ==>
         if before[j].isOpen then ClosedAtMark(div, eps, before[j], after[j]) else after[j] == before[j]
  }

  lemma ClosingIs(div: Division, eps: real, t: Tables, ps: PositionList)
    requires PositionsOk(t.positions) && Complete(t.positions, ps) && AllValid(ps)
    ensures ClosePositions(div, t, ps).Some?
    ensures var t1 := ClosePositions(div, t, ps).value;
            t1 == t.(positions := t1.positions) && AllClosed(div, eps, t.positions, t1.positions)
  {
    ClosingClosesTheListed(div, t, ps);
    ListedIsOpen(t.positions, ps);
    var t1 := ClosePositions(div, t, ps).value;
    forall j | 0 <= j < |t.positions|
      ensures if t.positions[j].isOpen then ClosedAtMark(div, eps, t.positions[j], t1.positions[j])
              else t1.positions[j] == t.positions[j]
    {
      if t.positions[j].isOpen {
        ClosedRowIs(div, eps, t.positions[j]);
      }
    }
  }

  // ----- the whole reset

  /** The account a reset leaves: as on the first day, one version on. */
  function Renewed(a: Accounts.Account, start: real): Accounts.Account {
    Accounts.Account(start, start, start, start, 0.0, 0.0, 0.0, Operation.Paper, a.version + 1)
  }

  /** Positions closed, orders cancelled as listed, the account renewed, and everything else as it was. */
  ghost predicate ResetAsListed(env: Env, eps: real, t: Tables, t': Tables, os: OrderList) {
    && t' == t.(account := Renewed(t.account, env.resetBalance), orders := t'.orders, positions := t'.positions)
    && CancelledAsListed(t.orders, t'.orders, os)
    && AllClosed(env.div, eps, t.positions, t'.positions)
  }

  lemma ResetTxIs(env: Env, eps: real, t: Tables, ps: PositionList, os: OrderList)
    requires TablesOk(t) && env.resetBalance > 0.0 && AllValid(ps) && Complete(t.positions, ps)
    requires OrderSnapshots(t.orders, os)
    ensures var r := ResetOf(env.div, t, t.account, ps, os, env.resetBalance);
            && (r.Some? <==> Unmoved(t.orders, os))
            && (r.Some? ==> ResetAsListed(env, eps, t, r.value, os))
  {
    ClosingIs(env.div, eps, t, ps);
    CancellingIs(ClosePositions(env.div, t, ps).value, os);
  }

  /** A lost race for the account row undoes a reset. */
  lemma StaleResetFails(env: Env, t: Tables, acct: Accounts.Account, ps: PositionList, os: OrderList)
    requires env.resetBalance > 0.0 && AllValid(ps) && acct.version != t.account.version
    ensures ResetOf(env.div, t, acct, ps, os, env.resetBalance).None?
  {
    if ClosePositions(env.div, t, ps).Some? {
      ClosingFrame(env.div, t, ps);
      var t1 := ClosePositions(env.div, t, ps).value;
      if CancelOrders(t1, os).Some? {
        CancelFrame(t1, os);
      }
    }
  }

  /**
   * When a reset commits, exactly: the starting balance is positive, the account row is still the one it read,
   * and no order it has to cancel has moved. Then every OPEN position is closed at its last price, exactly the
   * listed orders that may be cancelled are, and the account starts over; otherwise nothing changes.
   */
  lemma ResetCommitsExactlyWhen(env: Env, eps: real, t: Tables, acct: Accounts.Account, ps: PositionList, os: OrderList)
    requires TablesOk(t) && ProcOk(t, ResetReady(acct, ps, os))
    ensures var t' := CommitReset(env, t, acct, ps, os).tables;
            if env.resetBalance > 0.0 && t.account == acct && Unmoved(t.orders, os)
            then ResetAsListed(env, eps, t, t', os) else t' == t
  {
    if env.resetBalance > 0.0 {
      if t.account == acct {
        ResetTxIs(env, eps, t, ps, os);
      } else {
        StaleResetFails(env, t, acct, ps, os);
      }
    }
  }

  /** With the listing of open orders at hand, those to be cancelled are all that may be. */
  lemma ListingCancelsAll(orders: seq<Orders.Order>, os: OrderList, i: nat)
    requires ListsOpenOrders(orders, os) && i < |orders|
    ensures ToCancel(os, i) <==> orders[i].status in {Orders.Submitted, Orders.PartiallyFilled, Orders.Unknown}
  {
    if MayCancel(orders[i].status) {
      assert OrderListed(os, i);
      var n :| 0 <= n < |os| && os[n].0 == i;
      assert MayCancel(os[n].1.status);
    }
  }

  /** What an undisturbed reset makes of the tables. */
  ghost predicate Restarted(env: Env, eps: real, t: Tables, t': Tables) {
    && t' == t.(account := Renewed(t.account, env.resetBalance), orders := t'.orders, positions := t'.positions)
    && |t'.orders| == |t.orders|
    && (forall i :: 0 <= i < |t.orders| ==>
          t'.orders[i] == if t.orders[i].status in {Orders.Submitted, Orders.PartiallyFilled, Orders.Unknown}
                          then t.orders[i].(status := Orders.Cancelled, version := t.orders[i].version + 1)
                          else t.orders[i])
    && AllClosed(env.div, eps, t.positions, t'.positions)
  }

  /**
   * A reset with no write in between, in PAPER: every order the broker may still hold is cancelled, every other
   * order stays, every OPEN position is closed at its last price, and the account starts over. In any other
   * mode, or without a starting balance, nothing changes.
   */
  lemma UndisturbedReset(env: Env, eps: real, t: Tables, now: nat, o: Oracle)
    requires TablesOk(t)
    ensures var e1 := Advance(env, t, now, ResetStart, o);
            if t.account.mode != Operation.Paper then e1 == Stay(t, Done)
            else
              var e2 := Advance(env, e1.tables, now, e1.proc, o);
              var e3 := Advance(env, e2.tables, now, e2.proc, o);
              var e4 := Advance(env, e3.tables, now, e3.proc, o);
              && e4.proc == Done
              && if env.resetBalance > 0.0 then Restarted(env, eps, t, e4.tables) else e4.tables == t
  {
    if t.account.mode == Operation.Paper {
      var ps, os := OpenPositions(t.positions), OpenOrders(t.orders);
      ListingIsSafe(t, t.account);
      OpenOrdersAreSnapshots(t.orders);
      OpenOrdersIsComplete(t.orders);
      ResetCommitsExactlyWhen(env, eps, t, t.account, ps, os);
      ReachesReset(env, t, now, o);
      RestartedByListing(env, eps, t, CommitReset(env, t, t.account, ps, os).tables, os);
    }
  }

  lemma ReachesReset(env: Env, t: Tables, now: nat, o: Oracle)
    requires t.account.mode == Operation.Paper
    ensures var e1 := Advance(env, t, now, ResetStart, o);
            var e2 := Advance(env, e1.tables, now, e1.proc, o);
            var e3 := Advance(env, e2.tables, now, e2.proc, o);
            e3 == Stay(t, ResetReady(t.account, OpenPositions(t.positions), OpenOrders(t.orders)))
  {
  }

  lemma RestartedByListing(env: Env, eps: real, t: Tables, t': Tables, os: OrderList)
    requires ListsOpenOrders(t.orders, os)
    ensures Unmoved(t.orders, os)
    ensures ResetAsListed(env, eps, t, t', os) ==> Restarted(env, eps, t, t')
  {
    forall i | 0 <= i < |t.orders|
      ensures ToCancel(os, i) <==> t.orders[i].status in {Orders.Submitted, Orders.PartiallyFilled, Orders.Unknown}
    {
      ListingCancelsAll(t.orders, os, i);
    }
  }
}

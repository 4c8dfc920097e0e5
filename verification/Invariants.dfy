/** What every committed state satisfies, and what each transaction guarantees to all the others. */
module Invariants {
  import opened Primitives
  import opened Storage
  import Operation
  import Orders
  import Positions
  import Accounts

  // ----- margin

  function Notional(p: Positions.Position): real { if p.isOpen then p.quantity * p.entry else 0.0 }

  /** The sum of quantity times entry over the OPEN positions. */
  function OpenNotional(positions: seq<Positions.Position>): real {
    if positions == [] then 0.0
    else OpenNotional(positions[..|positions| - 1]) + Notional(positions[|positions| - 1])
  }

  lemma NotionalAppend(positions: seq<Positions.Position>, p: Positions.Position)
    ensures OpenNotional(positions + [p]) == OpenNotional(positions) + Notional(p)
  {
    assert (positions + [p])[..|positions|] == positions;
  }

  lemma {:induction false} NothingOpen(positions: seq<Positions.Position>)
    requires forall j :: 0 <= j < |positions| ==> !positions[j].isOpen
    ensures OpenNotional(positions) == 0.0
  {
    if positions != [] {
      NothingOpen(positions[..|positions| - 1]);
    }
  }

  /** Whatever is not available is reserved for an OPEN position, and nothing is reserved twice. */
  predicate MarginOk(t: Tables) {
    && t.account.available == t.account.balance - OpenNotional(t.positions)
    && t.account.available >= 0.0
  }

  predicate ModeAgrees(t: Tables) { t.account.mode == t.mode.mode }

  // ----- orders, fills and the events announcing them

  ghost predicate OrdersOk(orders: seq<Orders.Order>) {
    && (forall i :: 0 <= i < |orders| ==> Orders.LifecycleOk(orders[i]) && orders[i].version >= 1)
    && (forall i, k :: 0 <= i < k < |orders| ==> orders[i].clientId != orders[k].clientId)
  }

  ghost predicate PositionsOk(positions: seq<Positions.Position>) {
    && (forall j :: 0 <= j < |positions| ==> Positions.Valid(positions[j]) && positions[j].version >= 1)
    && (forall j, k :: 0 <= j < k < |positions| && positions[j].isOpen && positions[k].isOpen ==>
          positions[j].symbol != positions[k].symbol)
  }

  /** The k-th audit row and the k-th position come from the same fill of one FILLED order. */
  ghost predicate FillOk(orders: seq<Orders.Order>, e: Execution, p: Positions.Position) {
    && e.order < |orders|
    && Orders.IsFilled(orders[e.order])
    && orders[e.order].averagePrice == Some(e.price) && orders[e.order].filled == e.quantity
    && p.symbol == orders[e.order].symbol && p.side == orders[e.order].side && p.entry == e.price
    && (p.isOpen ==> p.quantity == e.quantity)
  }

  ghost predicate FillsOk(t: Tables) {
    && |t.executions| == |t.positions| == CountIf(t.orders, Orders.IsFilled)
    && (forall k :: 0 <= k < |t.executions| ==> FillOk(t.orders, t.executions[k], t.positions[k]))
    && (forall k, m :: 0 <= k < m < |t.executions| ==> t.executions[k].order != t.executions[m].order)
  }

  /** Each order is announced once when created, once when acknowledged, once when filled; each position once. */
  ghost predicate EventsOk(outbox: seq<Event>, orders: seq<Orders.Order>, positions: nat) {
    var sent := multiset(outbox);
    && (forall i: nat :: sent[OrderCreated(i)] == Bit(i < |orders|))
    && (forall i: nat :: sent[OrderSubmitted(i)] == Bit(i < |orders| && Orders.IsAcknowledged(orders[i])))
    && (forall i: nat :: sent[OrderFilled(i)] == Bit(i < |orders| && Orders.IsFilled(orders[i])))
    && (forall j: nat :: sent[PositionOpened(j)] == Bit(j < positions))
  }

  predicate IsCreated(e: Event) { e.OrderCreated? }
  predicate IsSubmitted(e: Event) { e.OrderSubmitted? }
  predicate IsFilledEvent(e: Event) { e.OrderFilled? }
  predicate IsOpened(e: Event) { e.PositionOpened? }

  ghost predicate TotalsOk(outbox: seq<Event>, orders: seq<Orders.Order>, positions: nat) {
    && CountIf(outbox, IsCreated) == |orders|
    && CountIf(outbox, IsSubmitted) == CountIf(orders, Orders.IsAcknowledged)
    && CountIf(outbox, IsFilledEvent) == CountIf(orders, Orders.IsFilled)
    && CountIf(outbox, IsOpened) == positions
  }

  ghost predicate Announced(t: Tables) {
    EventsOk(t.outbox, t.orders, |t.positions|) && TotalsOk(t.outbox, t.orders, |t.positions|)
  }

  /** Everything but the margin, which a transaction restores only with its last write. */
  ghost predicate RecordsOk(t: Tables) {
    OrdersOk(t.orders) && PositionsOk(t.positions) && FillsOk(t) && Announced(t)
  }

  ghost predicate TablesOk(t: Tables) { RecordsOk(t) && MarginOk(t) && ModeAgrees(t) }

  // ----- versions: what a snapshot may still be trusted for

  predicate FreshAccount(snapshot: Accounts.Account, row: Accounts.Account) {
    snapshot.version <= row.version && (snapshot.version == row.version ==> snapshot == row)
  }

  predicate FreshMode(snapshot: Operation.ModeRow, row: Operation.ModeRow) {
    snapshot.version <= row.version && (snapshot.version == row.version ==> snapshot == row)
  }

  predicate FreshOrder(snapshot: Orders.Order, row: Orders.Order) {
    snapshot.version <= row.version && (snapshot.version == row.version ==> snapshot == row)
  }

  /**
   * How one step may change the tables: a row changes only by moving to a later version, nothing is
   * deleted, and positions change only together with the account row.
   */
  ghost predicate Evolves(t: Tables, t': Tables) {
    && FreshAccount(t.account, t'.account)
    && FreshMode(t.mode, t'.mode)
    && (t.account.version == t'.account.version ==> t.positions == t'.positions)
    && |t.orders| <= |t'.orders|
    && (forall i :: 0 <= i < |t.orders| ==> FreshOrder(t.orders[i], t'.orders[i]))
    && |t.positions| <= |t'.positions|
  }

  // ----- how the records follow one appended or replaced order row, and one event

  lemma EmitCounts(outbox: seq<Event>, e: Event)
    ensures CountIf(outbox + [e], IsCreated) == CountIf(outbox, IsCreated) + Bit(IsCreated(e))
    ensures CountIf(outbox + [e], IsSubmitted) == CountIf(outbox, IsSubmitted) + Bit(IsSubmitted(e))
    ensures CountIf(outbox + [e], IsFilledEvent) == CountIf(outbox, IsFilledEvent) + Bit(IsFilledEvent(e))
    ensures CountIf(outbox + [e], IsOpened) == CountIf(outbox, IsOpened) + Bit(IsOpened(e))
  {
    CountAppend(outbox, e, IsCreated);
    CountAppend(outbox, e, IsSubmitted);
    CountAppend(outbox, e, IsFilledEvent);
    CountAppend(outbox, e, IsOpened);
  }

  lemma CreatedIsAnnounced(outbox: seq<Event>, orders: seq<Orders.Order>, positions: nat, o: Orders.Order)
    requires EventsOk(outbox, orders, positions) && TotalsOk(outbox, orders, positions)
    requires !Orders.IsAcknowledged(o) && !Orders.IsFilled(o)
    ensures EventsOk(outbox + [OrderCreated(|orders|)], orders + [o], positions)
    ensures TotalsOk(outbox + [OrderCreated(|orders|)], orders + [o], positions)
  {
    var after := outbox + [OrderCreated(|orders|)];
    assert multiset(after) == multiset(outbox) + multiset{OrderCreated(|orders|)};
    assert EventsOk(after, orders + [o], positions);
    EmitCounts(outbox, OrderCreated(|orders|));
    CountAppend(orders, o, Orders.IsAcknowledged);
    CountAppend(orders, o, Orders.IsFilled);
  }

  lemma ReplaceCounts(orders: seq<Orders.Order>, i: nat, o: Orders.Order)
    requires i < |orders|
    ensures CountIf(orders[i := o], Orders.IsAcknowledged) + Bit(Orders.IsAcknowledged(orders[i]))
         == CountIf(orders, Orders.IsAcknowledged) + Bit(Orders.IsAcknowledged(o))
    ensures CountIf(orders[i := o], Orders.IsFilled) + Bit(Orders.IsFilled(orders[i]))
         == CountIf(orders, Orders.IsFilled) + Bit(Orders.IsFilled(o))
  {
    CountUpdate(orders, i, o, Orders.IsAcknowledged);
    CountUpdate(orders, i, o, Orders.IsFilled);
  }

  lemma QuietIsAnnounced(outbox: seq<Event>, orders: seq<Orders.Order>, positions: nat, i: nat, o: Orders.Order)
    requires EventsOk(outbox, orders, positions) && TotalsOk(outbox, orders, positions) && i < |orders|
    requires Orders.IsAcknowledged(o) == Orders.IsAcknowledged(orders[i]) && Orders.IsFilled(o) == Orders.IsFilled(orders[i])
    ensures EventsOk(outbox, orders[i := o], positions) && TotalsOk(outbox, orders[i := o], positions)
  {
    ReplaceCounts(orders, i, o);
  }

  lemma SubmittedIsAnnounced(outbox: seq<Event>, orders: seq<Orders.Order>, positions: nat, i: nat, o: Orders.Order)
    requires EventsOk(outbox, orders, positions) && TotalsOk(outbox, orders, positions) && i < |orders|
    requires !Orders.IsAcknowledged(orders[i]) && Orders.IsAcknowledged(o) && Orders.IsFilled(o) == Orders.IsFilled(orders[i])
    ensures EventsOk(outbox + [OrderSubmitted(i)], orders[i := o], positions)
    ensures TotalsOk(outbox + [OrderSubmitted(i)], orders[i := o], positions)
  {
    var after := outbox + [OrderSubmitted(i)];
    assert multiset(after) == multiset(outbox) + multiset{OrderSubmitted(i)};
    assert EventsOk(after, orders[i := o], positions);
    EmitCounts(outbox, OrderSubmitted(i));
    ReplaceCounts(orders, i, o);
  }

  lemma FilledIsAnnounced(outbox: seq<Event>, orders: seq<Orders.Order>, positions: nat, i: nat, o: Orders.Order)
    requires EventsOk(outbox, orders, positions) && TotalsOk(outbox, orders, positions) && i < |orders|
    requires !Orders.IsFilled(orders[i]) && Orders.IsFilled(o) && Orders.IsAcknowledged(o) == Orders.IsAcknowledged(orders[i])
    ensures var after := outbox + [OrderFilled(i)] + [PositionOpened(positions)];
            EventsOk(after, orders[i := o], positions + 1) && TotalsOk(after, orders[i := o], positions + 1)
  {
    var middle := outbox + [OrderFilled(i)];
    var after := middle + [PositionOpened(positions)];
    assert multiset(after) == multiset(outbox) + multiset{OrderFilled(i)} + multiset{PositionOpened(positions)};
    assert EventsOk(after, orders[i := o], positions + 1);
    EmitCounts(outbox, OrderFilled(i));
    EmitCounts(middle, PositionOpened(positions));
    ReplaceCounts(orders, i, o);
  }

  lemma KillIsAnnounced(outbox: seq<Event>, orders: seq<Orders.Order>, positions: nat)
    requires EventsOk(outbox, orders, positions) && TotalsOk(outbox, orders, positions)
    ensures EventsOk(outbox + [KillSwitchActivated], orders, positions)
    ensures TotalsOk(outbox + [KillSwitchActivated], orders, positions)
  {
    assert multiset(outbox + [KillSwitchActivated]) == multiset(outbox) + multiset{KillSwitchActivated};
    EmitCounts(outbox, KillSwitchActivated);
  }

  /** Accepted by the domain and by the version check, a call lands on exactly the row it was computed from. */
  lemma UpdateLands(t: Tables, i: nat, o: Orders.Order, c: Orders.Call)
    requires i < |t.orders| && FreshOrder(o, t.orders[i]) && Orders.LifecycleOk(o)
    requires UpdateOrder(t, i, Orders.Apply(o, c)).Some?
    ensures Orders.Accepts(o, c) && t.orders[i] == o
    ensures UpdateOrder(t, i, Orders.Apply(o, c)).value.orders == t.orders[i := Orders.Apply(o, c)]
    ensures Orders.LifecycleOk(Orders.Apply(o, c))
  {
  }

  lemma OrdersAppend(orders: seq<Orders.Order>, o: Orders.Order)
    requires OrdersOk(orders) && !HasClientId(orders, o.clientId) && Orders.LifecycleOk(o) && o.version >= 1
    ensures OrdersOk(orders + [o])
  {
  }

  lemma OrdersReplace(orders: seq<Orders.Order>, i: nat, o: Orders.Order)
    requires OrdersOk(orders) && i < |orders|
    requires Orders.LifecycleOk(o) && o.clientId == orders[i].clientId && o.version == orders[i].version + 1
    ensures OrdersOk(orders[i := o])
    ensures forall k :: 0 <= k < |orders| ==> FreshOrder(orders[k], orders[i := o][k])
  {
  }

  /** Replacing a row that is not and does not become FILLED leaves every recorded fill in place. */
  lemma FillsReplace(t: Tables, t': Tables, i: nat, o: Orders.Order)
    requires FillsOk(t) && i < |t.orders| && !Orders.IsFilled(t.orders[i]) && !Orders.IsFilled(o)
    requires t'.orders == t.orders[i := o] && t'.executions == t.executions && t'.positions == t.positions
    ensures FillsOk(t')
  {
    CountUpdate(t.orders, i, o, Orders.IsFilled);
    forall k | 0 <= k < |t'.executions|
      ensures FillOk(t'.orders, t'.executions[k], t'.positions[k])
    {
      assert FillOk(t.orders, t.executions[k], t.positions[k]);
    }
  }

  // ----- PENDING is inserted

  lemma PendingKeepsFills(t: Tables, t': Tables, o: Orders.Order)
    requires FillsOk(t) && !Orders.IsFilled(o)
    requires t'.orders == t.orders + [o] && t'.executions == t.executions && t'.positions == t.positions
    ensures FillsOk(t')
  {
    CountAppend(t.orders, o, Orders.IsFilled);
    forall k | 0 <= k < |t'.executions|
      ensures FillOk(t'.orders, t'.executions[k], t'.positions[k])
    {
      assert FillOk(t.orders, t.executions[k], t.positions[k]);
    }
  }

  lemma PendingIsSound(t: Tables, o: Orders.Order)
    requires TablesOk(t) && PendingTx(t, o).Some?
    requires o.status.Pending? && o.version == 1 && o.brokerId == "" && o.filled == 0.0
    ensures TablesOk(PendingTx(t, o).value) && Evolves(t, PendingTx(t, o).value)
  {
    var t' := PendingTx(t, o).value;
    assert t' == t.(orders := t.orders + [o], outbox := t.outbox + [OrderCreated(|t.orders|)]);
    assert OrdersOk(t'.orders) by { OrdersAppend(t.orders, o); }
    assert FillsOk(t') by { PendingKeepsFills(t, t', o); }
    assert Announced(t') by { CreatedIsAnnounced(t.outbox, t.orders, |t.positions|, o); }
  }

  // ----- an order row moves without being filled: FAILED, SUBMITTED, CANCELLED

  lemma QuietUpdateIsSound(t: Tables, i: nat, o: Orders.Order, c: Orders.Call)
    requires RecordsOk(t) && i < |t.orders| && FreshOrder(o, t.orders[i]) && Orders.LifecycleOk(o)
    requires c.Fail? || c.Cancel? || c.MarkUnknown?
    requires UpdateOrder(t, i, Orders.Apply(o, c)).Some?
    ensures var t' := UpdateOrder(t, i, Orders.Apply(o, c)).value;
            && RecordsOk(t') && t' == t.(orders := t'.orders) && |t'.orders| == |t.orders|
            && (forall k :: 0 <= k < |t.orders| ==> FreshOrder(t.orders[k], t'.orders[k]))
  {
    UpdateLands(t, i, o, c);
    var o' := Orders.Apply(o, c);
    var t' := UpdateOrder(t, i, o').value;
    OrdersReplace(t.orders, i, o');
    FillsReplace(t, t', i, o');
    QuietIsAnnounced(t.outbox, t.orders, |t.positions|, i, o');
  }

  lemma SubmitIsSound(t: Tables, i: nat, o: Orders.Order, c: Orders.Call)
    requires TablesOk(t) && i < |t.orders| && FreshOrder(o, t.orders[i]) && o.status.Pending? && Orders.LifecycleOk(o)
    requires c.Submit? && SubmitTx(t, i, Orders.Apply(o, c)).Some?
    ensures var t' := SubmitTx(t, i, Orders.Apply(o, c)).value;
            TablesOk(t') && Evolves(t, t') && t'.orders[i] == Orders.Apply(o, c)
  {
    UpdateLands(t, i, o, c);
    var o' := Orders.Apply(o, c);
    OrdersReplace(t.orders, i, o');
    FillsReplace(t, SubmitTx(t, i, o').value, i, o');
    SubmittedIsAnnounced(t.outbox, t.orders, |t.positions|, i, o');
  }

  // ----- a fill is booked

  /** The tables after a fill that costs this much margin. */
  function Posted(t: Tables, i: nat, o: Orders.Order, price: Price, cost: real): Tables
    requires i < |t.orders|
  {
    t.(orders := t.orders[i := Orders.Apply(o, Orders.MarkFilled(price))],
       executions := t.executions + [Execution(i, o.quantity, price)],
       positions := t.positions + [Positions.Open(o.symbol, o.side, o.quantity, price)],
       account := t.account.(available := t.account.available - cost, version := t.account.version + 1),
       outbox := t.outbox + [OrderFilled(i)] + [PositionOpened(|t.positions|)])
  }

  /** A committed fill won all three races: order and account are unchanged since they were read, and the margin was there. */
  lemma FillWins(t: Tables, i: nat, o: Orders.Order, price: Price, acct: Accounts.Account)
    requires TablesOk(t) && i < |t.orders| && FreshOrder(o, t.orders[i]) && Orders.LifecycleOk(o)
    requires FreshAccount(acct, t.account) && FillOf(t, i, o, price, acct).Some?
    ensures Orders.Accepts(o, Orders.MarkFilled(price)) && t.orders[i] == o && t.account == acct
    ensures Orders.LifecycleOk(Orders.Apply(o, Orders.MarkFilled(price)))
    ensures o.quantity * price <= acct.available && !HasOpen(t.positions, o.symbol)
    ensures FillOf(t, i, o, price, acct).value == Posted(t, i, o, price, o.quantity * price)
  {
    UpdateLands(t, i, o, Orders.MarkFilled(price));
  }

  lemma FillKeepsFills(t: Tables, i: nat, o: Orders.Order, price: Price, t': Tables)
    requires FillsOk(t) && i < |t.orders| && t.orders[i] == o && Orders.Accepts(o, Orders.MarkFilled(price))
    requires t'.orders == t.orders[i := Orders.Apply(o, Orders.MarkFilled(price))]
    requires t'.executions == t.executions + [Execution(i, o.quantity, price)]
    requires t'.positions == t.positions + [Positions.Open(o.symbol, o.side, o.quantity, price)]
    ensures FillsOk(t')
  {
    CountUpdate(t.orders, i, Orders.Apply(o, Orders.MarkFilled(price)), Orders.IsFilled);
    forall k | 0 <= k < |t.executions|
      ensures FillOk(t'.orders, t'.executions[k], t'.positions[k]) && t'.executions[k].order != i
    {
      assert FillOk(t.orders, t.executions[k], t.positions[k]);
    }
  }

  lemma OpeningKeepsPositions(positions: seq<Positions.Position>, s: Symbol, side: Side, quantity: Lot, price: Price)
    requires PositionsOk(positions) && !HasOpen(positions, s)
    ensures PositionsOk(positions + [Positions.Open(s, side, quantity, price)])
    ensures OpenNotional(positions + [Positions.Open(s, side, quantity, price)]) == OpenNotional(positions) + quantity * price
  {
    NotionalAppend(positions, Positions.Open(s, side, quantity, price));
  }

  lemma FillKeepsRecords(t: Tables, i: nat, o: Orders.Order, price: Price, t': Tables)
    requires RecordsOk(t) && i < |t.orders| && t.orders[i] == o && Orders.Accepts(o, Orders.MarkFilled(price))
    requires !HasOpen(t.positions, o.symbol) && Orders.LifecycleOk(Orders.Apply(o, Orders.MarkFilled(price)))
    requires t'.orders == t.orders[i := Orders.Apply(o, Orders.MarkFilled(price))]
    requires t'.executions == t.executions + [Execution(i, o.quantity, price)]
    requires t'.positions == t.positions + [Positions.Open(o.symbol, o.side, o.quantity, price)]
    requires t'.outbox == t.outbox + [OrderFilled(i)] + [PositionOpened(|t.positions|)]
    ensures RecordsOk(t')
  {
    var o' := Orders.Apply(o, Orders.MarkFilled(price));
    assert OrdersOk(t'.orders) by { OrdersReplace(t.orders, i, o'); }
    assert FillsOk(t') by { FillKeepsFills(t, i, o, price, t'); }
    assert Announced(t') by { FilledIsAnnounced(t.outbox, t.orders, |t.positions|, i, o'); }
    assert PositionsOk(t'.positions) by { OpeningKeepsPositions(t.positions, o.symbol, o.side, o.quantity, price); }
  }

  /** A fill moves its notional from available to reserved and no more. */
  lemma PostedKeepsMargin(t: Tables, i: nat, o: Orders.Order, price: Price, cost: real)
    requires MarginOk(t) && i < |t.orders| && cost <= t.account.available && cost == o.quantity * price
    ensures MarginOk(Posted(t, i, o, price, cost))
  {
    var p, t' := Positions.Open(o.symbol, o.side, o.quantity, price), Posted(t, i, o, price, cost);
    NotionalAppend(t.positions, p);
    assert Notional(p) == cost;
    assert t'.positions == t.positions + [p];
    assert t'.account.available == t.account.available - cost && t'.account.balance == t.account.balance;
  }

  lemma PostedIsSound(t: Tables, i: nat, o: Orders.Order, price: Price, cost: real)
    requires TablesOk(t) && i < |t.orders| && t.orders[i] == o && Orders.Accepts(o, Orders.MarkFilled(price))
    requires !HasOpen(t.positions, o.symbol) && Orders.LifecycleOk(Orders.Apply(o, Orders.MarkFilled(price)))
    requires cost <= t.account.available && cost == o.quantity * price
    ensures TablesOk(Posted(t, i, o, price, cost)) && Evolves(t, Posted(t, i, o, price, cost))
  {
    FillKeepsRecords(t, i, o, price, Posted(t, i, o, price, cost));
    PostedKeepsMargin(t, i, o, price, cost);
    OrdersReplace(t.orders, i, Orders.Apply(o, Orders.MarkFilled(price)));
  }

  lemma FillIsSound(t: Tables, i: nat, o: Orders.Order, price: Price, acct: Accounts.Account)
    requires TablesOk(t) && i < |t.orders| && FreshOrder(o, t.orders[i]) && Orders.LifecycleOk(o)
    requires FreshAccount(acct, t.account) && FillOf(t, i, o, price, acct).Some?
    ensures TablesOk(FillOf(t, i, o, price, acct).value) && Evolves(t, FillOf(t, i, o, price, acct).value)
  {
    FillWins(t, i, o, price, acct);
    PostedIsSound(t, i, o, price, o.quantity * price);
  }

  // ----- the mode changes

  lemma ModeIsSound(t: Tables, row: Operation.ModeRow, r: Operation.Request, acct: Accounts.Account, kill: bool)
    requires TablesOk(t) && FreshMode(row, t.mode) && FreshAccount(acct, t.account)
    requires Operation.Transition(row, r).Some?
    requires ModeTx(t, Operation.Transition(row, r).value, Accounts.Apply(acct, Accounts.SetOperationalMode(r.target)), kill).Some?
    ensures var t' := ModeTx(t, Operation.Transition(row, r).value,
                             Accounts.Apply(acct, Accounts.SetOperationalMode(r.target)), kill).value;
            && TablesOk(t') && Evolves(t, t')
            && t.mode == row && t.account == acct && t'.mode.mode == r.target
  {
    KillIsAnnounced(t.outbox, t.orders, |t.positions|);
  }

  // ----- the paper reset

  /** Every listed row is an OPEN row as stored, each listed once. */
  ghost predicate Listing(positions: seq<Positions.Position>, ps: PositionList) {
    && (forall n :: 0 <= n < |ps| ==> ps[n].0 < |positions| && ps[n].1 == positions[ps[n].0] && ps[n].1.isOpen)
    && (forall n, m :: 0 <= n < m < |ps| ==> ps[n].0 != ps[m].0)
  }

  ghost predicate Listed(ps: PositionList, j: nat) { exists n :: 0 <= n < |ps| && ps[n].0 == j }

  /** The list is exactly the OPEN rows. */
  ghost predicate Complete(positions: seq<Positions.Position>, ps: PositionList) {
    Listing(positions, ps) && forall j :: 0 <= j < |positions| && positions[j].isOpen ==> Listed(ps, j)
  }

  lemma {:induction false} OpenPositionsIsListing(positions: seq<Positions.Position>)
    ensures Listing(positions, OpenPositions(positions))
  {
    if positions != [] {
      var n := |positions| - 1;
      OpenPositionsIsListing(positions[..n]);
      var ps, older := OpenPositions(positions), OpenPositions(positions[..n]);
      var shift := |ps| - |older|;
      assert forall m :: shift <= m < |ps| ==> ps[m] == older[m - shift];
    }
  }

  lemma {:induction false} OpenPositionsListsAll(positions: seq<Positions.Position>, j: nat)
    requires j < |positions| && positions[j].isOpen
    ensures Listed(OpenPositions(positions), j)
  {
    var n := |positions| - 1;
    var ps, older := OpenPositions(positions), OpenPositions(positions[..n]);
    if j < n {
      OpenPositionsListsAll(positions[..n], j);
      var m :| 0 <= m < |older| && older[m].0 == j;
      assert ps[m + |ps| - |older|] == older[m];
    } else {
      assert ps[0].0 == j;
    }
  }

  lemma OpenPositionsIsComplete(positions: seq<Positions.Position>)
    ensures Complete(positions, OpenPositions(positions))
  {
    OpenPositionsIsListing(positions);
    forall j | 0 <= j < |positions| && positions[j].isOpen
      ensures Listed(OpenPositions(positions), j)
    {
      OpenPositionsListsAll(positions, j);
    }
  }

  /** A position closed at its own last price. */
  function ClosedRow(div: Division, p: Positions.Position): Positions.Position
    requires Positions.Valid(p) && p.isOpen
  {
    Positions.Close(div, p, p.current).value
  }

  lemma ClosedRowIsClosed(div: Division, p: Positions.Position)
    requires Positions.Valid(p) && p.isOpen
    ensures var c := ClosedRow(div, p);
            && !c.isOpen && Positions.Valid(c) && c.version == p.version + 1
            && c.symbol == p.symbol && c.side == p.side && c.entry == p.entry
            && StoredPosition(p, c) == c
  {
  }

  lemma ListedByOneMore(ps: PositionList, j: nat)
    requires ps != []
    ensures Listed(ps, j) <==> Listed(ps[..|ps| - 1], j) || j == ps[|ps| - 1].0
  {
    var before := ps[..|ps| - 1];
    if Listed(before, j) {
      var m :| 0 <= m < |before| && before[m].0 == j;
      assert ps[m].0 == j;
    }
    if Listed(ps, j) && j != ps[|ps| - 1].0 {
      var m :| 0 <= m < |ps| && ps[m].0 == j;
      assert before[m].0 == j;
    }
  }

  /** Row j of the table after closing the listed rows. */
  ghost predicate ClosedIfListed(div: Division, before: seq<Positions.Position>, after: seq<Positions.Position>, ps: PositionList) {
    && |after| == |before|
    && (forall j :: 0 <= j < |before| ==> Positions.Valid(before[j]))
    && (forall j :: 0 <= j < |before| && Listed(ps, j) ==> before[j].isOpen && after[j] == ClosedRow(div, before[j]))
    && (forall j :: 0 <= j < |before| && !Listed(ps, j) ==> after[j] == before[j])
  }

  lemma CloseOneMore(div: Division, t: Tables, t1: Tables, ps: PositionList)
    requires ps != [] && Positions.Valid(ps[|ps| - 1].1)
    requires Listing(t.positions, ps) && ClosedIfListed(div, t.positions, t1.positions, ps[..|ps| - 1])
    ensures CloseOne(div, t1, ps[|ps| - 1]).Some?
    ensures var t' := CloseOne(div, t1, ps[|ps| - 1]).value;
            t' == t1.(positions := t'.positions) && ClosedIfListed(div, t.positions, t'.positions, ps)
  {
    var before, last := ps[..|ps| - 1], ps[|ps| - 1];
    assert !Listed(before, last.0);
    ClosedRowIsClosed(div, last.1);
    assert CloseOne(div, t1, last) == UpdatePosition(t1, last.0, ClosedRow(div, last.1));
    forall j | 0 <= j < |t.positions|
      ensures Listed(ps, j) <==> Listed(before, j) || j == last.0
    {
      ListedByOneMore(ps, j);
    }
  }

  /** Closing a listing closes exactly the listed rows and touches nothing else. */
  lemma {:induction false} ClosingClosesTheListed(div: Division, t: Tables, ps: PositionList)
    requires PositionsOk(t.positions) && Listing(t.positions, ps) && AllValid(ps)
    ensures ClosePositions(div, t, ps).Some?
    ensures var t' := ClosePositions(div, t, ps).value;
            t' == t.(positions := t'.positions) && ClosedIfListed(div, t.positions, t'.positions, ps)
  {
    if ps != [] {
      ClosingClosesTheListed(div, t, ps[..|ps| - 1]);
      CloseOneMore(div, t, ClosePositions(div, t, ps[..|ps| - 1]).value, ps);
    }
  }

  /** Closing never touches the account, the mode or the orders, whatever the list. */
  lemma {:induction false} ClosingFrame(div: Division, t: Tables, ps: PositionList)
    requires AllValid(ps) && ClosePositions(div, t, ps).Some?
    ensures var t' := ClosePositions(div, t, ps).value; t' == t.(positions := t'.positions) && |t'.positions| == |t.positions|
  {
    if ps != [] {
      ClosingFrame(div, t, ps[..|ps| - 1]);
    }
  }

  /** Orders as they were once stored, each listed once. */
  ghost predicate OrderSnapshots(orders: seq<Orders.Order>, os: OrderList) {
    && (forall n :: 0 <= n < |os| ==>
          os[n].0 < |orders| && FreshOrder(os[n].1, orders[os[n].0]) && Orders.LifecycleOk(os[n].1))
    && (forall n, m :: 0 <= n < m < |os| ==> os[n].0 != os[m].0)
  }

  lemma {:induction false} OpenOrdersAreSnapshots(orders: seq<Orders.Order>)
    requires OrdersOk(orders)
    ensures OrderSnapshots(orders, OpenOrders(orders))
  {
    if orders != [] {
      var n := |orders| - 1;
      OpenOrdersAreSnapshots(orders[..n]);
      var os, older := OpenOrders(orders), OpenOrders(orders[..n]);
      var shift := |os| - |older|;
      assert forall m :: shift <= m < |os| ==> os[m] == older[m - shift];
    }
  }

  /** An order that may still change: none of FILLED, CANCELLED, REJECTED, FAILED. */
  predicate MayChange(s: Orders.Status) { s.Pending? || s.Submitted? || s.PartiallyFilled? || s.Unknown? }

  ghost predicate OrderListed(os: OrderList, i: nat) { exists n :: 0 <= n < |os| && os[n].0 == i }

  /** Exactly the rows that may still change, as stored, each once. */
  ghost predicate ListsOpenOrders(orders: seq<Orders.Order>, os: OrderList) {
    && (forall n :: 0 <= n < |os| ==> os[n].0 < |orders| && os[n].1 == orders[os[n].0] && MayChange(os[n].1.status))
    && (forall n, m :: 0 <= n < m < |os| ==> os[n].0 != os[m].0)
    && (forall i :: 0 <= i < |orders| && MayChange(orders[i].status) ==> OrderListed(os, i))
  }

  lemma {:induction false} OpenOrdersListsOpen(orders: seq<Orders.Order>, n: nat)
    requires n < |OpenOrders(orders)|
    ensures var (i, o) := OpenOrders(orders)[n]; i < |orders| && o == orders[i] && MayChange(o.status)
  {
    var last := |orders| - 1;
    var os, older := OpenOrders(orders), OpenOrders(orders[..last]);
    var shift := |os| - |older|;
    if n >= shift {
      OpenOrdersListsOpen(orders[..last], n - shift);
      assert os[n] == older[n - shift];
    }
  }

  lemma {:induction false} OpenOrdersListsAll(orders: seq<Orders.Order>, i: nat)
    requires i < |orders| && MayChange(orders[i].status)
    ensures OrderListed(OpenOrders(orders), i)
  {
    var last := |orders| - 1;
    var os, older := OpenOrders(orders), OpenOrders(orders[..last]);
    if i < last {
      OpenOrdersListsAll(orders[..last], i);
      var m :| 0 <= m < |older| && older[m].0 == i;
      assert os[m + |os| - |older|] == older[m];
    } else {
      assert os[0].0 == i;
    }
  }

  lemma OpenOrdersIsComplete(orders: seq<Orders.Order>)
    requires OrdersOk(orders)
    ensures ListsOpenOrders(orders, OpenOrders(orders))
  {
    var os := OpenOrders(orders);
    OpenOrdersAreSnapshots(orders);
    forall n | 0 <= n < |os|
      ensures os[n].0 < |orders| && os[n].1 == orders[os[n].0] && MayChange(os[n].1.status)
    {
      OpenOrdersListsOpen(orders, n);
    }
    forall i | 0 <= i < |orders| && MayChange(orders[i].status)
      ensures OrderListed(os, i)
    {
      OpenOrdersListsAll(orders, i);
    }
  }

  lemma {:induction false} CancellingIsSound(t: Tables, os: OrderList)
    requires RecordsOk(t) && OrderSnapshots(t.orders, os) && CancelOrders(t, os).Some?
    ensures var t' := CancelOrders(t, os).value;
            && RecordsOk(t') && t' == t.(orders := t'.orders) && |t'.orders| == |t.orders|
            && (forall k :: 0 <= k < |t.orders| ==> FreshOrder(t.orders[k], t'.orders[k]))
  {
    if os != [] {
      var before, last := os[..|os| - 1], os[|os| - 1];
      CancellingIsSound(t, before);
      var t1 := CancelOrders(t, before).value;
      if Orders.Accepts(last.1, Orders.Cancel) {
        assert FreshOrder(t.orders[last.0], t1.orders[last.0]);
        QuietUpdateIsSound(t1, last.0, last.1, Orders.Cancel);
      }
    }
  }

  lemma ClosedRecordsAreSound(div: Division, t: Tables, t1: Tables)
    requires RecordsOk(t) && t1 == t.(positions := t1.positions) && |t1.positions| == |t.positions|
    requires forall j :: 0 <= j < |t.positions| ==>
               t1.positions[j] == if t.positions[j].isOpen then ClosedRow(div, t.positions[j]) else t.positions[j]
    ensures RecordsOk(t1) && OpenNotional(t1.positions) == 0.0
  {
    forall j | 0 <= j < |t.positions|
      ensures !t1.positions[j].isOpen && Positions.Valid(t1.positions[j]) && t1.positions[j].version >= 1
      ensures FillOk(t1.orders, t1.executions[j], t1.positions[j])
    {
      assert FillOk(t.orders, t.executions[j], t.positions[j]);
      if t.positions[j].isOpen { ClosedRowIsClosed(div, t.positions[j]); }
    }
    NothingOpen(t1.positions);
  }

  /** A committed reset ran on the account row it had read, so it closed every OPEN position there was. */
  lemma ResetIsSound(div: Division, t: Tables, acct: Accounts.Account, ps: PositionList, os: OrderList, start: real)
    requires TablesOk(t) && start > 0.0 && AllValid(ps)
    requires FreshAccount(acct, t.account) && acct.mode.Paper?
    requires acct.version == t.account.version ==> Complete(t.positions, ps)
    requires OrderSnapshots(t.orders, os)
    requires ResetOf(div, t, acct, ps, os, start).Some?
    ensures var t' := ResetOf(div, t, acct, ps, os, start).value;
            && TablesOk(t') && Evolves(t, t')
            && OpenNotional(t'.positions) == 0.0 && t'.account.available == t'.account.balance == start
  {
    var renewed := Accounts.NewPaperAccount(start).value.(version := acct.version + 1);
    var t1 := ClosePositions(div, t, ps).value;
    ClosingFrame(div, t, ps);
    var t2 := CancelOrders(t1, os).value;
    CancelFrame(t1, os);
    assert acct == t.account;
    ClosingClosesTheListed(div, t, ps);
    ListedIsOpen(t.positions, ps);
    ClosedRecordsAreSound(div, t, t1);
    CancellingIsSound(t1, os);
  }

  /** Cancelling writes order rows and audit rows only. */
  lemma {:induction false} CancelFrame(t: Tables, os: OrderList)
    requires CancelOrders(t, os).Some?
    ensures var t' := CancelOrders(t, os).value;
            t' == t.(orders := t'.orders, executions := t'.executions) && |t'.orders| == |t.orders|
  {
    if os != [] {
      CancelFrame(t, os[..|os| - 1]);
    }
  }

  lemma ListedIsOpen(positions: seq<Positions.Position>, ps: PositionList)
    requires Complete(positions, ps)
    ensures forall j :: 0 <= j < |positions| ==> (Listed(ps, j) <==> positions[j].isOpen)
  {
  }
}

/**
 * The tables, the statements the repositories run against them, and the transactions the use cases commit.
 * None stands for an error: a lost version race, a unique index, a refused domain call. It rolls everything back.
 */
module Storage {
  import opened Primitives
  import Operation
  import Orders
  import Positions
  import Accounts

  /** An audit row of order_executions. */
  datatype Execution = Execution(order: nat, quantity: Quantity, price: Price)

  datatype Event =
    | OrderCreated(order: nat)
    | OrderSubmitted(order: nat)
    | OrderFilled(order: nat)
    | PositionOpened(position: nat)
    | KillSwitchActivated

  /** Orders and positions are never deleted, so a row's place in its table serves as its id. */
  datatype Tables = Tables(
    account: Accounts.Account,
    mode: Operation.ModeRow,
    orders: seq<Orders.Order>,
    positions: seq<Positions.Position>,
    executions: seq<Execution>,
    outbox: seq<Event>,
    keys: map<Orders.ClientId, nat>)

  // ----- statements

  predicate HasClientId(orders: seq<Orders.Order>, c: Orders.ClientId) {
    exists i :: 0 <= i < |orders| && orders[i].clientId == c
  }

  predicate HasOpen(positions: seq<Positions.Position>, s: Symbol) {
    exists j :: 0 <= j < |positions| && positions[j].isOpen && positions[j].symbol == s
  }

  function SaveAccount(t: Tables, a: Accounts.Account): Option<Tables> {
    if t.account.version + 1 != a.version then None else Some(t.(account := a))
  }

  function SaveMode(t: Tables, m: Operation.ModeRow): Option<Tables> {
    if t.mode.version + 1 != m.version then None else Some(t.(mode := m))
  }

  /** Save of an order whose id is new: the unique index on client_order_id decides. */
  function InsertOrder(t: Tables, o: Orders.Order): Option<Tables> {
    if HasClientId(t.orders, o.clientId) then None else Some(t.(orders := t.orders + [o]))
  }

  function StoredOrder(row: Orders.Order, o: Orders.Order): Orders.Order {
    row.(brokerId := o.brokerId, filled := o.filled, averagePrice := o.averagePrice, status := o.status,
         failureReason := o.failureReason, version := o.version)
  }

  /** Save of a known order: compare-and-set on the version, plus the audit row of a fill. */
  function UpdateOrder(t: Tables, i: nat, o: Orders.Order): Option<Tables> {
    if i >= |t.orders| || t.orders[i].version + 1 != o.version then None
    else
      var saved := t.(orders := t.orders[i := StoredOrder(t.orders[i], o)]);
      Some(if (o.status.Filled? || o.status.PartiallyFilled?) && o.averagePrice.Some?
           then saved.(executions := t.executions + [Execution(i, o.filled, o.averagePrice.value)])
           else saved)
  }

  /** Save of a new position: the unique index admits one OPEN position per symbol. */
  function InsertPosition(t: Tables, p: Positions.Position): Option<Tables> {
    if p.isOpen && HasOpen(t.positions, p.symbol) then None else Some(t.(positions := t.positions + [p]))
  }

  function StoredPosition(row: Positions.Position, p: Positions.Position): Positions.Position {
    row.(quantity := p.quantity, current := p.current, unrealized := p.unrealized, realized := p.realized,
         isOpen := p.isOpen, version := p.version)
  }

  function UpdatePosition(t: Tables, j: nat, p: Positions.Position): Option<Tables> {
    if j >= |t.positions| || t.positions[j].version + 1 != p.version then None
    else Some(t.(positions := t.positions[j := StoredPosition(t.positions[j], p)]))
  }

  function Emit(t: Tables, e: Event): Tables { t.(outbox := t.outbox + [e]) }

  /** Ten minutes, in the clock's milliseconds. */
  const RESERVATION_TTL := 600000

  /** The idempotency key is taken when it is new or has lapsed. */
  predicate Reservable(t: Tables, c: Orders.ClientId, now: nat) { c in t.keys ==> t.keys[c] < now }

  function Reserve(t: Tables, c: Orders.ClientId, now: nat): Tables {
    if Reservable(t, c, now) then t.(keys := t.keys[c := now + RESERVATION_TTL]) else t
  }

  // ----- reads

  type PositionList = seq<(nat, Positions.Position)>
  type OrderList = seq<(nat, Orders.Order)>

  /** ListOpen, newest first. */
  function OpenPositions(positions: seq<Positions.Position>): PositionList {
    if positions == [] then []
    else
      var n := |positions| - 1;
      (if positions[n].isOpen then [(n, positions[n])] else []) + OpenPositions(positions[..n])
  }

  function OpenOrders(orders: seq<Orders.Order>): OrderList {
    if orders == [] then []
    else
      var n := |orders| - 1;
      (if Orders.IsTerminal(orders[n].status) then [] else [(n, orders[n])]) + OpenOrders(orders[..n])
  }

  // ----- transactions

  function PendingTx(t: Tables, o: Orders.Order): Option<Tables> {
    var t1 :- InsertOrder(t, o);
    Some(Emit(t1, OrderCreated(|t.orders|)))
  }

  function SubmitTx(t: Tables, i: nat, o: Orders.Order): Option<Tables> {
    var t1 :- UpdateOrder(t, i, o);
    Some(Emit(t1, OrderSubmitted(i)))
  }

  function FillTx(t: Tables, i: nat, o: Orders.Order, p: Positions.Position, a: Accounts.Account): Option<Tables> {
    var t1 :- UpdateOrder(t, i, o);
    var t2 :- InsertPosition(t1, p);
    var t3 :- SaveAccount(t2, a);
    Some(Emit(Emit(t3, OrderFilled(i)), PositionOpened(|t.positions|)))
  }

  function ModeTx(t: Tables, m: Operation.ModeRow, a: Accounts.Account, kill: bool): Option<Tables> {
    var t1 :- SaveMode(t, m);
    var t2 :- SaveAccount(t1, a);
    Some(if kill then Emit(t2, KillSwitchActivated) else t2)
  }

  predicate AllValid(ps: PositionList) { forall n :: 0 <= n < |ps| ==> Positions.Valid(ps[n].1) }

  function CloseOne(div: Division, t: Tables, p: (nat, Positions.Position)): Option<Tables>
    requires Positions.Valid(p.1)
  {
    var closed :- Positions.Close(div, p.1, p.1.current);
    UpdatePosition(t, p.0, closed)
  }

  function ClosePositions(div: Division, t: Tables, ps: PositionList): Option<Tables>
    requires AllValid(ps)
  {
    if ps == [] then Some(t)
    else
      var t1 :- ClosePositions(div, t, ps[..|ps| - 1]);
      CloseOne(div, t1, ps[|ps| - 1])
  }

  /** An order that may not be cancelled is passed over. */
  function CancelOne(t: Tables, o: (nat, Orders.Order)): Option<Tables> {
    if !Orders.Accepts(o.1, Orders.Cancel) then Some(t) else UpdateOrder(t, o.0, Orders.Apply(o.1, Orders.Cancel))
  }

  function CancelOrders(t: Tables, os: OrderList): Option<Tables> {
    if os == [] then Some(t)
    else
      var t1 :- CancelOrders(t, os[..|os| - 1]);
      CancelOne(t1, os[|os| - 1])
  }

  function ResetTx(div: Division, t: Tables, ps: PositionList, os: OrderList, renewed: Accounts.Account): Option<Tables>
    requires AllValid(ps)
  {
    var t1 :- ClosePositions(div, t, ps);
    var t2 :- CancelOrders(t1, os);
    SaveAccount(t2, renewed)
  }

  /** The fill transaction with its three rows computed from an order, a price and an account snapshot. */
  function FillOf(t: Tables, i: nat, o: Orders.Order, price: Price, acct: Accounts.Account): Option<Tables> {
    FillTx(t, i, Orders.Apply(o, Orders.MarkFilled(price)), Positions.Open(o.symbol, o.side, o.quantity, price),
           Accounts.Apply(acct, Accounts.ReserveMargin(o.quantity * price)))
  }

  /** The reset transaction with its renewed account. */
  function ResetOf(div: Division, t: Tables, acct: Accounts.Account, ps: PositionList, os: OrderList, start: real): Option<Tables>
    requires AllValid(ps) && start > 0.0
  {
    ResetTx(div, t, ps, os, Accounts.NewPaperAccount(start).value.(version := acct.version + 1))
  }

  // ----- the database as it runs: statements in place, rolled back together

  class Database {
    var account: Accounts.Account
    var mode: Operation.ModeRow
    var orders: seq<Orders.Order>
    var positions: seq<Positions.Position>
    var executions: seq<Execution>
    var outbox: seq<Event>
    var keys: map<Orders.ClientId, nat>

    function Contents(): Tables
      reads this
    {
      Tables(account, mode, orders, positions, executions, outbox, keys)
    }

    constructor (account: Accounts.Account)
      ensures Contents() == Tables(account, Operation.INITIAL_ROW, [], [], [], [], map[])
    {
      this.account, mode := account, Operation.INITIAL_ROW;
      orders, positions, executions, outbox, keys := [], [], [], [], map[];
    }

    /** Restores what a failed transaction had begun to write. */
    method Rollback(t: Tables)
      modifies this
      ensures Contents() == t
    {
      account, mode, orders, positions := t.account, t.mode, t.orders, t.positions;
      executions, outbox, keys := t.executions, t.outbox, t.keys;
    }

    method WriteAccount(a: Accounts.Account) returns (ok: bool)
      modifies `account
      ensures ok <==> SaveAccount(old(Contents()), a).Some?
      ensures Contents() == if ok then SaveAccount(old(Contents()), a).value else old(Contents())
    {
      ok := account.version + 1 == a.version;
      if ok { account := a; }
    }

    method WriteMode(m: Operation.ModeRow) returns (ok: bool)
      modifies `mode
      ensures ok <==> SaveMode(old(Contents()), m).Some?
      ensures Contents() == if ok then SaveMode(old(Contents()), m).value else old(Contents())
    {
      ok := mode.version + 1 == m.version;
      if ok { mode := m; }
    }

    method WriteOrder(i: nat, o: Orders.Order) returns (ok: bool)
      modifies `orders, `executions
      ensures ok <==> UpdateOrder(old(Contents()), i, o).Some?
      ensures Contents() == if ok then UpdateOrder(old(Contents()), i, o).value else old(Contents())
    {
      if i >= |orders| || orders[i].version + 1 != o.version { return false; }
      orders := orders[i := StoredOrder(orders[i], o)];
      if (o.status.Filled? || o.status.PartiallyFilled?) && o.averagePrice.Some? {
        executions := executions + [Execution(i, o.filled, o.averagePrice.value)];
      }
      return true;
    }

    method AddPosition(p: Positions.Position) returns (ok: bool)
      modifies `positions
      ensures ok <==> InsertPosition(old(Contents()), p).Some?
      ensures Contents() == if ok then InsertPosition(old(Contents()), p).value else old(Contents())
    {
      if p.isOpen && HasOpen(positions, p.symbol) { return false; }
      positions := positions + [p];
      return true;
    }

    method WritePosition(j: nat, p: Positions.Position) returns (ok: bool)
      modifies `positions
      ensures ok <==> UpdatePosition(old(Contents()), j, p).Some?
      ensures Contents() == if ok then UpdatePosition(old(Contents()), j, p).value else old(Contents())
    {
      if j >= |positions| || positions[j].version + 1 != p.version { return false; }
      positions := positions[j := StoredPosition(positions[j], p)];
      return true;
    }

    method TakeKey(c: Orders.ClientId, now: nat) returns (reserved: bool)
      modifies `keys
      ensures reserved <==> Reservable(old(Contents()), c, now)
      ensures Contents() == Reserve(old(Contents()), c, now)
    {
      if c in keys && keys[c] >= now { return false; }
      keys := keys[c := now + RESERVATION_TTL];
      return true;
    }

    method CommitPending(o: Orders.Order) returns (ok: bool)
      modifies this
      ensures ok <==> PendingTx(old(Contents()), o).Some?
      ensures Contents() == if ok then PendingTx(old(Contents()), o).value else old(Contents())
    {
      if HasClientId(orders, o.clientId) { return false; }
      orders := orders + [o];
      outbox := outbox + [OrderCreated(|orders| - 1)];
      return true;
    }

    method CommitSubmitted(i: nat, o: Orders.Order) returns (ok: bool)
      modifies this
      ensures ok <==> SubmitTx(old(Contents()), i, o).Some?
      ensures Contents() == if ok then SubmitTx(old(Contents()), i, o).value else old(Contents())
    {
      ok := WriteOrder(i, o);
      if ok { outbox := outbox + [OrderSubmitted(i)]; }
    }

    method CommitFill(i: nat, o: Orders.Order, p: Positions.Position, a: Accounts.Account) returns (ok: bool)
      modifies this
      ensures ok <==> FillTx(old(Contents()), i, o, p, a).Some?
      ensures Contents() == if ok then FillTx(old(Contents()), i, o, p, a).value else old(Contents())
    {
      var before := Contents();
      ok := WriteOrder(i, o);
      if !ok { return; }
      ok := AddPosition(p);
      if !ok { Rollback(before); return; }
      ok := WriteAccount(a);
      if !ok { Rollback(before); return; }
      outbox := outbox + [OrderFilled(i)];
      outbox := outbox + [PositionOpened(|positions| - 1)];
    }

    method CommitMode(m: Operation.ModeRow, a: Accounts.Account, kill: bool) returns (ok: bool)
      modifies this
      ensures ok <==> ModeTx(old(Contents()), m, a, kill).Some?
      ensures Contents() == if ok then ModeTx(old(Contents()), m, a, kill).value else old(Contents())
    {
      var before := Contents();
      ok := WriteMode(m);
      if !ok { return; }
      ok := WriteAccount(a);
      if !ok { Rollback(before); return; }
      if kill { outbox := outbox + [KillSwitchActivated]; }
    }

    /** The reset transaction: two loops of compare-and-set writes, then the account; one lost race undoes them all. */
    method CommitReset(div: Division, ps: PositionList, os: OrderList, renewed: Accounts.Account) returns (ok: bool)
      requires AllValid(ps)
      modifies this
      ensures ok <==> ResetTx(div, old(Contents()), ps, os, renewed).Some?
      ensures Contents() == if ok then ResetTx(div, old(Contents()), ps, os, renewed).value else old(Contents())
    {
      var before := Contents();
      for n := 0 to |ps|
        invariant ClosePositions(div, before, ps[..n]) == Some(Contents())
      {
        assert ps[..n + 1][..n] == ps[..n];
        var closed := Positions.Close(div, ps[n].1, ps[n].1.current);
        ok := closed.Some?;
        if ok { ok := WritePosition(ps[n].0, closed.value); }
        if !ok {
          CloseFailureIsFinal(div, before, ps, n + 1);
          Rollback(before);
          return;
        }
      }
      assert ps[..|ps|] == ps;
      ghost var middle := Contents();
      for n := 0 to |os|
        invariant CancelOrders(middle, os[..n]) == Some(Contents())
      {
        assert os[..n + 1][..n] == os[..n];
        if Orders.Accepts(os[n].1, Orders.Cancel) {
          ok := WriteOrder(os[n].0, Orders.Apply(os[n].1, Orders.Cancel));
          if !ok {
            CancelFailureIsFinal(middle, os, n + 1);
            Rollback(before);
            return;
          }
        }
      }
      assert os[..|os|] == os;
      ok := WriteAccount(renewed);
      if !ok { Rollback(before); }
    }
  }

  lemma {:induction false} CloseFailureIsFinal(div: Division, t: Tables, ps: PositionList, n: nat)
    requires AllValid(ps) && n <= |ps| && ClosePositions(div, t, ps[..n]).None?
    ensures ClosePositions(div, t, ps).None?
    decreases |ps|
  {
    if n < |ps| {
      assert ps[..|ps| - 1][..n] == ps[..n];
      CloseFailureIsFinal(div, t, ps[..|ps| - 1], n);
    } else {
      assert ps[..n] == ps;
    }
  }

  lemma {:induction false} CancelFailureIsFinal(t: Tables, os: OrderList, n: nat)
    requires n <= |os| && CancelOrders(t, os[..n]).None?
    ensures CancelOrders(t, os).None?
    decreases |os|
  {
    if n < |os| {
      assert os[..|os| - 1][..n] == os[..n];
      CancelFailureIsFinal(t, os[..|os| - 1], n);
    } else {
      assert os[..n] == os;
    }
  }
}

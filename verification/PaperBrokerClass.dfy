/** The simulator as the mutable object the use cases call, proved against the ledger functions. */
module PaperBrokerObject {
  import opened Primitives
  import opened PaperBroker

  /** The book valued at the last price each symbol traded at. */
  ghost function LastMarks(m: map<Symbol, BrokerPosition>): Marks {
    (s: Symbol) => if s in m then m[s].mark else 0.0
  }

  function AtLastMark(p: BrokerPosition): real {
    (if p.side.Sell? then -(p.mark - p.entry) else p.mark - p.entry) * p.quantity
  }

  lemma WorthAtLastMark(m: map<Symbol, BrokerPosition>, s: Symbol)
    requires s in m
    ensures PositionValue(LastMarks(m))(s, m[s]) == AtLastMark(m[s])
  {
  }

  class Broker {
    const start: real
    const feePct: real
    const slippagePct: real
    const div: Division
    var balance: real
    var positions: map<Symbol, BrokerPosition>
    var orders: map<BrokerId, BrokerOrder>
    var byClientId: map<string, BrokerId>
    var sequence: nat

    function State(): Ledger
      reads this
    {
      Ledger(start, feePct, slippagePct, div, balance, positions, orders, byClientId, sequence)
    }

    constructor (start: real, feePct: real, slippagePct: real, div: Division)
      ensures State() == NewLedger(start, feePct, slippagePct, div)
      ensures Valid(State())
    {
      this.start, this.feePct, this.slippagePct, this.div := start, feePct, slippagePct, div;
      balance, positions, orders, byClientId, sequence := start, map[], map[], map[], 0;
    }

    method ResetAll()
      modifies this
      ensures State() == Reset(old(State()))
      ensures Valid(State())
    {
      balance := start;
      positions, orders, byClientId := map[], map[], map[];
      sequence := 0;
    }

    method ApplyFill(symbol: Symbol, side: Side, quantity: Lot, price: Price)
      requires HoldsSomething(positions)
      modifies `positions, `balance
      ensures positions == Store(old(positions), symbol, Fold(div, Held(old(positions), symbol), side, quantity, price))
      ensures balance == old(balance) + Realized(Held(old(positions), symbol), side, quantity, price)
    {
      if symbol !in positions {
        positions := positions[symbol := BrokerPosition(side, quantity, price, price)];
        return;
      }
      var existing := positions[symbol];
      if existing.side == side {
        var average := AverageEntry(div, existing.quantity, existing.entry, quantity, price);
        positions := positions[symbol := BrokerPosition(side, existing.quantity + quantity, average, price)];
        return;
      }
      var closed: Quantity := quantity;
      if quantity > existing.quantity { closed := existing.quantity; }
      balance := balance + existing.side.Sign() * (price - existing.entry) * closed;
      var remaining := existing.quantity - closed;
      if remaining == 0.0 {
        if quantity - closed > 0.0 {
          positions := positions[symbol := BrokerPosition(side, quantity - closed, price, price)];
          return;
        }
        positions := positions - {symbol};
        return;
      }
      positions := positions[symbol := BrokerPosition(existing.side, remaining, existing.entry, price)];
    }

    method Execute(r: PlaceRequest) returns (fill: Option<BrokerOrder>)
      ensures fill == Quote(State(), r)
    {
      if r.price.None? { return None; }
      var slipped := ApplySlippage(r.price.value, r.side, slippagePct);
      if slipped.None? { return None; }
      var price := slipped.value;
      var notional := r.quantity * price;
      var fee := notional * feePct;
      if balance < notional + fee { return None; }
      return Some(BrokerOrder(r.clientId, r.symbol, r.side, r.kind, r.quantity, r.quantity, price, Filled));
    }

    method Book(id: BrokerId, o: BrokerOrder)
      requires HoldsSomething(positions) && o.filled > 0.0
      modifies this
      ensures State() == Fill(old(State()), id, o)
    {
      balance := balance - FeeOf(o, feePct);
      ApplyFill(o.symbol, o.side, o.filled, o.averagePrice);
      orders := orders[id := o];
      byClientId := byClientId[o.clientId := id];
      sequence := sequence + 1;
    }

    method PlaceOrder(r: PlaceRequest) returns (reply: Option<BrokerOrder>)
      requires Valid(State())
      modifies this
      ensures (State(), reply) == Place(old(State()), r)
      ensures Valid(State())
    {
      if r.clientId in byClientId {
        return Some(orders[byClientId[r.clientId]]);
      }
      reply := Execute(r);
      if reply.Some? {
        FillIsValid(State(), BrokerId.Order(sequence + 1), reply.value);
        Book(BrokerId.Order(sequence + 1), reply.value);
      }
    }

    method PlaceRestingStop(r: StopRequest) returns (reply: BrokerOrder)
      requires Valid(State())
      modifies this
      ensures (State(), reply) == PlaceStop(old(State()), r)
      ensures Valid(State())
      ensures r.clientId in byClientId && orders[byClientId[r.clientId]] == reply
    {
      StopIsValid(State(), r);
      if r.clientId in byClientId {
        return orders[byClientId[r.clientId]];
      }
      sequence := sequence + 1;
      reply := BrokerOrder(r.clientId, r.symbol, r.side, "STOP_MARKET", r.quantity, 0.0, r.stopPrice, New);
      orders := orders[BrokerId.Stop(sequence) := reply];
      byClientId := byClientId[r.clientId := BrokerId.Stop(sequence)];
    }

    method CancelOrder(id: BrokerId) returns (found: bool)
      requires Valid(State())
      modifies `orders
      ensures (State(), found) == Cancel(old(State()), id)
      ensures Valid(State())
    {
      CancelIsValid(State(), id);
      if id !in orders { return false; }
      orders := orders[id := orders[id].(status := Cancelled)];
      return true;
    }

    method FindOrderByClientOrderId(clientId: string) returns (reply: Option<BrokerOrder>)
      requires Valid(State())
      ensures reply.Some? <==> exists id :: id in orders && orders[id].clientId == clientId
      ensures reply.Some? ==> reply.value.clientId == clientId && reply.value in orders.Values
    {
      if clientId !in byClientId {
        assert forall id :: id in orders ==> orders[id].clientId in byClientId;
        return None;
      }
      assert byClientId[clientId] in orders && orders[byClientId[clientId]].clientId == clientId;
      return Some(orders[byClientId[clientId]]);
    }

    /** Equity is the balance plus the whole book valued at each symbol's last price. */
    method GetAccount() returns (cash: real, equity: real)
      ensures cash == balance
      ensures equity == EquityAt(State(), LastMarks(positions))
    {
      cash, equity := balance, balance;
      forall s | s in positions
        ensures PositionValue(LastMarks(positions))(s, positions[s]) == AtLastMark(positions[s])
      {
        WorthAtLastMark(positions, s);
      }
      var book := SumBook(PositionValue(LastMarks(positions)));
      equity := equity + book;
    }

    method SumBook(ghost worth: Worth) returns (total: real)
      requires forall s :: s in positions ==> worth(s, positions[s]) == AtLastMark(positions[s])
      ensures total == SumMap(positions, worth)
    {
      total := 0.0;
      var rest := positions;
      while rest != map[]
        invariant forall s :: s in rest ==> s in positions && rest[s] == positions[s]
        invariant total + SumMap(rest, worth) == SumMap(positions, worth)
        decreases |rest|
      {
        var s :| s in rest;
        SumRemove(rest, worth, s);
        total := total + AtLastMark(rest[s]);
        rest := rest - {s};
      }
    }
  }

  /**
   * What GetAccount reports after any calls: the starting balance, less all fees, plus every fill since the
   * last reset valued at its symbol's last price, up to the drift of the averaged entries.
   */
  lemma ReportedEquity(start: real, feePct: real, slippagePct: real, div: Division, eps: real, calls: seq<Call>)
    requires eps >= 0.0 && Rounds(div, eps)
    ensures Valid(NewLedger(start, feePct, slippagePct, div))
    ensures var first := NewLedger(start, feePct, slippagePct, div);
            var b := Run(first, calls);
            var marks := LastMarks(b.positions);
            Abs(EquityAt(b, marks) - FillHistory(b, marks)) <= Allowance(first, calls, eps)
  {
    var b := Run(NewLedger(start, feePct, slippagePct, div), calls);
    LedgerWithRounding(start, feePct, slippagePct, div, eps, calls, LastMarks(b.positions));
  }
}

/** The in-process simulator (internal/infrastructure/external/broker/paper). */
module PaperBroker {
  import opened Primitives
  import Positions

  /** The two identifier families the sequence counter is rendered into. */
  datatype BrokerId = Order(n: nat) | Stop(n: nat)

  datatype RawStatus = New | Filled | Cancelled

  datatype BrokerOrder = BrokerOrder(
    clientId: string,
    symbol: Symbol,
    side: Side,
    kind: string,
    quantity: Lot,
    filled: Quantity,
    averagePrice: Price,
    status: RawStatus)

  datatype BrokerPosition = BrokerPosition(side: Side, quantity: Quantity, entry: Price, mark: Price)

  datatype PlaceRequest = PlaceRequest(
    clientId: string, symbol: Symbol, side: Side, kind: string, quantity: Lot, price: Option<Price>)

  datatype StopRequest = StopRequest(clientId: string, symbol: Symbol, side: Side, quantity: Lot, stopPrice: Price)

  /** Everything the simulator holds; the first four never change. */
  datatype Ledger = Ledger(
    start: real,
    feePct: real,
    slippagePct: real,
    div: Division,
    balance: real,
    positions: map<Symbol, BrokerPosition>,
    orders: map<BrokerId, BrokerOrder>,
    byClientId: map<string, BrokerId>,
    sequence: nat)

  function NewLedger(start: real, feePct: real, slippagePct: real, div: Division): Ledger {
    Ledger(start, feePct, slippagePct, div, start, map[], map[], map[], 0)
  }

  function Reset(b: Ledger): Ledger { NewLedger(b.start, b.feePct, b.slippagePct, b.div) }

  function ApplySlippage(reference: Price, side: Side, pct: real): Option<Price> {
    var adjusted := reference + side.Sign() * (reference * pct);
    if adjusted <= 0.0 then None else Some(adjusted)
  }

  /** The averaged entry; should the quotient round to nothing, the old entry stands. */
  function AverageEntry(div: Division, q1: Lot, e1: Price, q2: Lot, e2: Price): Price {
    var average := div(q1 * e1 + q2 * e2, q1 + q2);
    if average <= 0.0 then e1 else average
  }

  /** The true average carries the summed notional and lies between the two prices. */
  lemma AverageIsBetween(q1: Lot, e1: Price, q2: Lot, e2: Price)
    ensures var e := (q1 * e1 + q2 * e2) / (q1 + q2);
            && e * (q1 + q2) == q1 * e1 + q2 * e2
            && e > 0.0
            && if e1 <= e2 then e1 <= e <= e2 else e2 <= e <= e1
  {
    var n, q := q1 * e1 + q2 * e2, q1 + q2;
    var lo, hi := if e1 <= e2 then e1 else e2, if e1 <= e2 then e2 else e1;
    assert lo * q1 <= e1 * q1 <= hi * q1 && lo * q2 <= e2 * q2 <= hi * q2;
    assert lo * q == lo * q1 + lo * q2 && hi * q == hi * q1 + hi * q2;
    var e := n / q;
    assert e * q == n;
    assert (e - lo) * q >= 0.0 && (hi - e) * q >= 0.0;
  }

  /** How far the notional of the averaged entry may be off: the division error times the quantity, unless it fell back. */
  function AveragingAllowance(div: Division, eps: real, q1: Lot, e1: Price, q2: Lot, e2: Price): real {
    if div(q1 * e1 + q2 * e2, q1 + q2) <= 0.0 then Abs(e1 - e2) * q2 else eps * (q1 + q2)
  }

  /** What the notional of the averaged entry is off. */
  function NotionalOff(div: Division, q1: Lot, e1: Price, q2: Lot, e2: Price): real {
    AverageEntry(div, q1, e1, q2, e2) * (q1 + q2) - (q1 * e1 + q2 * e2)
  }

  lemma FallbackIsOff(q1: real, e1: real, q2: real, e2: real)
    requires q2 > 0.0
    ensures Abs(e1 * (q1 + q2) - (q1 * e1 + q2 * e2)) == Abs(e1 - e2) * q2
  {
    assert e1 * (q1 + q2) - (q1 * e1 + q2 * e2) == (e1 - e2) * q2;
    if e1 >= e2 {
      ProductIsNonNegative(e1 - e2, q2);
    } else {
      ProductIsNonNegative(e2 - e1, q2);
      assert (e1 - e2) * q2 == -((e2 - e1) * q2);
    }
  }

  lemma RoundedAverage(div: Division, eps: real, q1: Lot, e1: Price, q2: Lot, e2: Price)
    requires eps >= 0.0 && Rounds(div, eps)
    ensures var n, q := q1 * e1 + q2 * e2, q1 + q2;
            var exact := n / q;
            && exact - eps <= div(n, q) <= exact + eps
            && exact * q == n && exact > 0.0
            && if e1 <= e2 then e1 <= exact <= e2 else e2 <= exact <= e1
  {
    AverageIsBetween(q1, e1, q2, e2);
  }

  /** The entry as stored lies between the two prices up to the division error, and is the average if they exceed it. */
  lemma AverageWithRounding(div: Division, eps: real, q1: Lot, e1: Price, q2: Lot, e2: Price)
    requires eps >= 0.0 && Rounds(div, eps)
    ensures var e := AverageEntry(div, q1, e1, q2, e2);
            if e1 <= e2 then e1 - eps <= e <= e2 + eps else e2 - eps <= e <= e1 + eps
    ensures eps < e1 && eps < e2 ==> div(q1 * e1 + q2 * e2, q1 + q2) > 0.0
  {
    RoundedAverage(div, eps, q1, e1, q2, e2);
  }

  /** It carries their notional up to the allowance. */
  lemma NotionalWithRounding(div: Division, eps: real, q1: Lot, e1: Price, q2: Lot, e2: Price)
    requires eps >= 0.0 && Rounds(div, eps)
    ensures Abs(NotionalOff(div, q1, e1, q2, e2)) <= AveragingAllowance(div, eps, q1, e1, q2, e2)
  {
    var n, q := q1 * e1 + q2 * e2, q1 + q2;
    var average := div(n, q);
    if average <= 0.0 {
      FallbackIsOff(q1, e1, q2, e2);
    } else {
      RoundedAverage(div, eps, q1, e1, q2, e2);
      OffByAtMost(average, n / q, eps, q, n);
    }
  }

  lemma OffByAtMost(e: real, exact: real, eps: real, q: real, n: real)
    requires exact - eps <= e <= exact + eps && q > 0.0 && exact * q == n
    ensures Abs(e * q - n) <= eps * q
  {
    assert (exact + eps - e) * q >= 0.0 && (e - exact + eps) * q >= 0.0;
  }

  /** The part of a fill that closes an opposite position. */
  function Closed(e: BrokerPosition, quantity: Lot): Quantity {
    if quantity > e.quantity then e.quantity else quantity
  }

  /** The P&L a fill crystallises into the balance. */
  function Realized(existing: Option<BrokerPosition>, side: Side, quantity: Lot, price: Price): real {
    match existing
    case None => 0.0
    case Some(e) => if e.side == side then 0.0 else e.side.Sign() * (price - e.entry) * Closed(e, quantity)
  }

  /** One fill folded into one symbol's position: open, average in, reduce, close or flip. */
  function Fold(div: Division, existing: Option<BrokerPosition>, side: Side, quantity: Lot, price: Price)
    : (r: Option<BrokerPosition>)
    requires existing.Some? ==> existing.value.quantity > 0.0
    ensures r.Some? ==> r.value.quantity > 0.0
  {
    match existing
    case None => Some(BrokerPosition(side, quantity, price, price))
    case Some(e) =>
      if e.side == side then
        Some(BrokerPosition(side, e.quantity + quantity, AverageEntry(div, e.quantity, e.entry, quantity, price), price))
      else
        var closed := Closed(e, quantity);
        if e.quantity - closed == 0.0 then
          if quantity - closed > 0.0 then Some(BrokerPosition(side, quantity - closed, price, price)) else None
        else Some(e.(quantity := e.quantity - closed, mark := price))
  }

  function Held(m: map<Symbol, BrokerPosition>, s: Symbol): Option<BrokerPosition> {
    if s in m then Some(m[s]) else None
  }

  function Store(m: map<Symbol, BrokerPosition>, s: Symbol, p: Option<BrokerPosition>): map<Symbol, BrokerPosition> {
    match p
    case None => m - {s}
    case Some(v) => m[s := v]
  }

  predicate HoldsSomething(m: map<Symbol, BrokerPosition>) { forall s :: s in m ==> m[s].quantity > 0.0 }

  /** The fill a request would produce on this ledger, if it is accepted as a new order. */
  function Quote(b: Ledger, r: PlaceRequest): Option<BrokerOrder> {
    var reference :- r.price;
    var price :- ApplySlippage(reference, r.side, b.slippagePct);
    if b.balance < r.quantity * price + r.quantity * price * b.feePct then None
    else Some(BrokerOrder(r.clientId, r.symbol, r.side, r.kind, r.quantity, r.quantity, price, Filled))
  }

  function Record(b: Ledger, id: BrokerId, o: BrokerOrder): Ledger {
    b.(orders := b.orders[id := o], byClientId := b.byClientId[o.clientId := id], sequence := b.sequence + 1)
  }

  /** Books a fill's fee, its realized P&L and the position it leaves, and records the order. */
  function Post(b: Ledger, id: BrokerId, o: BrokerOrder, fee: real, realized: real, after: Option<BrokerPosition>): Ledger {
    Record(b.(balance := b.balance - fee + realized, positions := Store(b.positions, o.symbol, after)), id, o)
  }

  function FeeOf(o: BrokerOrder, pct: real): real { o.filled * o.averagePrice * pct }

  function Fill(b: Ledger, id: BrokerId, o: BrokerOrder): Ledger
    requires HoldsSomething(b.positions) && o.filled > 0.0
  {
    var held := Held(b.positions, o.symbol);
    Post(b, id, o, FeeOf(o, b.feePct), Realized(held, o.side, o.filled, o.averagePrice),
         Fold(b.div, held, o.side, o.filled, o.averagePrice))
  }

  /** PlaceOrder: the stored order again, a refusal, or a filled market order. */
  function Place(b: Ledger, r: PlaceRequest): (Ledger, Option<BrokerOrder>)
    requires Indexed(b) && HoldsSomething(b.positions)
  {
    if r.clientId in b.byClientId then (b, Some(b.orders[b.byClientId[r.clientId]]))
    else
      match Quote(b, r)
      case None => (b, None)
      case Some(o) => (Fill(b, Order(b.sequence + 1), o), Some(o))
  }

  function PlaceStop(b: Ledger, r: StopRequest): (Ledger, BrokerOrder)
    requires Indexed(b)
  {
    if r.clientId in b.byClientId then (b, b.orders[b.byClientId[r.clientId]])
    else
      var o := BrokerOrder(r.clientId, r.symbol, r.side, "STOP_MARKET", r.quantity, 0.0, r.stopPrice, New);
      (Record(b, Stop(b.sequence + 1), o), o)
  }

  function Cancel(b: Ledger, id: BrokerId): (Ledger, bool) {
    if id !in b.orders then (b, false)
    else (b.(orders := b.orders[id := b.orders[id].(status := Cancelled)]), true)
  }

  /** Client ids and stored orders correspond one to one, and the counter numbers the orders. */
  ghost predicate IsIndex(orders: map<BrokerId, BrokerOrder>, byClientId: map<string, BrokerId>, sequence: nat) {
    && (forall c :: c in byClientId ==> byClientId[c] in orders && orders[byClientId[c]].clientId == c)
    && (forall id :: id in orders ==> orders[id].clientId in byClientId && byClientId[orders[id].clientId] == id)
    && (forall id :: id in orders ==> 1 <= id.n <= sequence)
    && |orders| == sequence && |byClientId| == sequence
  }

  ghost predicate Indexed(b: Ledger) { IsIndex(b.orders, b.byClientId, b.sequence) }

  // ----- at what price a placement fills, and when it is refused

  /** The reference price moved against the order: up for a buyer, down for a seller. */
  function Slipped(reference: Price, side: Side, pct: real): real {
    if side.Buy? then reference * (1.0 + pct) else reference * (1.0 - pct)
  }

  /** A buyer never fills below the reference and a seller never above it. */
  lemma SlippageIsAdverse(reference: Price, side: Side, pct: real)
    requires pct >= 0.0
    ensures if side.Buy? then Slipped(reference, side, pct) >= reference else Slipped(reference, side, pct) <= reference
  {
    ProductIsNonNegative(reference, pct);
  }

  lemma Distributes(x: real, y: real)
    ensures x * (1.0 + y) == x + x * y && x * (1.0 - y) == x - x * y
  {
  }

  lemma SignTimes(side: Side, x: real)
    ensures side.Sign() * x == if side.Buy? then x else -x
  {
  }

  lemma SlippageIs(reference: Price, side: Side, pct: real)
    ensures ApplySlippage(reference, side, pct)
         == if Slipped(reference, side, pct) > 0.0 then Some(Slipped(reference, side, pct)) else None
  {
    Distributes(reference, pct);
    SignTimes(side, reference * pct);
    var adjusted := reference + side.Sign() * (reference * pct);
    assert adjusted == Slipped(reference, side, pct);
  }

  /** The balance covers notional and fee at this price. */
  predicate Affords(b: Ledger, quantity: Lot, price: real) {
    b.balance >= quantity * price + b.feePct * (quantity * price)
  }

  lemma QuoteAt(b: Ledger, r: PlaceRequest, price: Price)
    requires r.price.Some? && ApplySlippage(r.price.value, r.side, b.slippagePct) == Some(price)
    ensures Quote(b, r) == if Affords(b, r.quantity, price)
                           then Some(BrokerOrder(r.clientId, r.symbol, r.side, r.kind, r.quantity, r.quantity, price, Filled))
                           else None
  {
    var notional := r.quantity * price;
    assert notional * b.feePct == b.feePct * notional;
  }

  lemma PlaceIsQuote(b: Ledger, r: PlaceRequest)
    requires Indexed(b) && HoldsSomething(b.positions) && r.clientId !in b.byClientId
    ensures var (after, reply) := Place(b, r);
            && reply == Quote(b, r)
            && (reply.None? ==> after == b)
            && (reply.Some? ==> after.orders == b.orders[Order(b.sequence + 1) := reply.value])
  {
  }

  /** The order a placement becomes at this execution price. */
  function FilledAt(r: PlaceRequest, price: Price): BrokerOrder {
    BrokerOrder(r.clientId, r.symbol, r.side, r.kind, r.quantity, r.quantity, price, Filled)
  }

  /**
   * A placement under a new client id is refused, and changes nothing, exactly when there is no reference price,
   * slippage leaves none, or the balance is short; otherwise the whole quantity fills at the slipped price.
   */
  lemma PlacementFillsAt(b: Ledger, r: PlaceRequest)
    requires Indexed(b) && HoldsSomething(b.positions) && r.clientId !in b.byClientId
    ensures var (after, reply) := Place(b, r);
            var price := if r.price.Some? then Slipped(r.price.value, r.side, b.slippagePct) else 0.0;
            && (reply.Some? <==> price > 0.0 && Affords(b, r.quantity, price))
            && (reply.None? ==> after == b)
            && (reply.Some? ==> reply.value == FilledAt(r, price)
                                && after.orders == b.orders[Order(b.sequence + 1) := reply.value])
  {
    PlaceIsQuote(b, r);
    if r.price.Some? {
      SlippageIs(r.price.value, r.side, b.slippagePct);
      var price := Slipped(r.price.value, r.side, b.slippagePct);
      if price > 0.0 {
        QuoteAt(b, r, price);
      }
    }
  }

  /** Every fill leaves its price as the mark of what is held. */
  lemma MarkIsFillPrice(div: Division, existing: Option<BrokerPosition>, side: Side, quantity: Lot, price: Price)
    requires existing.Some? ==> existing.value.quantity > 0.0
    ensures var r := Fold(div, existing, side, quantity, price); r.Some? ==> r.value.mark == price
  {
  }

  /** A stop under a new client id rests unfilled at its stop price, and nothing else is touched. */
  lemma StopRests(b: Ledger, r: StopRequest)
    requires Indexed(b) && r.clientId !in b.byClientId
    ensures var (after, o) := PlaceStop(b, r);
            && o == BrokerOrder(r.clientId, r.symbol, r.side, "STOP_MARKET", r.quantity, 0.0, r.stopPrice, New)
            && after.orders == b.orders[Stop(b.sequence + 1) := o]
            && after.balance == b.balance && after.positions == b.positions
  {
  }

  /** Cancelling finds exactly the recorded orders, and relabels that one alone. */
  lemma CancelRelabels(b: Ledger, id: BrokerId)
    ensures var (after, found) := Cancel(b, id);
            && (found <==> id in b.orders)
            && after.orders.Keys == b.orders.Keys
            && (forall k :: k in b.orders ==>
                  after.orders[k] == if k == id then b.orders[k].(status := Cancelled) else b.orders[k])
            && after == b.(orders := after.orders)
  {
  }

  /** A reset leaves the starting balance and nothing else. */
  lemma ResetClears(b: Ledger)
    ensures var r := Reset(b);
            && r.balance == r.start == b.start && r.positions == map[] && r.orders == map[] && r.byClientId == map[]
            && r.sequence == 0 && r.feePct == b.feePct && r.slippagePct == b.slippagePct && r.div == b.div
  {
  }

  // ----- the plain account of the world: sums over everything that was ever filled

  /** Mark prices to value the book at, one for every symbol. */
  type Marks = Symbol -> real

  ghost function PositionValue(marks: Marks): (Symbol, BrokerPosition) -> real {
    (s: Symbol, p: BrokerPosition) => p.side.Sign() * (marks(s) - p.entry) * p.quantity
  }

  ghost function FillValue(marks: Marks): (BrokerId, BrokerOrder) -> real {
    (id: BrokerId, o: BrokerOrder) => o.side.Sign() * o.filled * (marks(o.symbol) - o.averagePrice)
  }

  /** The fee rate applied to the notional. */
  function Charge(pct: real, quantity: Quantity, price: Price): real { pct * (quantity * price) }

  lemma FeeIsCharge(o: BrokerOrder, pct: real)
    ensures FeeOf(o, pct) == Charge(pct, o.filled, o.averagePrice)
  {
  }

  ghost function Fee(pct: real): (BrokerId, BrokerOrder) -> real {
    (id: BrokerId, o: BrokerOrder) => Charge(pct, o.filled, o.averagePrice)
  }

  ghost function SignedFill(s: Symbol): (BrokerId, BrokerOrder) -> real {
    (id: BrokerId, o: BrokerOrder) => if o.symbol == s then o.side.Sign() * o.filled else 0.0
  }

  /** Balance plus the book at the marks. */
  ghost function EquityAt(b: Ledger, marks: Marks): real { b.balance + SumMap(b.positions, PositionValue(marks)) }

  type Worth = (Symbol, BrokerPosition) -> real
  type Tally = (BrokerId, BrokerOrder) -> real

  /** Balance plus book equals starting balance less fees plus fills, off by the drift, for given valuations of each. */
  ghost predicate Balances(b: Ledger, worth: Worth, fill: Tally, fee: Tally, drift: real) {
    b.balance + SumMap(b.positions, worth) == b.start - SumMap(b.orders, fee) + SumMap(b.orders, fill) + drift
  }

  function Exposure(p: Option<BrokerPosition>): real {
    match p
    case None => 0.0
    case Some(v) => v.side.Sign() * v.quantity
  }

  ghost function At(f: Worth, s: Symbol, p: Option<BrokerPosition>): real {
    match p
    case None => 0.0
    case Some(v) => f(s, v)
  }

  /** Averaging in at any entry keeps the value of the two lots at any mark, but for what the entry is off in notional. */
  lemma AveragingConserves(sign: real, e: real, q1: real, e1: real, q2: real, e2: real, mark: real)
    ensures sign * (mark - e) * (q1 + q2)
         == sign * (mark - e1) * q1 + sign * q2 * (mark - e2) - sign * (e * (q1 + q2) - (q1 * e1 + q2 * e2))
  {
    assert (mark - e) * (q1 + q2) == mark * (q1 + q2) - e * (q1 + q2);
    assert mark * (q1 + q2) - (q1 * e1 + q2 * e2) == (mark - e1) * q1 + q2 * (mark - e2);
    assert sign * ((mark - e) * (q1 + q2))
        == sign * ((mark - e1) * q1 + q2 * (mark - e2) - (e * (q1 + q2) - (q1 * e1 + q2 * e2)));
  }

  /** Closing a part crystallises what it is worth at the price and leaves the rest at the mark. */
  lemma PartialCloseConserves(sign: real, q: real, e: real, closed: real, price: real, mark: real)
    ensures sign * (price - e) * closed + sign * (mark - e) * (q - closed)
         == sign * (mark - e) * q + -sign * closed * (mark - price)
  {
    assert (price - e) * closed + (mark - e) * (q - closed) == (mark - e) * q - closed * (mark - price);
    assert sign * ((price - e) * closed + (mark - e) * (q - closed)) == sign * ((mark - e) * q - closed * (mark - price));
  }

  lemma WholeCloseConserves(sign: real, q: real, e: real, price: real, mark: real)
    ensures sign * (price - e) * q == sign * (mark - e) * q + -sign * q * (mark - price)
  {
    assert (price - e) * q == (mark - e) * q - q * (mark - price);
    assert sign * ((price - e) * q) == sign * ((mark - e) * q - q * (mark - price));
  }

  /** Closing everything and opening the excess on the other side. */
  lemma FlipConserves(sign: real, q: real, e: real, quantity: real, price: real, mark: real)
    ensures sign * (price - e) * q + -sign * (mark - price) * (quantity - q)
         == sign * (mark - e) * q + -sign * quantity * (mark - price)
  {
    WholeCloseConserves(sign, q, e, price, mark);
    assert (mark - price) * (quantity - q) == quantity * (mark - price) - q * (mark - price);
    assert sign * ((mark - price) * (quantity - q)) == sign * (quantity * (mark - price) - q * (mark - price));
  }

  /** What rounding the averaged entry adds to the value of a position, at whatever mark. */
  function MergeDrift(div: Division, existing: Option<BrokerPosition>, side: Side, quantity: Lot, price: Price): real
    requires existing.Some? ==> existing.value.quantity > 0.0
  {
    if existing.None? || existing.value.side != side then 0.0
    else
      var off := NotionalOff(div, existing.value.quantity, existing.value.entry, quantity, price);
      if side.Buy? then -off else off
  }

  /** A fill moves the value of a symbol's position at any mark by exactly the fill and the drift of its average. */
  ghost predicate Conserves(div: Division, existing: Option<BrokerPosition>, o: BrokerOrder, id: BrokerId, marks: Marks)
    requires existing.Some? ==> existing.value.quantity > 0.0
    requires o.filled > 0.0
  {
    var f := PositionValue(marks);
    Realized(existing, o.side, o.filled, o.averagePrice)
      + At(f, o.symbol, Fold(div, existing, o.side, o.filled, o.averagePrice))
    == At(f, o.symbol, existing) + FillValue(marks)(id, o) + MergeDrift(div, existing, o.side, o.filled, o.averagePrice)
  }

  lemma AveragingIn(div: Division, e: BrokerPosition, o: BrokerOrder, id: BrokerId, marks: Marks)
    requires e.quantity > 0.0 && o.filled > 0.0 && e.side == o.side
    ensures Conserves(div, Some(e), o, id, marks)
  {
    AveragingConserves(e.side.Sign(), AverageEntry(div, e.quantity, e.entry, o.filled, o.averagePrice), e.quantity, e.entry,
                       o.filled, o.averagePrice, marks(o.symbol));
  }

  lemma Reducing(div: Division, e: BrokerPosition, o: BrokerOrder, id: BrokerId, marks: Marks)
    requires o.filled > 0.0 && e.side != o.side && o.filled < e.quantity
    ensures Conserves(div, Some(e), o, id, marks)
  {
    PartialCloseConserves(e.side.Sign(), e.quantity, e.entry, o.filled, o.averagePrice, marks(o.symbol));
  }

  lemma Closing(div: Division, e: BrokerPosition, o: BrokerOrder, id: BrokerId, marks: Marks)
    requires o.filled > 0.0 && e.side != o.side && o.filled == e.quantity
    ensures Conserves(div, Some(e), o, id, marks)
  {
    WholeCloseConserves(e.side.Sign(), e.quantity, e.entry, o.averagePrice, marks(o.symbol));
  }

  lemma Flipping(div: Division, e: BrokerPosition, o: BrokerOrder, id: BrokerId, marks: Marks)
    requires e.quantity > 0.0 && e.side != o.side && o.filled > e.quantity
    ensures Conserves(div, Some(e), o, id, marks)
  {
    FlipConserves(e.side.Sign(), e.quantity, e.entry, o.filled, o.averagePrice, marks(o.symbol));
  }

  /** Open, average in, partial close, full close and flip: all five conserve. */
  lemma FoldConservesValue(div: Division, existing: Option<BrokerPosition>, o: BrokerOrder, id: BrokerId, marks: Marks)
    requires existing.Some? ==> existing.value.quantity > 0.0
    requires o.filled > 0.0
    ensures Conserves(div, existing, o, id, marks)
  {
    if existing.Some? {
      var e := existing.value;
      if e.side == o.side {
        AveragingIn(div, e, o, id, marks);
      } else if o.filled < e.quantity {
        Reducing(div, e, o, id, marks);
      } else if o.filled == e.quantity {
        Closing(div, e, o, id, marks);
      } else {
        Flipping(div, e, o, id, marks);
      }
    }
  }

  lemma FoldMovesExposure(div: Division, existing: Option<BrokerPosition>, side: Side, quantity: Lot, price: Price)
    requires existing.Some? ==> existing.value.quantity > 0.0
    ensures Exposure(Fold(div, existing, side, quantity, price)) == Exposure(existing) + side.Sign() * quantity
  {
  }

  lemma StoreMovesSum(m: map<Symbol, BrokerPosition>, s: Symbol, p: Option<BrokerPosition>,
                      f: Worth)
    ensures SumMap(Store(m, s, p), f) == SumMap(m, f) - At(f, s, Held(m, s)) + At(f, s, p)
  {
    if p.Some? {
      SumInsert(m, f, s, p.value);
    } else if s in m {
      SumRemove(m, f, s);
    } else {
      assert m - {s} == m;
    }
  }

  lemma InsertKeepsIndex(orders: map<BrokerId, BrokerOrder>, byClientId: map<string, BrokerId>, sequence: nat,
                         id: BrokerId, o: BrokerOrder)
    requires IsIndex(orders, byClientId, sequence) && id.n == sequence + 1 && o.clientId !in byClientId
    ensures IsIndex(orders[id := o], byClientId[o.clientId := id], sequence + 1)
    ensures id !in orders
  {
    assert id !in orders;
    var after, index := orders[id := o], byClientId[o.clientId := id];
    forall x | x in after
      ensures after[x].clientId in index && index[after[x].clientId] == x && 1 <= x.n <= sequence + 1
    {
      if x != id { assert after[x] == orders[x]; }
    }
    forall c | c in index
      ensures index[c] in after && after[index[c]].clientId == c
    {
      if c != o.clientId { assert index[c] == byClientId[c]; }
    }
  }

  lemma RelabelKeepsIndex(orders: map<BrokerId, BrokerOrder>, byClientId: map<string, BrokerId>, sequence: nat,
                          id: BrokerId, o: BrokerOrder)
    requires IsIndex(orders, byClientId, sequence) && id in orders && o.clientId == orders[id].clientId
    ensures IsIndex(orders[id := o], byClientId, sequence)
  {
    assert orders[id := o].Keys == orders.Keys;
  }

  ghost predicate Valid(b: Ledger) { Indexed(b) && HoldsSomething(b.positions) }

  // The steps with the valuations left abstract: only addition is needed.

  lemma PostBalances(b: Ledger, id: BrokerId, o: BrokerOrder, charged: real, realized: real, after: Option<BrokerPosition>,
                     worth: Worth, fill: Tally, fee: Tally, drift: real, merge: real)
    requires Balances(b, worth, fill, fee, drift) && id !in b.orders && charged == fee(id, o)
    requires realized + At(worth, o.symbol, after)
          == At(worth, o.symbol, Held(b.positions, o.symbol)) + fill(id, o) + merge
    ensures Balances(Post(b, id, o, charged, realized, after), worth, fill, fee, drift + merge)
  {
    StoreMovesSum(b.positions, o.symbol, after, worth);
    SumInsert(b.orders, fee, id, o);
    SumInsert(b.orders, fill, id, o);
  }

  lemma RecordBalances(b: Ledger, id: BrokerId, o: BrokerOrder, worth: Worth, fill: Tally, fee: Tally, drift: real)
    requires Balances(b, worth, fill, fee, drift) && id !in b.orders && fee(id, o) == 0.0 && fill(id, o) == 0.0
    ensures Balances(Record(b, id, o), worth, fill, fee, drift)
  {
    SumInsert(b.orders, fee, id, o);
    SumInsert(b.orders, fill, id, o);
  }

  /** Cancelling relabels an order, filled ones included, without touching what it filled. */
  lemma CancelKeepsSum(b: Ledger, id: BrokerId, f: Tally)
    requires id in b.orders ==> f(id, b.orders[id].(status := Cancelled)) == f(id, b.orders[id])
    ensures SumMap(Cancel(b, id).0.orders, f) == SumMap(b.orders, f)
  {
    if id in b.orders {
      SumInsert(b.orders, f, id, b.orders[id].(status := Cancelled));
    }
  }

  // The steps with the actual valuations.

  ghost predicate LedgerBalances(b: Ledger, marks: Marks, drift: real) {
    Balances(b, PositionValue(marks), FillValue(marks), Fee(b.feePct), drift)
  }

  /** The drift of filling this order on this ledger. */
  function FillDrift(b: Ledger, o: BrokerOrder): real
    requires HoldsSomething(b.positions) && o.filled > 0.0
  {
    MergeDrift(b.div, Held(b.positions, o.symbol), o.side, o.filled, o.averagePrice)
  }

  ghost predicate ExposureIsFills(b: Ledger, s: Symbol) {
    Exposure(Held(b.positions, s)) == SumMap(b.orders, SignedFill(s))
  }

  lemma FillBalances(b: Ledger, id: BrokerId, o: BrokerOrder, marks: Marks, drift: real)
    requires HoldsSomething(b.positions) && o.filled > 0.0 && id !in b.orders
    requires LedgerBalances(b, marks, drift)
    ensures LedgerBalances(Fill(b, id, o), marks, drift + FillDrift(b, o))
  {
    var held := Held(b.positions, o.symbol);
    FoldConservesValue(b.div, held, o, id, marks);
    FeeIsCharge(o, b.feePct);
    PostBalances(b, id, o, FeeOf(o, b.feePct), Realized(held, o.side, o.filled, o.averagePrice),
                 Fold(b.div, held, o.side, o.filled, o.averagePrice), PositionValue(marks), FillValue(marks), Fee(b.feePct),
                 drift, FillDrift(b, o));
  }

  lemma RecordExposes(b: Ledger, id: BrokerId, o: BrokerOrder, s: Symbol)
    requires ExposureIsFills(b, s) && id !in b.orders && o.filled == 0.0
    ensures ExposureIsFills(Record(b, id, o), s)
  {
    SumInsert(b.orders, SignedFill(s), id, o);
  }

  lemma FillExposes(b: Ledger, id: BrokerId, o: BrokerOrder, s: Symbol)
    requires HoldsSomething(b.positions) && o.filled > 0.0 && id !in b.orders
    requires ExposureIsFills(b, s)
    ensures ExposureIsFills(Fill(b, id, o), s)
  {
    var held := Held(b.positions, o.symbol);
    var after := Fold(b.div, held, o.side, o.filled, o.averagePrice);
    FoldMovesExposure(b.div, held, o.side, o.filled, o.averagePrice);
    SumInsert(b.orders, SignedFill(s), id, o);
    var posted := Fill(b, id, o).positions;
    assert posted == Store(b.positions, o.symbol, after);
    assert Held(posted, s) == if s == o.symbol then after else Held(b.positions, s);
  }

  // ----- any sequence of calls

  datatype Call = DoPlace(order: PlaceRequest) | DoStop(stop: StopRequest) | DoCancel(id: BrokerId) | DoReset

  function Apply(b: Ledger, c: Call): (r: Ledger)
    requires Valid(b)
  {
    match c
    case DoPlace(o) => Place(b, o).0
    case DoStop(s) => PlaceStop(b, s).0
    case DoCancel(id) => Cancel(b, id).0
    case DoReset => Reset(b)
  }

  lemma StoreHolds(m: map<Symbol, BrokerPosition>, s: Symbol, p: Option<BrokerPosition>)
    requires HoldsSomething(m) && (p.Some? ==> p.value.quantity > 0.0)
    ensures HoldsSomething(Store(m, s, p))
  {
  }

  lemma FillIsValid(b: Ledger, id: BrokerId, o: BrokerOrder)
    requires Valid(b) && o.filled > 0.0 && id.n == b.sequence + 1 && o.clientId !in b.byClientId
    ensures Valid(Fill(b, id, o))
  {
    InsertKeepsIndex(b.orders, b.byClientId, b.sequence, id, o);
    StoreHolds(b.positions, o.symbol, Fold(b.div, Held(b.positions, o.symbol), o.side, o.filled, o.averagePrice));
  }

  lemma PlaceIsValid(b: Ledger, r: PlaceRequest)
    requires Valid(b)
    ensures Valid(Place(b, r).0)
  {
    if r.clientId !in b.byClientId && Quote(b, r).Some? {
      FillIsValid(b, Order(b.sequence + 1), Quote(b, r).value);
    }
  }

  lemma StopIsValid(b: Ledger, r: StopRequest)
    requires Valid(b)
    ensures Valid(PlaceStop(b, r).0)
  {
    if r.clientId !in b.byClientId {
      InsertKeepsIndex(b.orders, b.byClientId, b.sequence, Stop(b.sequence + 1), PlaceStop(b, r).1);
    }
  }

  lemma CancelIsValid(b: Ledger, id: BrokerId)
    requires Valid(b)
    ensures Valid(Cancel(b, id).0)
  {
    if id in b.orders {
      RelabelKeepsIndex(b.orders, b.byClientId, b.sequence, id, b.orders[id].(status := Cancelled));
    }
  }

  /** The order a call newly fills on this ledger, if it does. */
  function NewFill(b: Ledger, c: Call): (r: Option<BrokerOrder>)
    ensures r.Some? ==> r.value.filled > 0.0
  {
    if c.DoPlace? && c.order.clientId !in b.byClientId then Quote(b, c.order) else None
  }

  function CallDrift(b: Ledger, c: Call): real
    requires HoldsSomething(b.positions)
  {
    match NewFill(b, c)
    case None => 0.0
    case Some(o) => FillDrift(b, o)
  }

  /** A placement is a fill under a new id, or leaves the ledger alone. */
  lemma PlaceIsFill(b: Ledger, r: PlaceRequest)
    requires Valid(b)
    ensures match NewFill(b, DoPlace(r))
            case None => Place(b, r).0 == b
            case Some(o) => Place(b, r).0 == Fill(b, Order(b.sequence + 1), o) && Order(b.sequence + 1) !in b.orders
  {
  }

  lemma PlaceBalances(b: Ledger, r: PlaceRequest, marks: Marks, drift: real)
    requires Valid(b) && LedgerBalances(b, marks, drift)
    ensures LedgerBalances(Place(b, r).0, marks, drift + CallDrift(b, DoPlace(r)))
  {
    PlaceIsFill(b, r);
    var fill := NewFill(b, DoPlace(r));
    if fill.Some? {
      FillBalances(b, Order(b.sequence + 1), fill.value, marks, drift);
    }
  }

  lemma PlaceExposes(b: Ledger, r: PlaceRequest, s: Symbol)
    requires Valid(b) && ExposureIsFills(b, s)
    ensures ExposureIsFills(Place(b, r).0, s)
  {
    PlaceIsFill(b, r);
    var fill := NewFill(b, DoPlace(r));
    if fill.Some? {
      FillExposes(b, Order(b.sequence + 1), fill.value, s);
    }
  }

  lemma StopBalances(b: Ledger, r: StopRequest, marks: Marks, drift: real)
    requires Valid(b) && LedgerBalances(b, marks, drift)
    ensures LedgerBalances(PlaceStop(b, r).0, marks, drift)
  {
    if r.clientId !in b.byClientId {
      var id, o := Stop(b.sequence + 1), PlaceStop(b, r).1;
      RecordBalances(b, id, o, PositionValue(marks), FillValue(marks), Fee(b.feePct), drift);
    }
  }

  lemma StopExposes(b: Ledger, r: StopRequest, s: Symbol)
    requires Valid(b) && ExposureIsFills(b, s)
    ensures ExposureIsFills(PlaceStop(b, r).0, s)
  {
    if r.clientId !in b.byClientId {
      RecordExposes(b, Stop(b.sequence + 1), PlaceStop(b, r).1, s);
    }
  }

  /** Neither what it filled nor what it was charged depends on the status of an order. */
  lemma LabelIsNoValue(o: BrokerOrder, id: BrokerId, marks: Marks, s: Symbol, pct: real)
    ensures var c := o.(status := Cancelled);
            && Fee(pct)(id, c) == Fee(pct)(id, o) && FillValue(marks)(id, c) == FillValue(marks)(id, o)
            && SignedFill(s)(id, c) == SignedFill(s)(id, o)
  {
  }

  lemma CancelKeepsSums(b: Ledger, id: BrokerId, marks: Marks, s: Symbol, drift: real)
    ensures LedgerBalances(b, marks, drift) ==> LedgerBalances(Cancel(b, id).0, marks, drift)
    ensures ExposureIsFills(b, s) ==> ExposureIsFills(Cancel(b, id).0, s)
  {
    if id in b.orders {
      LabelIsNoValue(b.orders[id], id, marks, s, b.feePct);
      CancelKeepsSum(b, id, Fee(b.feePct));
      CancelKeepsSum(b, id, FillValue(marks));
      CancelKeepsSum(b, id, SignedFill(s));
    }
  }

  lemma ApplyIsValid(b: Ledger, c: Call)
    requires Valid(b)
    ensures Valid(Apply(b, c))
    ensures Apply(b, c).start == b.start && Apply(b, c).feePct == b.feePct && Apply(b, c).div == b.div
  {
    match c
    case DoPlace(r) => PlaceIsValid(b, r);
    case DoStop(r) => StopIsValid(b, r);
    case DoCancel(id) => CancelIsValid(b, id);
    case DoReset =>
  }

  /** The drift after a call: a reset starts over. */
  function DriftAfter(b: Ledger, c: Call, drift: real): real
    requires HoldsSomething(b.positions)
  {
    if c.DoReset? then 0.0 else drift + CallDrift(b, c)
  }

  lemma ApplyBalances(b: Ledger, c: Call, marks: Marks, drift: real)
    requires Valid(b) && LedgerBalances(b, marks, drift)
    ensures LedgerBalances(Apply(b, c), marks, DriftAfter(b, c, drift))
  {
    match c
    case DoPlace(r) => PlaceBalances(b, r, marks, drift);
    case DoStop(r) => StopBalances(b, r, marks, drift);
    case DoCancel(id) => CancelKeepsSums(b, id, marks, "", drift);
    case DoReset =>
  }

  lemma ApplyExposes(b: Ledger, c: Call, s: Symbol)
    requires Valid(b) && ExposureIsFills(b, s)
    ensures ExposureIsFills(Apply(b, c), s)
  {
    match c
    case DoPlace(r) => PlaceExposes(b, r, s);
    case DoStop(r) => StopExposes(b, r, s);
    case DoCancel(id) => CancelKeepsSums(b, id, _ => 0.0, s, 0.0);
    case DoReset =>
  }

  ghost function Run(b: Ledger, calls: seq<Call>): (r: Ledger)
    requires Valid(b)
    ensures Valid(r)
    ensures r.start == b.start && r.feePct == b.feePct && r.div == b.div
  {
    if calls == [] then b
    else
      var before := Run(b, calls[..|calls| - 1]);
      ApplyIsValid(before, calls[|calls| - 1]);
      Apply(before, calls[|calls| - 1])
  }

  /** What the roundings of averaged entries have added up to since the last reset. */
  ghost function Drift(b: Ledger, calls: seq<Call>): real
    requires Valid(b)
  {
    if calls == [] then 0.0
    else DriftAfter(Run(b, calls[..|calls| - 1]), calls[|calls| - 1], Drift(b, calls[..|calls| - 1]))
  }

  lemma {:induction false} RunBalances(b: Ledger, calls: seq<Call>, marks: Marks)
    requires Valid(b) && LedgerBalances(b, marks, 0.0)
    ensures LedgerBalances(Run(b, calls), marks, Drift(b, calls))
  {
    if calls != [] {
      var before, last := calls[..|calls| - 1], calls[|calls| - 1];
      RunBalances(b, before, marks);
      ApplyBalances(Run(b, before), last, marks, Drift(b, before));
    }
  }

  lemma {:induction false} RunExposes(b: Ledger, calls: seq<Call>, s: Symbol)
    requires Valid(b) && ExposureIsFills(b, s)
    ensures ExposureIsFills(Run(b, calls), s)
  {
    if calls != [] {
      RunExposes(b, calls[..|calls| - 1], s);
      ApplyExposes(Run(b, calls[..|calls| - 1]), calls[|calls| - 1], s);
    }
  }

  // ----- how far the drift can go

  /** The most one call can add to the drift: only averaging in rounds, by `eps` per unit of the merged position. */
  function CallAllowance(b: Ledger, c: Call, eps: real): real
    requires HoldsSomething(b.positions)
  {
    match NewFill(b, c)
    case None => 0.0
    case Some(o) =>
      match Held(b.positions, o.symbol)
      case None => 0.0
      case Some(e) =>
        if e.side != o.side then 0.0
        else AveragingAllowance(b.div, eps, e.quantity, e.entry, o.filled, o.averagePrice)
  }

  ghost function Allowance(b: Ledger, calls: seq<Call>, eps: real): real
    requires Valid(b)
  {
    if calls == [] || calls[|calls| - 1].DoReset? then 0.0
    else Allowance(b, calls[..|calls| - 1], eps) + CallAllowance(Run(b, calls[..|calls| - 1]), calls[|calls| - 1], eps)
  }

  lemma NoAllowanceWhenExact(div: Division, q1: Lot, e1: Price, q2: Lot, e2: Price)
    requires Rounds(div, 0.0)
    ensures AveragingAllowance(div, 0.0, q1, e1, q2, e2) == 0.0
  {
    AverageWithRounding(div, 0.0, q1, e1, q2, e2);
  }

  lemma MergeDriftIsBounded(div: Division, eps: real, e: BrokerPosition, quantity: Lot, price: Price)
    requires e.quantity > 0.0 && eps >= 0.0 && Rounds(div, eps)
    ensures Abs(MergeDrift(div, Some(e), e.side, quantity, price))
         <= AveragingAllowance(div, eps, e.quantity, e.entry, quantity, price)
  {
    NotionalWithRounding(div, eps, e.quantity, e.entry, quantity, price);
  }

  lemma CallDriftIsBounded(b: Ledger, c: Call, eps: real)
    requires HoldsSomething(b.positions) && eps >= 0.0 && Rounds(b.div, eps)
    ensures Abs(CallDrift(b, c)) <= CallAllowance(b, c, eps)
    ensures eps == 0.0 ==> CallAllowance(b, c, eps) == 0.0
  {
    var fill := NewFill(b, c);
    if fill.Some? {
      var o, held := fill.value, Held(b.positions, fill.value.symbol);
      if held.Some? && held.value.side == o.side {
        MergeDriftIsBounded(b.div, eps, held.value, o.filled, o.averagePrice);
        if eps == 0.0 {
          NoAllowanceWhenExact(b.div, held.value.quantity, held.value.entry, o.filled, o.averagePrice);
        }
      }
    }
  }

  lemma {:induction false} DriftIsBounded(b: Ledger, calls: seq<Call>, eps: real)
    requires Valid(b) && eps >= 0.0 && Rounds(b.div, eps)
    ensures Abs(Drift(b, calls)) <= Allowance(b, calls, eps)
    ensures eps == 0.0 ==> Allowance(b, calls, eps) == 0.0
  {
    if calls != [] {
      DriftIsBounded(b, calls[..|calls| - 1], eps);
      CallDriftIsBounded(Run(b, calls[..|calls| - 1]), calls[|calls| - 1], eps);
    }
  }

  /** Everything but the drift: the starting balance, less every fee, plus every fill valued at the marks. */
  ghost function FillHistory(b: Ledger, marks: Marks): real {
    b.start - SumMap(b.orders, Fee(b.feePct)) + SumMap(b.orders, FillValue(marks))
  }

  /**
   * After any calls and at any mark prices, with a division that rounds by up to `eps`: the running ledger says
   * what adding up the fills says, off by at most `eps` per unit of each position that was averaged into since
   * the last reset, whatever the marks.
   */
  lemma LedgerWithRounding(start: real, feePct: real, slippagePct: real, div: Division, eps: real, calls: seq<Call>, marks: Marks)
    requires eps >= 0.0 && Rounds(div, eps)
    ensures Valid(NewLedger(start, feePct, slippagePct, div))
    ensures var first := NewLedger(start, feePct, slippagePct, div);
            var b := Run(first, calls);
            && EquityAt(b, marks) == FillHistory(b, marks) + Drift(first, calls)
            && Abs(Drift(first, calls)) <= Allowance(first, calls, eps)
  {
    var first := NewLedger(start, feePct, slippagePct, div);
    RunBalances(first, calls, marks);
    DriftIsBounded(first, calls, eps);
  }

  /**
   * With exact division the running ledger says what adding up the fills says: the money is the starting
   * balance, less every fee, plus every fill valued at the marks.
   */
  lemma LedgerEqualsFillHistory(start: real, feePct: real, slippagePct: real, div: Division, calls: seq<Call>, marks: Marks)
    requires Rounds(div, 0.0)
    ensures Valid(NewLedger(start, feePct, slippagePct, div))
    ensures var b := Run(NewLedger(start, feePct, slippagePct, div), calls);
            EquityAt(b, marks) == start - SumMap(b.orders, Fee(feePct)) + SumMap(b.orders, FillValue(marks))
  {
    LedgerWithRounding(start, feePct, slippagePct, div, 0.0, calls, marks);
    DriftIsBounded(NewLedger(start, feePct, slippagePct, div), calls, 0.0);
  }

  /** After any calls a symbol's signed position is the signed sum of its fills, and is absent exactly at zero. */
  lemma NetExposureEqualsFills(start: real, feePct: real, slippagePct: real, div: Division, calls: seq<Call>, s: Symbol)
    ensures Valid(NewLedger(start, feePct, slippagePct, div))
    ensures var b := Run(NewLedger(start, feePct, slippagePct, div), calls);
            && Exposure(Held(b.positions, s)) == SumMap(b.orders, SignedFill(s))
            && (s in b.positions ==> b.positions[s].quantity > 0.0)
            && (s !in b.positions <==> SumMap(b.orders, SignedFill(s)) == 0.0)
  {
    RunExposes(NewLedger(start, feePct, slippagePct, div), calls, s);
  }

  /** The client id is on record, under this broker id and with this order up to its status. */
  ghost predicate Known(b: Ledger, clientId: string, id: BrokerId, o: BrokerOrder) {
    && clientId in b.byClientId && b.byClientId[clientId] == id
    && id in b.orders && b.orders[id].(status := New) == o.(status := New)
  }

  lemma ApplyKeepsKnown(b: Ledger, c: Call, clientId: string, id: BrokerId, o: BrokerOrder)
    requires Valid(b) && Known(b, clientId, id, o) && !c.DoReset?
    ensures Known(Apply(b, c), clientId, id, o)
  {
    var after := Apply(b, c);
    match c
    case DoPlace(r) =>
      assert after == b || (after.orders == b.orders[Order(b.sequence + 1) := Quote(b, r).value]
                            && after.byClientId == b.byClientId[r.clientId := Order(b.sequence + 1)]
                            && r.clientId !in b.byClientId);
    case DoStop(r) =>
    case DoCancel(x) =>
  }

  /**
   * Once an order is on record, placing its client id again, as an order or as a stop, returns it and
   * changes nothing, whatever was called in between short of a reset.
   */
  lemma {:induction false} PlacementIsIdempotent(b: Ledger, calls: seq<Call>, clientId: string)
    requires Valid(b) && clientId in b.byClientId
    requires forall c :: c in calls ==> !c.DoReset?
    ensures var r := Run(b, calls);
            var id := b.byClientId[clientId];
            && Known(r, clientId, id, b.orders[id])
            && (forall o: PlaceRequest :: o.clientId == clientId ==> Place(r, o) == (r, Some(r.orders[id])))
            && (forall o: StopRequest :: o.clientId == clientId ==> PlaceStop(r, o) == (r, r.orders[id]))
  {
    if calls != [] {
      var id := b.byClientId[clientId];
      PlacementIsIdempotent(b, calls[..|calls| - 1], clientId);
      assert calls[|calls| - 1] in calls;
      ApplyKeepsKnown(Run(b, calls[..|calls| - 1]), calls[|calls| - 1], clientId, id, b.orders[id]);
    }
  }

  // ----- the same closing fills booked by the position aggregate

  datatype Exit = Exit(quantity: Lot, price: Price)

  ghost function TotalExits(exits: seq<Exit>): real {
    if exits == [] then 0.0 else TotalExits(exits[..|exits| - 1]) + exits[|exits| - 1].quantity
  }

  /** The simulator's book after closing fills against one held position, and the P&L it realized. */
  ghost function FoldExits(div: Division, held: BrokerPosition, exits: seq<Exit>): (r: (Option<BrokerPosition>, real))
    requires held.quantity > 0.0
    ensures r.0.Some? ==> r.0.value.quantity > 0.0
  {
    if exits == [] then (Some(held), 0.0)
    else
      var (before, booked) := FoldExits(div, held, exits[..|exits| - 1]);
      var e, side := exits[|exits| - 1], held.side.Opposite();
      (Fold(div, before, side, e.quantity, e.price), booked + Realized(before, side, e.quantity, e.price))
  }

  ghost function CutExits(exits: seq<Exit>): seq<Positions.Call> {
    if exits == [] then []
    else CutExits(exits[..|exits| - 1]) + [Positions.Cut(exits[|exits| - 1].quantity, exits[|exits| - 1].price)]
  }

  /** The position aggregate and the simulator's book hold the same. */
  ghost predicate SameBook(p: Positions.Position, book: Option<BrokerPosition>) {
    if p.isOpen
    then book.Some? && book.value.side == p.side && book.value.quantity == p.quantity && book.value.entry == p.entry
    else book.None?
  }

  /** A closing fill realizes its P&L against the held entry. */
  lemma ClosingRealizes(held: BrokerPosition, e: Exit)
    requires e.quantity <= held.quantity
    ensures Realized(Some(held), held.side.Opposite(), e.quantity, e.price)
         == Positions.PnL(held.side, held.entry, e.price, e.quantity)
  {
  }

  lemma ClosingFolds(div: Division, held: BrokerPosition, e: Exit)
    requires held.quantity > 0.0 && e.quantity <= held.quantity
    ensures Fold(div, Some(held), held.side.Opposite(), e.quantity, e.price)
         == if e.quantity == held.quantity then None
            else Some(held.(quantity := held.quantity - e.quantity, mark := e.price))
  {
  }

  lemma ClosingStep(div: Division, eps: real, start: real, booked: real, n: nat, p: Positions.Position,
                    held: BrokerPosition, e: Exit)
    requires Positions.Valid(p) && p.isOpen && SameBook(p, Some(held)) && e.quantity <= p.quantity && Rounds(div, eps)
    requires Positions.Off(p.realized, start + booked) <= Positions.Errors(eps, n)
    ensures var r := Positions.Next(div, p, Positions.Cut(e.quantity, e.price));
            && SameBook(r, Fold(div, Some(held), p.side.Opposite(), e.quantity, e.price))
            && Positions.Off(r.realized, start + (booked + Realized(Some(held), p.side.Opposite(), e.quantity, e.price)))
               <= Positions.Errors(eps, n + 1)
            && r.quantity == p.quantity - e.quantity && Positions.SameTrade(p, r)
  {
    var cut := Positions.Cut(e.quantity, e.price);
    Positions.StepBooks(div, eps, p, cut);
    Positions.StepKeepsAccount(div, eps, start, booked, n, p, cut);
    ClosingRealizes(held, e);
    ClosingFolds(div, held, e);
  }

  /**
   * Position aggregate and simulator agree: same quantity left, same entry, and the same realized amount up to
   * one rounding per closing fill, since the aggregate divides where the simulator does not.
   */
  lemma {:induction false} ClosingAgrees(div: Division, eps: real, p: Positions.Position, held: BrokerPosition, exits: seq<Exit>)
    requires Positions.Valid(p) && p.isOpen && SameBook(p, Some(held))
    requires TotalExits(exits) <= p.quantity && Rounds(div, eps)
    ensures var r, book := Positions.Run(div, p, CutExits(exits)), FoldExits(div, held, exits);
            && SameBook(r, book.0)
            && Positions.Off(r.realized, p.realized + book.1) <= Positions.Errors(eps, |exits|)
            && r.quantity == p.quantity - TotalExits(exits) && Positions.SameTrade(p, r)
  {
    if exits != [] {
      var before, e := exits[..|exits| - 1], exits[|exits| - 1];
      ClosingAgrees(div, eps, p, held, before);
      var calls := CutExits(exits);
      assert calls[..|calls| - 1] == CutExits(before);
      var q := Positions.Run(div, p, CutExits(before));
      var (book, booked) := FoldExits(div, held, before);
      ClosingStep(div, eps, p.realized, booked, |before|, q, book.value, e);
    }
  }
}

/** The position aggregate (internal/domain/position). */
module Positions {
  import opened Primitives

  datatype Position = Position(
    symbol: Symbol,
    side: Side,
    quantity: Quantity,
    entry: Price,
    current: Price,
    unrealized: real,
    realized: real,
    isOpen: bool,
    version: nat)

  function Open(symbol: Symbol, side: Side, quantity: Lot, entry: Price): Position {
    Position(symbol, side, quantity, entry, entry, 0.0, 0.0, true, 1)
  }

  /** What a quantity entered at one price is worth at another. */
  function PnL(side: Side, entry: Price, mark: Price, quantity: Quantity): real {
    side.Sign() * (mark - entry) * quantity
  }

  function UnrealizedAt(p: Position, mark: Price): real { PnL(p.side, p.entry, mark, p.quantity) }

  /** The share of the open P&L that a reduction realizes. */
  function Share(div: Division, open: real, quantity: Quantity, held: Lot): real { div(open * quantity, held) }

  /** OPEN exactly while something is held, so Reduce never divides by zero. */
  predicate Valid(p: Position) {
    && (p.isOpen <==> p.quantity > 0.0)
    && p.unrealized == UnrealizedAt(p, p.current)
  }

  function MarkPrice(p: Position, mark: Price): Option<Position> {
    if !p.isOpen then None
    else Some(p.(current := mark, unrealized := UnrealizedAt(p, mark), version := p.version + 1))
  }

  function Reduce(div: Division, p: Position, quantity: Quantity, exit: Price): (r: Option<Position>)
    requires Valid(p)
    ensures r.Some? ==> Valid(r.value)
  {
    if !p.isOpen || quantity > p.quantity then None
    else
      var q := p.(realized := p.realized + Share(div, UnrealizedAt(p, exit), quantity, p.quantity),
                  quantity := p.quantity - quantity,
                  version := p.version + 1);
      Some(if q.quantity == 0.0 then q.(isOpen := false, unrealized := 0.0)
           else q.(current := exit, unrealized := UnrealizedAt(q, exit)))
  }

  function Close(div: Division, p: Position, exit: Price): Option<Position>
    requires Valid(p)
  {
    Reduce(div, p, p.quantity, exit)
  }

  class PositionAggregate {
    const symbol: Symbol
    const side: Side
    const entry: Price
    var quantity: Quantity
    var current: Price
    var unrealized: real
    var realized: real
    var isOpen: bool
    var version: nat

    function Value(): Position
      reads this
    {
      Position(symbol, side, quantity, entry, current, unrealized, realized, isOpen, version)
    }

    constructor (symbol: Symbol, side: Side, quantity: Lot, entry: Price)
      ensures Value() == Open(symbol, side, quantity, entry)
      ensures Valid(Value())
    {
      this.symbol, this.side, this.entry := symbol, side, entry;
      this.quantity, current, unrealized, realized, isOpen, version := quantity, entry, 0.0, 0.0, true, 1;
    }

    method Mark(mark: Price) returns (ok: bool)
      requires Valid(Value())
      modifies this
      ensures ok <==> MarkPrice(old(Value()), mark).Some?
      ensures Value() == if ok then MarkPrice(old(Value()), mark).value else old(Value())
      ensures Valid(Value())
    {
      if !isOpen { return false; }
      current := mark;
      unrealized := UnrealizedAt(Value(), mark);
      version := version + 1;
      return true;
    }

    method ReduceBy(div: Division, q: Quantity, exit: Price) returns (ok: bool)
      requires Valid(Value())
      modifies this
      ensures ok <==> Reduce(div, old(Value()), q, exit).Some?
      ensures Value() == if ok then Reduce(div, old(Value()), q, exit).value else old(Value())
      ensures Valid(Value())
    {
      if !isOpen { return false; }
      if q > quantity { return false; }
      ghost var after := Reduce(div, Value(), q, exit).value;
      var remaining := quantity - q;
      realized := realized + Share(div, UnrealizedAt(Value(), exit), q, quantity);
      quantity := remaining;
      version := version + 1;
      if remaining == 0.0 {
        isOpen := false;
        unrealized := 0.0;
      } else {
        current := exit;
        unrealized := UnrealizedAt(Value(), exit);
      }
      assert Value() == after;
      return true;
    }
  }

  // ----- any run of marks and reductions

  datatype Call = Mark(price: Price) | Cut(quantity: Quantity, price: Price) | CutAll(price: Price)

  lemma QuotientOfProduct(a: real, x: real, d: real)
    requires d != 0.0 && a == x * d
    ensures a / d == x
  {
  }

  lemma ShareOfProduct(div: Division, eps: real, open: real, quantity: Quantity, held: Lot, booked: real)
    requires Rounds(div, eps) && open * quantity == booked * held
    ensures Off(Share(div, open, quantity, held), booked) <= eps
  {
    QuotientOfProduct(open * quantity, booked, held);
    RoundsAt(div, eps, open * quantity, held);
  }

  /** The share realized is the P&L of the quantity reduced, up to the division error. */
  lemma ShareIsPnL(div: Division, eps: real, p: Position, quantity: Quantity, exit: Price)
    requires p.quantity > 0.0 && Rounds(div, eps)
    ensures Off(Share(div, UnrealizedAt(p, exit), quantity, p.quantity), PnL(p.side, p.entry, exit, quantity)) <= eps
  {
    var unit := p.side.Sign() * (exit - p.entry);
    assert (unit * p.quantity) * quantity == (unit * quantity) * p.quantity;
    ShareOfProduct(div, eps, UnrealizedAt(p, exit), quantity, p.quantity, PnL(p.side, p.entry, exit, quantity));
  }

  /** How far two amounts are apart. */
  function Off(x: real, y: real): real { Abs(x - y) }

  lemma ReduceBooks(div: Division, eps: real, p: Position, quantity: Quantity, exit: Price)
    requires Valid(p) && p.isOpen && quantity <= p.quantity && Rounds(div, eps)
    ensures Reduce(div, p, quantity, exit).Some?
    ensures Off(Reduce(div, p, quantity, exit).value.realized, p.realized + PnL(p.side, p.entry, exit, quantity)) <= eps
  {
    ShareIsPnL(div, eps, p, quantity, exit);
  }

  function Apply(div: Division, p: Position, c: Call): (r: Option<Position>)
    requires Valid(p)
    ensures r.Some? ==> Valid(r.value)
  {
    match c
    case Mark(m) => MarkPrice(p, m)
    case Cut(q, x) => Reduce(div, p, q, x)
    case CutAll(x) => Close(div, p, x)
  }

  function Next(div: Division, p: Position, c: Call): (r: Position)
    requires Valid(p)
    ensures Valid(r)
  {
    match Apply(div, p, c)
    case None => p
    case Some(after) => after
  }

  function Run(div: Division, p: Position, calls: seq<Call>): (r: Position)
    requires Valid(p)
    ensures Valid(r)
  {
    if calls == [] then p
    else Next(div, Run(div, p, calls[..|calls| - 1]), calls[|calls| - 1])
  }

  // ----- the plain account of a run, from the calls and the quantity held at first

  /** Whether a call reduces a position that holds this much. */
  predicate Reduces(held: Quantity, c: Call) { held > 0.0 && (c.CutAll? || (c.Cut? && c.quantity <= held)) }

  function Taken(held: Quantity, c: Call): (r: Quantity)
    ensures r <= held
  {
    if !Reduces(held, c) then 0.0 else if c.CutAll? then held else c.quantity
  }

  function Remaining(held: Quantity, calls: seq<Call>): Quantity {
    if calls == [] then held
    else
      var before := Remaining(held, calls[..|calls| - 1]);
      before - Taken(before, calls[|calls| - 1])
  }

  /** Side times (exit - entry) times quantity, added over the reductions. */
  ghost function BookedPnL(side: Side, entry: Price, held: Quantity, calls: seq<Call>): real {
    if calls == [] then 0.0
    else
      var before, last := calls[..|calls| - 1], calls[|calls| - 1];
      BookedPnL(side, entry, held, before) + PnL(side, entry, last.price, Taken(Remaining(held, before), last))
  }

  function Reductions(held: Quantity, calls: seq<Call>): nat {
    if calls == [] then 0
    else
      var before := calls[..|calls| - 1];
      Reductions(held, before) + Bit(Reduces(Remaining(held, before), calls[|calls| - 1]))
  }

  /** The last price: of the latest mark, or reduction short of closing, while the position was open. */
  function LastPrice(start: Price, held: Quantity, calls: seq<Call>): Price {
    if calls == [] then start
    else
      var before, last := calls[..|calls| - 1], calls[|calls| - 1];
      var left := Remaining(held, before);
      if left > 0.0 && (last.Mark? || (last.Cut? && last.quantity < left)) then last.price
      else LastPrice(start, held, before)
  }

  /** Calls that took effect: marks and reductions of an open position, none beyond what it holds. */
  function Effective(held: Quantity, calls: seq<Call>): nat {
    if calls == [] then 0
    else
      var before, last := calls[..|calls| - 1], calls[|calls| - 1];
      var left := Remaining(held, before);
      Effective(held, before) + Bit(left > 0.0 && (last.Cut? ==> last.quantity <= left))
  }

  /** What no call ever changes. */
  predicate SameTrade(p: Position, q: Position) { q.entry == p.entry && q.side == p.side && q.symbol == p.symbol }

  lemma NothingTakenBooksNothing(side: Side, entry: Price, price: Price)
    ensures PnL(side, entry, price, 0.0) == 0.0
  {
  }

  function ErrorOf(eps: real, rounded: bool): real { if rounded then eps else 0.0 }

  lemma StepBooks(div: Division, eps: real, p: Position, c: Call)
    requires Valid(p) && Rounds(div, eps)
    ensures var r, taken := Next(div, p, c), Taken(p.quantity, c);
            && Off(r.realized, p.realized + PnL(p.side, p.entry, c.price, taken)) <= ErrorOf(eps, Reduces(p.quantity, c))
            && r.quantity == p.quantity - taken && SameTrade(p, r)
  {
    if Reduces(p.quantity, c) {
      ReduceBooks(div, eps, p, Taken(p.quantity, c), c.price);
    } else {
      NothingTakenBooksNothing(p.side, p.entry, c.price);
    }
  }

  /** Two amounts booked one after the other are off by the sum of what each is off. */
  lemma ErrorsAdd(start: real, middle: real, end: real, first: real, second: real, e1: real, e2: real)
    requires Off(middle, start + first) <= e1 && Off(end, middle + second) <= e2
    ensures Off(end, start + (first + second)) <= e1 + e2
  {
  }

  /** The error of `n` divisions. */
  function Errors(eps: real, n: nat): real { n as real * eps }

  lemma OneMoreError(eps: real, n: nat, more: bool)
    ensures Errors(eps, n + Bit(more)) == Errors(eps, n) + ErrorOf(eps, more)
  {
    if more {
      assert (n + 1) as real == n as real + 1.0;
    }
  }

  /** One more call on a position that so far keeps the account. */
  lemma StepKeepsAccount(div: Division, eps: real, start: real, booked: real, n: nat, p: Position, c: Call)
    requires Valid(p) && Rounds(div, eps) && Off(p.realized, start + booked) <= Errors(eps, n)
    ensures Off(Next(div, p, c).realized, start + (booked + PnL(p.side, p.entry, c.price, Taken(p.quantity, c))))
         <= Errors(eps, n + Bit(Reduces(p.quantity, c)))
  {
    StepBooks(div, eps, p, c);
    var more := Reduces(p.quantity, c);
    ErrorsAdd(start, p.realized, Next(div, p, c).realized, booked, PnL(p.side, p.entry, c.price, Taken(p.quantity, c)),
              Errors(eps, n), ErrorOf(eps, more));
    OneMoreError(eps, n, more);
  }

  /**
   * Over any run the realized P&L is the plain account's, off by at most `eps` per reduction; the quantity is
   * what the account leaves, last price and version follow the calls, and the aggregate's invariant holds.
   */
  lemma {:induction false} PnLOverAnyRun(div: Division, eps: real, p: Position, calls: seq<Call>)
    requires Valid(p) && Rounds(div, eps)
    ensures var r := Run(div, p, calls);
            && Off(r.realized, p.realized + BookedPnL(p.side, p.entry, p.quantity, calls))
               <= Errors(eps, Reductions(p.quantity, calls))
            && r.quantity == Remaining(p.quantity, calls)
            && r.current == LastPrice(p.current, p.quantity, calls)
            && r.version == p.version + Effective(p.quantity, calls)
            && r.unrealized == UnrealizedAt(r, r.current)
            && (r.isOpen <==> r.quantity > 0.0)
            && SameTrade(p, r)
  {
    if calls != [] {
      var before, last := calls[..|calls| - 1], calls[|calls| - 1];
      PnLOverAnyRun(div, eps, p, before);
      var q := Run(div, p, before);
      StepBooks(div, eps, q, last);
      StepKeepsAccount(div, eps, p.realized, BookedPnL(p.side, p.entry, p.quantity, before),
                       Reductions(p.quantity, before), q, last);
    }
  }

  lemma SplitBooks(side: Side, entry: Price, exit: Price, a: Quantity, b: Quantity)
    ensures PnL(side, entry, exit, a + b) == PnL(side, entry, exit, a) + PnL(side, entry, exit, b)
  {
    var unit := side.Sign() * (exit - entry);
    assert unit * (a + b) == unit * a + unit * b;
  }

  /**
   * Splitting one reduction into two at the same price books the same position. Only the version tells
   * them apart, the last price when the reduction closes, since closing at once keeps the earlier mark, and
   * what the three divisions round.
   */
  lemma SplitReduction(div: Division, eps: real, p: Position, a: Quantity, b: Quantity, exit: Price)
    requires Valid(p) && p.isOpen && a < p.quantity && a + b <= p.quantity && Rounds(div, eps)
    ensures var whole, split := Run(div, p, [Cut(a + b, exit)]), Run(div, p, [Cut(a, exit), Cut(b, exit)]);
            && split == whole.(version := whole.version + 1, current := exit, realized := split.realized)
            && Off(split.realized, whole.realized) <= 3.0 * eps
  {
    var one, two := [Cut(a + b, exit)], [Cut(a, exit), Cut(b, exit)];
    assert one[..0] == [] && two[..1] == [Cut(a, exit)] && two[..1][..0] == [];
    var first := Next(div, p, Cut(a, exit));
    StepBooks(div, eps, p, Cut(a + b, exit));
    StepBooks(div, eps, p, Cut(a, exit));
    StepBooks(div, eps, first, Cut(b, exit));
    SplitBooks(p.side, p.entry, exit, a, b);
  }
}

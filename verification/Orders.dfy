/** The order aggregate and its lifecycle (internal/domain/order). */
module Orders {
  import opened Primitives

  datatype Status = Pending | Submitted | PartiallyFilled | Filled | Cancelled | Rejected | Failed | Unknown

  predicate IsTerminal(s: Status) { s.Filled? || s.Cancelled? || s.Rejected? || s.Failed? }

  const ALLOWED_STATUS_TRANSITIONS: map<Status, set<Status>> := map[
    Pending := {Submitted, Failed},
    Submitted := {PartiallyFilled, Filled, Cancelled, Rejected, Unknown},
    PartiallyFilled := {Filled, Cancelled, Unknown},
    Unknown := {Submitted, PartiallyFilled, Filled, Cancelled, Rejected, Failed}
  ]

  predicate CanTransition(s: Status, target: Status) {
    s in ALLOWED_STATUS_TRANSITIONS && target in ALLOWED_STATUS_TRANSITIONS[s]
  }

  type ClientId = nat

  /** An order as loaded, held and stored; `clientId` stands for the risk decision's UUID. */
  datatype Order = Order(
    clientId: ClientId,
    brokerId: string,
    symbol: Symbol,
    side: Side,
    quantity: Lot,
    filled: Quantity,
    averagePrice: Option<Price>,
    status: Status,
    failureReason: string,
    version: nat)

  predicate IsFilled(o: Order) { o.status.Filled? }

  predicate IsAcknowledged(o: Order) { o.brokerId != "" }

  /** NewPendingOrder: a zero quantity or an empty strategy name is refused. */
  function NewPending(clientId: ClientId, symbol: Symbol, side: Side, quantity: Quantity, strategy: string): Option<Order> {
    if quantity == 0.0 || strategy == "" then None
    else Some(Order(clientId, "", symbol, side, quantity, 0.0, None, Pending, "", 1))
  }

  datatype Call =
    | Submit(brokerId: string)
    | Fail(reason: string)
    | MarkPartiallyFilled(filled: Quantity, price: Price)
    | MarkFilled(price: Price)
    | Cancel
    | Reject(reason: string)
    | MarkUnknown

  function Target(c: Call): Status {
    match c
    case Submit(_) => Submitted
    case Fail(_) => Failed
    case MarkPartiallyFilled(_, _) => PartiallyFilled
    case MarkFilled(_) => Filled
    case Cancel => Cancelled
    case Reject(_) => Rejected
    case MarkUnknown => Unknown
  }

  /** The argument checks the transition methods make before they look at the status. */
  predicate WellFormed(o: Order, c: Call) {
    match c
    case Submit(id) => id != ""
    case MarkPartiallyFilled(q, _) => 0.0 < q <= o.quantity
    case _ => true
  }

  predicate Accepts(o: Order, c: Call) { WellFormed(o, c) && CanTransition(o.status, Target(c)) }

  /** The order after one call; a refused call changes nothing. */
  function Apply(o: Order, c: Call): Order {
    if !Accepts(o, c) then o
    else
      var moved := o.(status := Target(c), version := o.version + 1);
      match c
      case Submit(id) => moved.(brokerId := id)
      case Fail(reason) => moved.(failureReason := reason)
      case Reject(reason) => moved.(failureReason := reason)
      case MarkPartiallyFilled(q, p) => moved.(filled := q, averagePrice := Some(p))
      case MarkFilled(p) => moved.(filled := o.quantity, averagePrice := Some(p))
      case Cancel => moved
      case MarkUnknown => moved
  }

  class OrderAggregate {
    const clientId: ClientId
    const symbol: Symbol
    const side: Side
    const quantity: Lot
    var brokerId: string
    var filled: Quantity
    var averagePrice: Option<Price>
    var status: Status
    var failureReason: string
    var version: nat

    function Value(): Order
      reads this
    {
      Order(clientId, brokerId, symbol, side, quantity, filled, averagePrice, status, failureReason, version)
    }

    constructor (clientId: ClientId, symbol: Symbol, side: Side, quantity: Lot)
      ensures Value() == Order(clientId, "", symbol, side, quantity, 0.0, None, Pending, "", 1)
    {
      this.clientId, this.symbol, this.side, this.quantity := clientId, symbol, side, quantity;
      brokerId, filled, averagePrice, status, failureReason, version := "", 0.0, None, Pending, "", 1;
    }

    method Move(target: Status) returns (ok: bool)
      modifies `status, `version
      ensures ok <==> CanTransition(old(status), target)
      ensures if ok then status == target && version == old(version) + 1
              else status == old(status) && version == old(version)
    {
      if !CanTransition(status, target) { return false; }
      status := target;
      version := version + 1;
      return true;
    }

    method Handle(c: Call) returns (ok: bool)
      modifies this
      ensures ok <==> Accepts(old(Value()), c)
      ensures Value() == Apply(old(Value()), c)
    {
      match c {
        case Submit(id) =>
          if id == "" { return false; }
          ok := Move(Submitted);
          if ok { brokerId := id; }
        case Fail(reason) =>
          ok := Move(Failed);
          if ok { failureReason := reason; }
        case MarkPartiallyFilled(q, p) =>
          if q == 0.0 || q > quantity { return false; }
          ok := Move(PartiallyFilled);
          if ok { filled, averagePrice := q, Some(p); }
        case MarkFilled(p) =>
          ok := Move(Filled);
          if ok { filled, averagePrice := quantity, Some(p); }
        case Cancel =>
          ok := Move(Cancelled);
        case Reject(reason) =>
          ok := Move(Rejected);
          if ok { failureReason := reason; }
        case MarkUnknown =>
          ok := Move(Unknown);
      }
    }
  }

  /** When a call is accepted, by the status it leads to, with the checks on its arguments. */
  lemma AcceptsExactlyWhen(o: Order, c: Call)
    ensures Accepts(o, c) <==>
            match c
            case Submit(id) => id != "" && (o.status.Pending? || o.status.Unknown?)
            case Fail(_) => o.status.Pending? || o.status.Unknown?
            case MarkPartiallyFilled(q, _) => 0.0 < q <= o.quantity && (o.status.Submitted? || o.status.Unknown?)
            case MarkFilled(_) => o.status.Submitted? || o.status.PartiallyFilled? || o.status.Unknown?
            case Cancel => o.status.Submitted? || o.status.PartiallyFilled? || o.status.Unknown?
            case Reject(_) => o.status.Submitted? || o.status.Unknown?
            case MarkUnknown => o.status.Submitted? || o.status.PartiallyFilled?
  {
  }

  /** What an accepted call leaves behind: one version more, the fields it reports, and everything else as it was. */
  lemma CallEffects(o: Order, c: Call)
    requires Accepts(o, c)
    ensures Apply(o, c) == o.(
              version := o.version + 1,
              status := match c
                        case Submit(_) => Submitted
                        case Fail(_) => Failed
                        case MarkPartiallyFilled(_, _) => PartiallyFilled
                        case MarkFilled(_) => Filled
                        case Cancel => Cancelled
                        case Reject(_) => Rejected
                        case MarkUnknown => Unknown,
              brokerId := if c.Submit? then c.brokerId else o.brokerId,
              filled := if c.MarkFilled? then o.quantity else if c.MarkPartiallyFilled? then c.filled else o.filled,
              averagePrice := if c.MarkFilled? || c.MarkPartiallyFilled? then Some(c.price) else o.averagePrice,
              failureReason := if c.Fail? || c.Reject? then c.reason else o.failureReason)
  {
  }

  /** Terminal is what no call leads out of. */
  lemma TerminalExactlyWhenStuck(o: Order)
    ensures IsTerminal(o.status) <==> forall c :: !Accepts(o, c)
    ensures IsTerminal(o.status) <==> o.status in {Filled, Cancelled, Rejected, Failed}
  {
    if !IsTerminal(o.status) {
      assert Accepts(o, Fail("")) || Accepts(o, Cancel);
    }
  }

  /** A new order is refused for a zero quantity or a missing strategy, and otherwise awaits its submission. */
  lemma NewPendingExactlyWhen(clientId: ClientId, symbol: Symbol, side: Side, quantity: Quantity, strategy: string)
    ensures var r := NewPending(clientId, symbol, side, quantity, strategy);
            && (r.Some? <==> quantity > 0.0 && strategy != "")
            && (r.Some? ==> r.value == Order(clientId, "", symbol, side, quantity, 0.0, None, Pending, "", 1))
  {
  }

  // ----- any call sequence

  function Run(o: Order, calls: seq<Call>): Order {
    if calls == [] then o else Apply(Run(o, calls[..|calls| - 1]), calls[|calls| - 1])
  }

  function Accepted(o: Order, calls: seq<Call>): nat {
    if calls == [] then 0
    else
      var before := calls[..|calls| - 1];
      Accepted(o, before) + Bit(Accepts(Run(o, before), calls[|calls| - 1]))
  }

  predicate LifecycleOk(o: Order) {
    && o.filled <= o.quantity
    && (o.status.Filled? ==> o.filled == o.quantity && o.averagePrice.Some?)
    && (o.status.PartiallyFilled? ==> o.filled > 0.0 && o.averagePrice.Some?)
    && (!o.status.Pending? && !o.status.Failed? ==> o.brokerId != "")
    && (o.status.Pending? ==> o.brokerId == "" && o.version == 1)
  }

  /** Whatever is called, in whatever order, on a fresh order. */
  lemma {:induction false} LifecycleOverAnyCalls(o: Order, calls: seq<Call>)
    requires o.status.Pending? && o.version == 1 && o.brokerId == "" && o.filled == 0.0
    ensures LifecycleOk(Run(o, calls))
    ensures Run(o, calls).version == 1 + Accepted(o, calls)
    ensures Run(o, calls).quantity == o.quantity && Run(o, calls).clientId == o.clientId
  {
    if calls != [] {
      LifecycleOverAnyCalls(o, calls[..|calls| - 1]);
    }
  }

  /** Terminal states absorb: every later call is refused and the order never changes again. */
  lemma {:induction false} TerminalAbsorbs(o: Order, calls: seq<Call>)
    requires IsTerminal(o.status)
    ensures Run(o, calls) == o && Accepted(o, calls) == 0
  {
    if calls != [] {
      TerminalAbsorbs(o, calls[..|calls| - 1]);
    }
  }

  /** A broker id (so every status but PENDING and FAILED, UNKNOWN included) goes back to an accepted Submit. */
  lemma {:induction false} AcknowledgedWasSubmitted(o: Order, calls: seq<Call>) returns (k: nat)
    requires o.status.Pending? && o.version == 1 && o.brokerId == "" && o.filled == 0.0
    requires Run(o, calls).brokerId != ""
    ensures k < |calls| && calls[k] == Submit(Run(o, calls).brokerId) && Accepts(Run(o, calls[..k]), calls[k])
  {
    var n := |calls| - 1;
    var before := calls[..n];
    if calls[n].Submit? && Accepts(Run(o, before), calls[n]) {
      k := n;
    } else {
      k := AcknowledgedWasSubmitted(o, before);
      assert before[..k] == calls[..k];
    }
  }
}

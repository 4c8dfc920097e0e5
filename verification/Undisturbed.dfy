/**
 * What each use case does from its start to its end when nothing else writes in between: the tables it leaves,
 * row by row, for every table it may start from and every answer of the outside world.
 */
module Undisturbed {
  import opened Primitives
  import opened Storage
  import opened Protocol
  import opened Invariants
  import opened Safety
  import Operation
  import Orders
  import Positions
  import Accounts

  /** The tables and the process after one step for each answer. */
  function Drive(env: Env, t: Tables, now: nat, p: Proc, oracles: seq<Oracle>): (Tables, Proc) {
    if oracles == [] then (t, p)
    else
      var (t1, p1) := Drive(env, t, now, p, oracles[..|oracles| - 1]);
      var e := Advance(env, t1, now, p1, oracles[|oracles| - 1]);
      (e.tables, e.proc)
  }

  lemma DriveOn(env: Env, t: Tables, now: nat, p: Proc, oracles: seq<Oracle>, o: Oracle)
    ensures var (t1, p1) := Drive(env, t, now, p, oracles);
            var e := Advance(env, t1, now, p1, o);
            Drive(env, t, now, p, oracles + [o]) == (e.tables, e.proc)
  {
    assert (oracles + [o])[..|oracles|] == oracles;
  }

  /** A use case that has ended stays ended. */
  lemma EndedStays(env: Env, t: Tables, now: nat, c: Control, since: nat, o: Oracle)
    ensures Advance(env, t, now, Done, o) == Stay(t, Done)
    ensures Advance(env, t, now, ModeDone(c, since), o) == Stay(t, ModeDone(c, since))
  {
  }

  // ----- ActivateKillSwitch, ChangeOperationalMode, the forced retreat

  /** The three steps of a controller, on the tables it starts from. */
  function ControllerEnds(t: Tables, c: Control, since: nat): Effect {
    var first := LoadMode(t, c, since);
    if !first.proc.ModeLoaded? then first
    else
      var second := LoadAccount(t, c, since, t.mode);
      if !second.proc.ModeReady? then second else CommitMode(t, c, since, t.mode, t.account)
  }

  lemma DriveThree(env: Env, t: Tables, now: nat, p: Proc, o: Oracle)
    ensures var e1 := Advance(env, t, now, p, o);
            var e2 := Advance(env, e1.tables, now, e1.proc, o);
            var e3 := Advance(env, e2.tables, now, e2.proc, o);
            Drive(env, t, now, p, [o, o, o]) == (e3.tables, e3.proc)
  {
    assert [o, o, o] == [] + [o] + [o] + [o];
    DriveOn(env, t, now, p, [], o);
    DriveOn(env, t, now, p, [] + [o], o);
    DriveOn(env, t, now, p, [] + [o] + [o], o);
  }

  lemma LoadModeLeads(t: Tables, c: Control, since: nat)
    ensures var e := LoadMode(t, c, since);
            e.tables == t && (e.proc == Done || e.proc == ModeDone(c, since) || e.proc == ModeLoaded(c, since, t.mode))
  {
  }

  lemma LoadAccountLeads(t: Tables, c: Control, since: nat)
    ensures var e := LoadAccount(t, c, since, t.mode);
            e.tables == t && (e.proc == Done || e.proc == ModeReady(c, since, t.mode, t.account))
  {
  }

  lemma ControllerDrives(env: Env, t: Tables, now: nat, c: Control, since: nat, o: Oracle)
    ensures Drive(env, t, now, ModeStart(c, since), [o, o, o])
         == (ControllerEnds(t, c, since).tables, ControllerEnds(t, c, since).proc)
  {
    DriveThree(env, t, now, ModeStart(c, since), o);
    EndedStays(env, t, now, c, since, o);
    LoadModeLeads(t, c, since);
    LoadAccountLeads(t, c, since);
  }

  /** Mode row and account row in a mode, by whom and why. */
  function InMode(t: Tables, mode: Operation.Mode, actor: string, origin: string, reason: string): Tables {
    t.(mode := Operation.ModeRow(mode, actor, origin, reason, t.mode.version + 1),
       account := t.account.(mode := mode, version := t.account.version + 1))
  }

  lemma CommitSets(t: Tables, c: Control, since: nat)
    requires Operation.Transition(t.mode, RequestOf(c)).Some?
    ensures var r := RequestOf(c);
            var t' := InMode(t, r.target, r.actor, r.origin, r.reason);
            && CommitMode(t, c, since, t.mode, t.account).tables
               == (if c.Kill? then t'.(outbox := t.outbox + [KillSwitchActivated]) else t')
            && CommitMode(t, c, since, t.mode, t.account).proc == ModeDone(c, since)
  {
  }

  /**
   * A kill switch with actor, origin and reason takes every mode to KILL_SWITCH, KILL_SWITCH included, in mode
   * row and account, and announces itself once; with one of them missing it changes nothing.
   */
  lemma KillSwitchKills(env: Env, t: Tables, now: nat, actor: string, origin: string, reason: string, since: nat, o: Oracle)
    ensures var c := Kill(actor, origin, reason);
            Drive(env, t, now, ModeStart(c, since), [o, o, o])
            == if actor != "" && origin != "" && reason != ""
               then (InMode(t, Operation.KillSwitch, actor, origin, reason).(outbox := t.outbox + [KillSwitchActivated]),
                     ModeDone(c, since))
               else (t, Done)
  {
    var c := Kill(actor, origin, reason);
    ControllerDrives(env, t, now, c, since, o);
    Operation.TransitionExactlyWhen(t.mode, RequestOf(c));
    if Operation.Transition(t.mode, RequestOf(c)).Some? {
      CommitSets(t, c, since);
    }
  }

  /** Which mode a request may enter from which, with which token. */
  predicate MayEnter(from: Operation.Mode, target: Operation.Mode, token: string) {
    match target
    case Paused => true
    case KillSwitch => true
    case CloseOnly => from != Operation.KillSwitch
    case Paper => from in {Operation.Paper, Operation.Testnet, Operation.Paused}
    case Testnet => from in {Operation.Paper, Operation.Testnet, Operation.Paused}
    case Real => from in {Operation.Paper, Operation.Testnet, Operation.Paused, Operation.Real}
                 && token == "I_UNDERSTAND_THE_RISK"
  }

  /** A mode change enters its own target if it may, with actor and reason given, and otherwise changes nothing. */
  lemma ChangeEntersItsTarget(env: Env, t: Tables, now: nat, target: Operation.Mode, actor: string, origin: string,
                              reason: string, token: string, since: nat, o: Oracle)
    ensures var c := Change(target, actor, origin, reason, token);
            Drive(env, t, now, ModeStart(c, since), [o, o, o])
            == if actor != "" && reason != "" && MayEnter(t.mode.mode, target, token)
               then (InMode(t, target, actor, origin, reason), ModeDone(c, since)) else (t, Done)
  {
    var c := Change(target, actor, origin, reason, token);
    ControllerDrives(env, t, now, c, since, o);
    Operation.TransitionExactlyWhen(t.mode, RequestOf(c));
    if Operation.Transition(t.mode, RequestOf(c)).Some? {
      CommitSets(t, c, since);
    }
  }

  /** A forced retreat leaves CLOSE_ONLY and KILL_SWITCH as they are, and takes every other mode to CLOSE_ONLY. */
  lemma RetreatRestricts(env: Env, t: Tables, now: nat, since: nat, o: Oracle)
    ensures Drive(env, t, now, ModeStart(ForceCloseOnly, since), [o, o, o])
         == (if t.mode.mode in {Operation.CloseOnly, Operation.KillSwitch} then t
             else InMode(t, Operation.CloseOnly, "system", "reconciliation", "critical divergence detected"),
             ModeDone(ForceCloseOnly, since))
  {
    ControllerDrives(env, t, now, ForceCloseOnly, since, o);
    Operation.TransitionExactlyWhen(t.mode, RequestOf(ForceCloseOnly));
    if t.mode.mode !in {Operation.CloseOnly, Operation.KillSwitch} {
      CommitSets(t, ForceCloseOnly, since);
    }
  }

  // ----- ExecuteApprovedOrder

  /** When an execution ends before it does anything: no decision that allows, or a mode that permits no entry. */
  lemma GateExactlyWhen(env: Env, t: Tables, d: Orders.ClientId)
    ensures LoadDecision(env, t, d)
         == if d in env.decisions && env.decisions[d].allowed
               && t.account.mode in {Operation.Paper, Operation.Testnet, Operation.Real}
            then Stay(t, ExecLoaded(d, t.account)) else Stay(t, Done)
  {
  }

  /** An order that exists for the decision ends the execution. */
  lemma RepeatExactlyWhen(t: Tables, d: Orders.ClientId, acct: Accounts.Account)
    ensures LookForOrder(t, d, acct)
         == if exists i :: 0 <= i < |t.orders| && t.orders[i].clientId == d then Stay(t, Done) else Stay(t, ExecUnseen(d, acct))
  {
  }

  /** An execution that meets none of these stops, and builds an order. */
  ghost predicate Startable(env: Env, t: Tables, now: nat, d: Orders.ClientId) {
    && d in env.decisions && env.decisions[d].allowed && env.decisions[d].size > 0.0 && env.decisions[d].strategy != ""
    && t.account.mode in {Operation.Paper, Operation.Testnet, Operation.Real}
    && (forall i :: 0 <= i < |t.orders| ==> t.orders[i].clientId != d)
    && (d in t.keys ==> t.keys[d] < now)
  }

  /** The order of a decision, as first stored. */
  function NewOrder(env: Env, d: Orders.ClientId): Orders.Order
    requires d in env.decisions && env.decisions[d].size > 0.0
  {
    var dec := env.decisions[d];
    Orders.Order(d, "", dec.symbol, dec.side, dec.size, 0.0, None, Orders.Pending, "", 1)
  }

  /** Reserved for ten minutes, and the order stored and announced. */
  function AfterPending(env: Env, t: Tables, now: nat, d: Orders.ClientId): Tables
    requires d in env.decisions && env.decisions[d].size > 0.0
  {
    t.(keys := t.keys[d := now + 600000], orders := t.orders + [NewOrder(env, d)],
       outbox := t.outbox + [OrderCreated(|t.orders|)])
  }

  const FOUR: seq<Oracle> := [] + [Fails] + [Fails] + [Fails] + [Fails]

  lemma ReservesKey(env: Env, t: Tables, now: nat, d: Orders.ClientId)
    requires Startable(env, t, now, d)
    ensures Drive(env, t, now, ExecStart(d), [] + [Fails] + [Fails] + [Fails])
         == (t.(keys := t.keys[d := now + 600000]), ExecReserved(d, t.account))
  {
    DriveOn(env, t, now, ExecStart(d), [], Fails);
    GateExactlyWhen(env, t, d);
    DriveOn(env, t, now, ExecStart(d), [] + [Fails], Fails);
    RepeatExactlyWhen(t, d, t.account);
    DriveOn(env, t, now, ExecStart(d), [] + [Fails] + [Fails], Fails);
  }

  lemma PersistsOrder(env: Env, t: Tables, d: Orders.ClientId, acct: Accounts.Account)
    requires d in env.decisions && env.decisions[d].size > 0.0 && env.decisions[d].strategy != ""
    requires forall i :: 0 <= i < |t.orders| ==> t.orders[i].clientId != d
    ensures PersistPending(env, t, d, acct)
         == Effect(t.(orders := t.orders + [NewOrder(env, d)], outbox := t.outbox + [OrderCreated(|t.orders|)]),
                   ExecPending(|t.orders|, NewOrder(env, d), acct), Created)
  {
    var dec := env.decisions[d];
    Orders.NewPendingExactlyWhen(d, dec.symbol, dec.side, dec.size, dec.strategy);
  }

  lemma ReachesBroker(env: Env, t: Tables, now: nat, d: Orders.ClientId)
    requires Startable(env, t, now, d)
    ensures Drive(env, t, now, ExecStart(d), FOUR)
         == (AfterPending(env, t, now, d), ExecPending(|t.orders|, NewOrder(env, d), t.account))
  {
    ReservesKey(env, t, now, d);
    DriveOn(env, t, now, ExecStart(d), [] + [Fails] + [Fails] + [Fails], Fails);
    PersistsOrder(env, t.(keys := t.keys[d := now + 600000]), d, t.account);
  }

  /** The broker calls: one placement, asking for what was decided; after an error, one lookup by the same id. */
  lemma PlacementAsksForTheDecision(env: Env, t: Tables, oid: nat, o: Orders.Order, acct: Accounts.Account, oracle: Oracle)
    requires o.clientId in env.decisions
    ensures var dec, e := env.decisions[o.clientId], CallPlaceOrder(env, t, oid, o, acct, oracle);
            && e.tables == t
            && e.note == Placed(oid, Request(o.clientId, dec.symbol, dec.side, dec.size, dec.entry))
            && e.proc == if oracle.Answers? then ExecAnswered(oid, o, acct, oracle.reply) else ExecLookup(oid, o, acct)
  {
  }

  /** An answer at the placement, or a found order after a failed one, is carried on as the same answer. */
  lemma AnswerIsCarriedOn(env: Env, t: Tables, now: nat, d: Orders.ClientId, reply: Reply, failed: bool)
    requires Startable(env, t, now, d)
    ensures Drive(env, t, now, ExecStart(d), FOUR + (if failed then [Fails, Answers(reply)] else [Answers(reply)]))
         == (AfterPending(env, t, now, d), ExecAnswered(|t.orders|, NewOrder(env, d), t.account, reply))
  {
    ReachesBroker(env, t, now, d);
    if failed {
      assert FOUR + [Fails, Answers(reply)] == FOUR + [Fails] + [Answers(reply)];
      DriveOn(env, t, now, ExecStart(d), FOUR, Fails);
      DriveOn(env, t, now, ExecStart(d), FOUR + [Fails], Answers(reply));
    } else {
      DriveOn(env, t, now, ExecStart(d), FOUR, Answers(reply));
    }
  }

  /** A failed placement and a lookup that finds nothing: the order is FAILED, and nothing else happened. */
  lemma AbsentOrderFails(env: Env, t: Tables, now: nat, d: Orders.ClientId, o: Oracle)
    requires Startable(env, t, now, d)
    ensures var pending := AfterPending(env, t, now, d);
            Drive(env, t, now, ExecStart(d), FOUR + [Fails] + [NotFound] + [o])
            == (pending.(orders := t.orders + [NewOrder(env, d).(status := Orders.Failed, failureReason := "placing order",
                                                                 version := 2)]),
                Done)
  {
    ReachesBroker(env, t, now, d);
    DriveOn(env, t, now, ExecStart(d), FOUR, Fails);
    DriveOn(env, t, now, ExecStart(d), FOUR + [Fails], NotFound);
    DriveOn(env, t, now, ExecStart(d), FOUR + [Fails] + [NotFound], o);
    FailsOrder(AfterPending(env, t, now, d), t.orders, NewOrder(env, d));
  }

  lemma FailsOrder(t: Tables, before: seq<Orders.Order>, o: Orders.Order)
    requires t.orders == before + [o] && o.status.Pending? && o.version == 1
    ensures SaveAfter(t, |before|, o, Orders.Fail("placing order"))
         == Stay(t.(orders := before + [o.(status := Orders.Failed, failureReason := "placing order", version := 2)]), Done)
  {
    Orders.CallEffects(o, Orders.Fail("placing order"));
    var o' := Orders.Apply(o, Orders.Fail("placing order"));
    assert StoredOrder(o, o') == o';
    assert t.orders[|before| := o'] == before + [o'];
  }

  /** A failed placement and a failed lookup: the order stays PENDING. */
  lemma AmbiguousOrderStays(env: Env, t: Tables, now: nat, d: Orders.ClientId, o: Oracle)
    requires Startable(env, t, now, d)
    ensures Drive(env, t, now, ExecStart(d), FOUR + [Fails] + [Fails] + [o]) == (AfterPending(env, t, now, d), Done)
  {
    ReachesBroker(env, t, now, d);
    DriveOn(env, t, now, ExecStart(d), FOUR, Fails);
    DriveOn(env, t, now, ExecStart(d), FOUR + [Fails], Fails);
    DriveOn(env, t, now, ExecStart(d), FOUR + [Fails] + [Fails], o);
    AmbiguityIsNotRecorded(AfterPending(env, t, now, d), |t.orders|, NewOrder(env, d));
  }

  /** Submitted: the broker's id on the order, announced. */
  function AfterSubmission(env: Env, t: Tables, now: nat, d: Orders.ClientId, brokerId: string): Tables
    requires d in env.decisions && env.decisions[d].size > 0.0
  {
    AfterPending(env, t, now, d).(
      orders := t.orders + [NewOrder(env, d).(status := Orders.Submitted, brokerId := brokerId, version := 2)],
      outbox := t.outbox + [OrderCreated(|t.orders|)] + [OrderSubmitted(|t.orders|)])
  }

  /** Filled: order, audit row, position, margin and both announcements. */
  function AfterFill(env: Env, t: Tables, now: nat, d: Orders.ClientId, brokerId: string, price: Price): Tables
    requires d in env.decisions && env.decisions[d].size > 0.0
  {
    var dec, n, m := env.decisions[d], |t.orders|, |t.positions|;
    t.(keys := t.keys[d := now + 600000],
       orders := t.orders + [Orders.Order(d, brokerId, dec.symbol, dec.side, dec.size, dec.size, Some(price), Orders.Filled,
                                          "", 3)],
       executions := t.executions + [Execution(n, dec.size, price)],
       positions := t.positions + [Positions.Position(dec.symbol, dec.side, dec.size, price, price, 0.0, 0.0, true, 1)],
       account := t.account.(available := t.account.available - dec.size * price, version := t.account.version + 1),
       outbox := t.outbox + [OrderCreated(n)] + [OrderSubmitted(n)] + [OrderFilled(n)] + [PositionOpened(m)])
  }

  lemma SubmitsOrder(t: Tables, before: seq<Orders.Order>, o: Orders.Order, acct: Accounts.Account, reply: Reply)
    requires t.orders == before + [o] && o.status.Pending? && o.version == 1
    ensures RecordSubmission(t, |before|, o, acct, reply)
         == if reply.brokerId == "" then Stay(t, Done)
            else
              var o' := o.(status := Orders.Submitted, brokerId := reply.brokerId, version := 2);
              Stay(t.(orders := before + [o'], outbox := t.outbox + [OrderSubmitted(|before|)]),
                   ExecSubmitted(|before|, o', acct, reply))
  {
    var call := Orders.Submit(reply.brokerId);
    Orders.AcceptsExactlyWhen(o, call);
    if reply.brokerId != "" {
      Orders.CallEffects(o, call);
      var o' := Orders.Apply(o, call);
      assert StoredOrder(o, o') == o';
      assert t.orders[|before| := o'] == before + [o'];
    }
  }

  lemma BooksOrder(t: Tables, before: seq<Orders.Order>, o: Orders.Order, price: Price)
    requires t.orders == before + [o] && o.status.Submitted? && o.version == 2
    requires o.quantity * price <= t.account.available && !HasOpen(t.positions, o.symbol)
    ensures FillOf(t, |before|, o, price, t.account)
         == Some(t.(orders := before + [o.(status := Orders.Filled, filled := o.quantity, averagePrice := Some(price),
                                           version := 3)],
                    executions := t.executions + [Execution(|before|, o.quantity, price)],
                    positions := t.positions
                                 + [Positions.Position(o.symbol, o.side, o.quantity, price, price, 0.0, 0.0, true, 1)],
                    account := t.account.(available := t.account.available - o.quantity * price,
                                          version := t.account.version + 1),
                    outbox := t.outbox + [OrderFilled(|before|)] + [PositionOpened(|t.positions|)]))
  {
    var call := Orders.MarkFilled(price);
    Orders.CallEffects(o, call);
    var o' := Orders.Apply(o, call);
    assert StoredOrder(o, o') == o';
    assert t.orders[|before| := o'] == before + [o'];
  }

  /** The order as the broker acknowledged it. */
  function Acknowledged(env: Env, d: Orders.ClientId, brokerId: string): Orders.Order
    requires d in env.decisions && env.decisions[d].size > 0.0
  {
    NewOrder(env, d).(status := Orders.Submitted, brokerId := brokerId, version := 2)
  }

  lemma ReachesSubmitted(env: Env, t: Tables, now: nat, d: Orders.ClientId, reply: Reply, failed: bool, o: Oracle)
    requires Startable(env, t, now, d)
    ensures var call := if failed then [Fails, Answers(reply)] else [Answers(reply)];
            Drive(env, t, now, ExecStart(d), FOUR + call + [o])
            == if reply.brokerId == "" then (AfterPending(env, t, now, d), Done)
               else (AfterSubmission(env, t, now, d, reply.brokerId),
                     ExecSubmitted(|t.orders|, Acknowledged(env, d, reply.brokerId), t.account, reply))
  {
    var call := if failed then [Fails, Answers(reply)] else [Answers(reply)];
    AnswerIsCarriedOn(env, t, now, d, reply, failed);
    DriveOn(env, t, now, ExecStart(d), FOUR + call, o);
    SubmitsOrder(AfterPending(env, t, now, d), t.orders, NewOrder(env, d), t.account, reply);
  }

  /**
   * An execution the broker answers, at once or when looked up after an error, stores the broker's id; if the
   * answer reads FILLED with a price, the margin is there and the symbol is free, it books the fill at that
   * price, and otherwise ends with the order SUBMITTED.
   */
  lemma AnsweredExecution(env: Env, t: Tables, now: nat, d: Orders.ClientId, reply: Reply, failed: bool, o: Oracle)
    requires Startable(env, t, now, d) && reply.brokerId != ""
    ensures var call := if failed then [Fails, Answers(reply)] else [Answers(reply)];
            var dec := env.decisions[d];
            Drive(env, t, now, ExecStart(d), FOUR + call + [o] + [o])
            == if reply.filled && reply.price.Some? && dec.size * reply.price.value <= t.account.available
                  && (forall j :: 0 <= j < |t.positions| && t.positions[j].isOpen ==> t.positions[j].symbol != dec.symbol)
               then (AfterFill(env, t, now, d, reply.brokerId, reply.price.value), ExecProtecting(|t.orders|))
               else (AfterSubmission(env, t, now, d, reply.brokerId), Done)
  {
    var call := if failed then [Fails, Answers(reply)] else [Answers(reply)];
    ReachesSubmitted(env, t, now, d, reply, failed, o);
    DriveOn(env, t, now, ExecStart(d), FOUR + call + [o], o);
    var o' := Acknowledged(env, d, reply.brokerId);
    BooksOrNot(env, t, now, d, reply);
  }

  lemma BooksOrNot(env: Env, t: Tables, now: nat, d: Orders.ClientId, reply: Reply)
    requires Startable(env, t, now, d) && reply.brokerId != ""
    ensures var o, dec := Acknowledged(env, d, reply.brokerId), env.decisions[d];
            BookFill(AfterSubmission(env, t, now, d, reply.brokerId), |t.orders|, o, t.account, reply)
            == if reply.filled && reply.price.Some? && dec.size * reply.price.value <= t.account.available
                  && (forall j :: 0 <= j < |t.positions| && t.positions[j].isOpen ==> t.positions[j].symbol != dec.symbol)
               then Stay(AfterFill(env, t, now, d, reply.brokerId, reply.price.value), ExecProtecting(|t.orders|))
               else Stay(AfterSubmission(env, t, now, d, reply.brokerId), Done)
  {
    var o, dec, t1 := Acknowledged(env, d, reply.brokerId), env.decisions[d], AfterSubmission(env, t, now, d, reply.brokerId);
    if reply.filled && reply.price.Some? {
      var price := reply.price.value;
      if o.quantity * price <= t.account.available && !HasOpen(t.positions, o.symbol) {
        BooksOrder(t1, t.orders, o, price);
      } else {
        assert FillOf(t1, |t.orders|, o, price, t.account).None?;
      }
    }
  }
}

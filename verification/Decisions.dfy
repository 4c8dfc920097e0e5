/** What the rows and the broker calls of a run owe to the risk decisions and the commands behind them. */
module Decisions {
  import opened Primitives
  import opened Storage
  import opened Protocol
  import opened Invariants
  import opened Safety
  import Operation
  import Orders
  import Positions
  import Accounts

  // ----- orders, positions and placements follow the decisions

  /** The order is that of an allowed decision: its symbol, side and size. */
  ghost predicate Follows(env: Env, o: Orders.Order) {
    && o.clientId in env.decisions
    && env.decisions[o.clientId].allowed
    && o.symbol == env.decisions[o.clientId].symbol
    && o.side == env.decisions[o.clientId].side
    && o.quantity == env.decisions[o.clientId].size
  }

  /** What no write to an order row ever changes. */
  predicate SameTerms(o: Orders.Order, o': Orders.Order) {
    o'.clientId == o.clientId && o'.symbol == o.symbol && o'.side == o.side && o'.quantity == o.quantity
  }

  ghost predicate TermsKept(t: Tables, t': Tables) {
    |t.orders| <= |t'.orders| && forall i :: 0 <= i < |t.orders| ==> SameTerms(t.orders[i], t'.orders[i])
  }

  lemma UpdateKeepsTerms(t: Tables, i: nat, o: Orders.Order)
    requires UpdateOrder(t, i, o).Some?
    ensures TermsKept(t, UpdateOrder(t, i, o).value) && |UpdateOrder(t, i, o).value.orders| == |t.orders|
  {
  }

  lemma {:induction false} CancellingKeepsTerms(t: Tables, os: OrderList)
    requires CancelOrders(t, os).Some?
    ensures TermsKept(t, CancelOrders(t, os).value) && |CancelOrders(t, os).value.orders| == |t.orders|
  {
    if os != [] {
      var before, last := os[..|os| - 1], os[|os| - 1];
      CancellingKeepsTerms(t, before);
      if Orders.Accepts(last.1, Orders.Cancel) {
        UpdateKeepsTerms(CancelOrders(t, before).value, last.0, Orders.Apply(last.1, Orders.Cancel));
      }
    }
  }

  lemma ResetKeepsTerms(env: Env, t: Tables, p: Proc)
    requires p.ResetReady?
    ensures var t' := CommitReset(env, t, p.acct, p.ps, p.os).tables; TermsKept(t, t') && |t'.orders| == |t.orders|
  {
    if env.resetBalance > 0.0 && AllValid(p.ps) && ResetOf(env.div, t, p.acct, p.ps, p.os, env.resetBalance).Some? {
      ClosingFrame(env.div, t, p.ps);
      CancellingKeepsTerms(ClosePositions(env.div, t, p.ps).value, p.os);
    }
  }

  lemma SettlingKeepsTerms(env: Env, t: Tables, now: nat, p: Proc, oracle: Oracle)
    requires Settles(p)
    ensures var t' := Advance(env, t, now, p, oracle).tables; TermsKept(t, t') && |t'.orders| == |t.orders|
  {
  }

  lemma BookingKeepsTerms(env: Env, t: Tables, now: nat, p: Proc, oracle: Oracle)
    requires Books(p)
    ensures var t' := Advance(env, t, now, p, oracle).tables; TermsKept(t, t') && |t'.orders| == |t.orders|
  {
  }

  /** A process knows only decisions that allow, and holds only orders on the terms of their rows. */
  ghost predicate Decided(env: Env, t: Tables, p: Proc) {
    && (p.ExecLoaded? || p.ExecUnseen? || p.ExecReserved? ==> p.d in env.decisions && env.decisions[p.d].allowed)
    && (p.ExecPending? ==> p.oid < |t.orders| && SameTerms(t.orders[p.oid], p.order))
  }

  ghost predicate AllFollow(env: Env, t: Tables) { forall i :: 0 <= i < |t.orders| ==> Follows(env, t.orders[i]) }

  lemma TermsFollow(env: Env, t: Tables, t': Tables)
    requires AllFollow(env, t) && TermsKept(t, t') && |t'.orders| == |t.orders|
    ensures AllFollow(env, t')
  {
    forall i | 0 <= i < |t'.orders|
      ensures Follows(env, t'.orders[i])
    {
      assert SameTerms(t.orders[i], t'.orders[i]) && Follows(env, t.orders[i]);
    }
  }

  lemma PersistFollows(env: Env, t: Tables, p: Proc)
    requires AllFollow(env, t) && p.ExecReserved? && Decided(env, t, p)
    ensures var e := PersistPending(env, t, p.d, p.acct);
            AllFollow(env, e.tables) && TermsKept(t, e.tables) && Decided(env, e.tables, e.proc)
  {
    var dec := env.decisions[p.d];
    Orders.NewPendingExactlyWhen(p.d, dec.symbol, dec.side, dec.size, dec.strategy);
  }

  lemma ReadsDecide(env: Env, t: Tables, now: nat, p: Proc, oracle: Oracle)
    requires Decided(env, t, p) && !(p.ExecReserved? || Settles(p) || Books(p) || p.ResetReady?)
    ensures var e := Advance(env, t, now, p, oracle); e.tables.orders == t.orders && Decided(env, e.tables, e.proc)
  {
  }

  lemma AdvanceFollows(env: Env, t: Tables, now: nat, p: Proc, oracle: Oracle)
    requires AllFollow(env, t) && Decided(env, t, p)
    ensures var e := Advance(env, t, now, p, oracle);
            AllFollow(env, e.tables) && TermsKept(t, e.tables) && Decided(env, e.tables, e.proc)
  {
    if p.ExecReserved? {
      PersistFollows(env, t, p);
    } else if Settles(p) || Books(p) {
      if Settles(p) { SettlingKeepsTerms(env, t, now, p, oracle); } else { BookingKeepsTerms(env, t, now, p, oracle); }
      TermsFollow(env, t, Advance(env, t, now, p, oracle).tables);
    } else if p.ResetReady? {
      ResetKeepsTerms(env, t, p);
      TermsFollow(env, t, Advance(env, t, now, p, oracle).tables);
    } else {
      ReadsDecide(env, t, now, p, oracle);
    }
  }

  /** The request of a placement is that of the decision of its order row. */
  ghost predicate Asks(env: Env, t: Tables, p: Placement) {
    && p.oid < |t.orders| && t.orders[p.oid].clientId in env.decisions
    && var o := t.orders[p.oid];
       var dec := env.decisions[o.clientId];
       p.request == Request(o.clientId, dec.symbol, dec.side, dec.size, dec.entry)
  }

  lemma AdvanceAsks(env: Env, t: Tables, now: nat, p: Proc, oracle: Oracle, pid: Pid)
    requires AllFollow(env, t) && Decided(env, t, p)
    ensures var e := Advance(env, t, now, p, oracle);
            e.note.Placed? ==> Asks(env, t, Placement(pid, e.note.oid, e.note.request)) && e.tables == t
  {
    if p.ExecPending? {
      assert Follows(env, t.orders[p.oid]);
    }
  }

  ghost predicate DecisionsOk(env: Env, s: System) {
    && AllFollow(env, s.tables)
    && (forall pid :: pid in s.procs ==> Decided(env, s.tables, s.procs[pid]))
    && (forall n :: 0 <= n < |s.placed| ==> Asks(env, s.tables, s.placed[n]))
  }

  lemma DecidedLasts(env: Env, t: Tables, t': Tables, p: Proc)
    requires Decided(env, t, p) && TermsKept(t, t')
    ensures Decided(env, t', p)
  {
  }

  lemma AsksLasts(env: Env, t: Tables, t': Tables, p: Placement)
    requires Asks(env, t, p) && TermsKept(t, t')
    ensures Asks(env, t', p)
  {
    assert SameTerms(t.orders[p.oid], t'.orders[p.oid]);
  }

  lemma StepFollows(env: Env, s: System, pid: Pid, oracle: Oracle)
    requires DecisionsOk(env, s) && pid in s.procs
    ensures DecisionsOk(env, Apply(s, pid, Advance(env, s.tables, s.now, s.procs[pid], oracle)))
  {
    var p := s.procs[pid];
    var e := Advance(env, s.tables, s.now, p, oracle);
    var s' := Apply(s, pid, e);
    ApplyShape(s, pid, e);
    AdvanceFollows(env, s.tables, s.now, p, oracle);
    AdvanceAsks(env, s.tables, s.now, p, oracle, pid);
    forall q | q in s'.procs
      ensures Decided(env, s'.tables, s'.procs[q])
    {
      if q != pid {
        DecidedLasts(env, s.tables, s'.tables, s.procs[q]);
      }
    }
    forall n | 0 <= n < |s'.placed|
      ensures Asks(env, s'.tables, s'.placed[n])
    {
      if n < |s.placed| {
        AsksLasts(env, s.tables, s'.tables, s.placed[n]);
      }
    }
  }

  lemma {:induction false} RunFollows(env: Env, start: real, actions: seq<Action>)
    requires start > 0.0
    ensures DecisionsOk(env, Run(env, start, actions))
  {
    if actions != [] {
      var before, a := Run(env, start, actions[..|actions| - 1]), actions[|actions| - 1];
      RunFollows(env, start, actions[..|actions| - 1]);
      if a.Step? && a.pid in before.procs {
        StepFollows(env, before, a.pid, a.oracle);
      }
    }
  }

  /**
   * Over any run every order row, every fill and every position is on the terms of an allowed risk decision:
   * its symbol, its side, its size.
   */
  lemma OrdersFollowDecisions(env: Env, start: real, actions: seq<Action>)
    requires start > 0.0
    ensures var t := Run(env, start, actions).tables;
            && (forall i :: 0 <= i < |t.orders| ==>
                  var o := t.orders[i];
                  && o.clientId in env.decisions
                  && var dec := env.decisions[o.clientId];
                     dec.allowed && o.symbol == dec.symbol && o.side == dec.side && o.quantity == dec.size)
            && |t.positions| == |t.executions|
            && (forall j :: 0 <= j < |t.positions| ==>
                  var x, p := t.executions[j], t.positions[j];
                  && x.order < |t.orders| && t.orders[x.order].clientId in env.decisions
                  && var dec := env.decisions[t.orders[x.order].clientId];
                     dec.allowed && p.symbol == dec.symbol && p.side == dec.side && x.quantity == dec.size
                     && p.entry == x.price && (p.isOpen ==> p.quantity == dec.size))
  {
    RunFollows(env, start, actions);
    RunIsSafe(env, start, actions);
    var t := Run(env, start, actions).tables;
    forall j | 0 <= j < |t.positions|
      ensures FillOk(t.orders, t.executions[j], t.positions[j]) && Follows(env, t.orders[t.executions[j].order])
      ensures t.orders[t.executions[j].order].filled == t.orders[t.executions[j].order].quantity
    {
      assert FillOk(t.orders, t.executions[j], t.positions[j]);
      assert Orders.LifecycleOk(t.orders[t.executions[j].order]);
    }
    assert forall i :: 0 <= i < |t.orders| ==> Follows(env, t.orders[i]);
  }

  /** Over any run every call of PlaceOrder asks for what the decision behind its order row approved. */
  lemma PlacementsFollowDecisions(env: Env, start: real, actions: seq<Action>, n: nat)
    requires start > 0.0 && n < |Run(env, start, actions).placed|
    ensures var s := Run(env, start, actions);
            var p := s.placed[n];
            && p.oid < |s.tables.orders| && s.tables.orders[p.oid].clientId in env.decisions
            && var d := s.tables.orders[p.oid].clientId;
               var dec := env.decisions[d];
               dec.allowed && p.request == Request(d, dec.symbol, dec.side, dec.size, dec.entry)
  {
    RunFollows(env, start, actions);
    var s := Run(env, start, actions);
    assert Asks(env, s.tables, s.placed[n]);
    assert Follows(env, s.tables.orders[s.placed[n].oid]);
  }

  // ----- kill switches announce themselves

  predicate IsKill(e: Event) { e.KillSwitchActivated? }

  /** The step in which a kill switch commits. */
  predicate CommitsKill(p: Proc, after: Proc) { p.ModeReady? && p.control.Kill? && after.ModeDone? }

  /** How many kill switches have committed in a run. */
  ghost function CommittedKills(env: Env, start: real, actions: seq<Action>): nat
    requires start > 0.0
  {
    if actions == [] then 0
    else
      var before, a := Run(env, start, actions[..|actions| - 1]), actions[|actions| - 1];
      CommittedKills(env, start, actions[..|actions| - 1])
      + Bit(a.Step? && a.pid in before.procs
            && CommitsKill(before.procs[a.pid], Next(env, before, a).procs[a.pid]))
  }

  lemma CommitAnnounces(t: Tables, p: Proc)
    requires p.ModeReady?
    ensures var e := CommitMode(t, p.control, p.since, p.row, p.acct);
            e.tables.outbox == if CommitsKill(p, e.proc) then t.outbox + [KillSwitchActivated] else t.outbox
  {
  }

  lemma ControllerReads(env: Env, t: Tables, now: nat, p: Proc, oracle: Oracle)
    requires IsModeProc(p) && !p.ModeReady?
    ensures Advance(env, t, now, p, oracle).tables == t
  {
  }

  lemma ControllerOutbox(env: Env, t: Tables, now: nat, p: Proc, oracle: Oracle)
    requires IsModeProc(p)
    ensures var e := Advance(env, t, now, p, oracle);
            e.tables.outbox == if CommitsKill(p, e.proc) then t.outbox + [KillSwitchActivated] else t.outbox
  {
    if p.ModeReady? {
      CommitAnnounces(t, p);
    } else {
      ControllerReads(env, t, now, p, oracle);
    }
  }

  lemma ControllerAnnounces(env: Env, t: Tables, now: nat, p: Proc, oracle: Oracle)
    requires IsModeProc(p)
    ensures var e := Advance(env, t, now, p, oracle);
            CountIf(e.tables.outbox, IsKill) == CountIf(t.outbox, IsKill) + Bit(CommitsKill(p, e.proc))
  {
    ControllerOutbox(env, t, now, p, oracle);
    CountAppend(t.outbox, KillSwitchActivated, IsKill);
  }

  lemma ResetAnnouncesNothing(env: Env, t: Tables, p: Proc)
    requires p.ResetReady?
    ensures CommitReset(env, t, p.acct, p.ps, p.os).tables.outbox == t.outbox
  {
    if env.resetBalance > 0.0 && AllValid(p.ps) && ResetOf(env.div, t, p.acct, p.ps, p.os, env.resetBalance).Some? {
      ClosingFrame(env.div, t, p.ps);
      CancelFrame(ClosePositions(env.div, t, p.ps).value, p.os);
    }
  }

  lemma BookingAnnouncesNoKill(t: Tables, oid: nat, o: Orders.Order, acct: Accounts.Account, reply: Reply)
    ensures CountIf(BookFill(t, oid, o, acct, reply).tables.outbox, IsKill) == CountIf(t.outbox, IsKill)
  {
    var e := BookFill(t, oid, o, acct, reply);
    if e.proc.ExecProtecting? {
      CountAppend(t.outbox, OrderFilled(oid), IsKill);
      CountAppend(t.outbox + [OrderFilled(oid)], PositionOpened(|t.positions|), IsKill);
    }
  }

  lemma ExecutorAnnouncesNoKill(env: Env, t: Tables, now: nat, p: Proc, oracle: Oracle)
    requires !IsModeProc(p) && !p.ResetReady? && !p.ExecSubmitted?
    ensures CountIf(Advance(env, t, now, p, oracle).tables.outbox, IsKill) == CountIf(t.outbox, IsKill)
  {
    CountAppend(t.outbox, OrderCreated(|t.orders|), IsKill);
    if p.ExecAnswered? {
      CountAppend(t.outbox, OrderSubmitted(p.oid), IsKill);
    }
  }

  lemma AdvanceAnnounces(env: Env, t: Tables, now: nat, p: Proc, oracle: Oracle)
    ensures var e := Advance(env, t, now, p, oracle);
            CountIf(e.tables.outbox, IsKill) == CountIf(t.outbox, IsKill) + Bit(CommitsKill(p, e.proc))
  {
    if IsModeProc(p) {
      ControllerAnnounces(env, t, now, p, oracle);
    } else if p.ResetReady? {
      ResetAnnouncesNothing(env, t, p);
    } else if p.ExecSubmitted? {
      BookingAnnouncesNoKill(t, p.oid, p.order, p.acct, p.reply);
    } else {
      ExecutorAnnouncesNoKill(env, t, now, p, oracle);
    }
  }

  /** Over any run the outbox holds one kill-switch event for each kill switch that committed. */
  lemma {:induction false} KillsAreAnnounced(env: Env, start: real, actions: seq<Action>)
    requires start > 0.0
    ensures CountIf(Run(env, start, actions).tables.outbox, IsKill) == CommittedKills(env, start, actions)
  {
    if actions != [] {
      var before, a := Run(env, start, actions[..|actions| - 1]), actions[|actions| - 1];
      KillsAreAnnounced(env, start, actions[..|actions| - 1]);
      if a.Step? && a.pid in before.procs {
        AdvanceAnnounces(env, before.tables, before.now, before.procs[a.pid], a.oracle);
        ApplyShape(before, a.pid, Advance(env, before.tables, before.now, before.procs[a.pid], a.oracle));
      }
    }
  }
}

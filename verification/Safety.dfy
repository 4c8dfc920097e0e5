/** Inductive invariants of the protocol over unbounded runs, and the theorems they give. */
module Safety {
  import opened Primitives
  import opened Storage
  import opened Protocol
  import opened Invariants
  import Operation
  import Orders
  import Accounts

  // ----- what a process may rely on between two of its steps

  ghost predicate EntrySnapshot(t: Tables, acct: Accounts.Account) {
    FreshAccount(acct, t.account) && Operation.AllowsNewEntries(acct.mode)
  }

  ghost predicate OrderSnapshot(t: Tables, oid: nat, o: Orders.Order) {
    oid < |t.orders| && FreshOrder(o, t.orders[oid]) && Orders.LifecycleOk(o)
  }

  ghost predicate ProcOk(t: Tables, p: Proc) {
    match p
    case ExecLoaded(_, acct) => EntrySnapshot(t, acct)
    case ExecUnseen(_, acct) => EntrySnapshot(t, acct)
    case ExecReserved(_, acct) => EntrySnapshot(t, acct)
    case ExecPending(oid, o, acct) => OrderSnapshot(t, oid, o) && o.status.Pending? && EntrySnapshot(t, acct)
    case ExecLookup(oid, o, acct) => OrderSnapshot(t, oid, o) && o.status.Pending? && EntrySnapshot(t, acct)
    case ExecFailing(oid, o) => OrderSnapshot(t, oid, o) && o.status.Pending?
    case ExecAmbiguous(oid, o) => OrderSnapshot(t, oid, o) && o.status.Pending?
    case ExecAnswered(oid, o, acct, _) => OrderSnapshot(t, oid, o) && o.status.Pending? && EntrySnapshot(t, acct)
    case ExecSubmitted(oid, o, acct, _) => OrderSnapshot(t, oid, o) && EntrySnapshot(t, acct)
    case ModeLoaded(c, _, row) => FreshMode(row, t.mode) && Operation.Transition(row, RequestOf(c)).Some?
    case ModeReady(c, _, row, acct) =>
      FreshMode(row, t.mode) && Operation.Transition(row, RequestOf(c)).Some? && FreshAccount(acct, t.account)
    case ResetLoaded(acct) => FreshAccount(acct, t.account) && acct.mode.Paper?
    case ResetListed(acct, ps) => ResetSnapshot(t, acct, ps)
    case ResetReady(acct, ps, os) => ResetSnapshot(t, acct, ps) && OrderSnapshots(t.orders, os)
    case _ => true
  }

  /** While the account row is the one that was read, the list is still exactly the OPEN positions. */
  ghost predicate ResetSnapshot(t: Tables, acct: Accounts.Account, ps: PositionList) {
    && FreshAccount(acct, t.account) && acct.mode.Paper? && AllValid(ps)
    && (acct.version == t.account.version ==> Complete(t.positions, ps))
  }

  /** Rely: no step of any other process can invalidate what this one relies on. */
  lemma Stable(t: Tables, t': Tables, p: Proc)
    requires ProcOk(t, p) && Evolves(t, t')
    ensures ProcOk(t', p)
  {
    if p.ResetReady? {
      forall n | 0 <= n < |p.os|
        ensures p.os[n].0 < |t'.orders| && FreshOrder(p.os[n].1, t'.orders[p.os[n].0])
      {
        assert FreshOrder(t.orders[p.os[n].0], t'.orders[p.os[n].0]);
      }
    }
  }

  // ----- guarantee: each step keeps the tables sound, evolves them, and leaves its own process well placed

  ghost predicate Guarantee(t: Tables, e: Effect) { TablesOk(e.tables) && Evolves(t, e.tables) && ProcOk(e.tables, e.proc) }

  lemma StayIsSafe(t: Tables, p: Proc)
    requires TablesOk(t) && ProcOk(t, p)
    ensures Guarantee(t, Stay(t, p))
  {
  }

  lemma LoadDecisionIsSafe(env: Env, t: Tables, d: Orders.ClientId)
    requires TablesOk(t)
    ensures Guarantee(t, LoadDecision(env, t, d))
  {
    StayIsSafe(t, LoadDecision(env, t, d).proc);
  }

  lemma BrokerCallsAreSafe(env: Env, t: Tables, oid: nat, o: Orders.Order, acct: Accounts.Account, oracle: Oracle)
    requires TablesOk(t) && OrderSnapshot(t, oid, o) && o.status.Pending? && EntrySnapshot(t, acct)
    ensures Guarantee(t, CallPlaceOrder(env, t, oid, o, acct, oracle)) && Guarantee(t, CallFindOrder(t, oid, o, acct, oracle))
  {
    StayIsSafe(t, CallPlaceOrder(env, t, oid, o, acct, oracle).proc);
    StayIsSafe(t, CallFindOrder(t, oid, o, acct, oracle).proc);
  }

  lemma LoadModeIsSafe(t: Tables, c: Control, since: nat)
    requires TablesOk(t)
    ensures Guarantee(t, LoadMode(t, c, since))
  {
    if c.ForceCloseOnly? && Operation.Restricted(t.mode.mode) {
      StayIsSafe(t, ModeDone(c, since));
    } else if Operation.Transition(t.mode, RequestOf(c)).None? {
      StayIsSafe(t, Done);
    } else {
      StayIsSafe(t, ModeLoaded(c, since, t.mode));
    }
  }

  lemma LoadAccountIsSafe(t: Tables, c: Control, since: nat, row: Operation.ModeRow)
    requires TablesOk(t) && ProcOk(t, ModeLoaded(c, since, row))
    ensures Guarantee(t, LoadAccount(t, c, since, row))
  {
    StayIsSafe(t, LoadAccount(t, c, since, row).proc);
  }

  /** The keys matter to no invariant. */
  lemma KeysAreApart(t: Tables, t': Tables)
    requires TablesOk(t) && t' == t.(keys := t'.keys)
    ensures TablesOk(t') && Evolves(t, t')
  {
    assert FillsOk(t') && Announced(t');
  }

  lemma ReserveIsSafe(t: Tables, now: nat, d: Orders.ClientId, acct: Accounts.Account)
    requires TablesOk(t) && EntrySnapshot(t, acct)
    ensures Guarantee(t, ReserveKey(t, now, d, acct))
  {
    var e := ReserveKey(t, now, d, acct);
    KeysAreApart(t, e.tables);
  }

  lemma PersistIsSafe(env: Env, t: Tables, d: Orders.ClientId, acct: Accounts.Account)
    requires TablesOk(t) && EntrySnapshot(t, acct)
    ensures Guarantee(t, PersistPending(env, t, d, acct))
  {
    var e := PersistPending(env, t, d, acct);
    if e.proc.Done? {
      StayIsSafe(t, Done);
    } else {
      var o := e.proc.order;
      assert e.tables == PendingTx(t, o).value && o.status.Pending? && o.version == 1;
      PendingIsSound(t, o);
      assert e.tables.orders[|t.orders|] == o;
    }
  }

  lemma SaveAfterIsSafe(t: Tables, oid: nat, o: Orders.Order, c: Orders.Call)
    requires TablesOk(t) && OrderSnapshot(t, oid, o) && (c.Fail? || c.MarkUnknown?)
    ensures Guarantee(t, SaveAfter(t, oid, o, c))
  {
    if UpdateOrder(t, oid, Orders.Apply(o, c)).Some? {
      QuietUpdateIsSound(t, oid, o, c);
    } else {
      StayIsSafe(t, Done);
    }
  }

  lemma SubmissionIsSafe(t: Tables, oid: nat, o: Orders.Order, acct: Accounts.Account, reply: Reply)
    requires TablesOk(t) && OrderSnapshot(t, oid, o) && o.status.Pending? && EntrySnapshot(t, acct)
    ensures Guarantee(t, RecordSubmission(t, oid, o, acct, reply))
  {
    var call := Orders.Submit(reply.brokerId);
    if Orders.Accepts(o, call) && SubmitTx(t, oid, Orders.Apply(o, call)).Some? {
      SubmitIsSound(t, oid, o, call);
    }
  }

  lemma BookFillIsSafe(t: Tables, oid: nat, o: Orders.Order, acct: Accounts.Account, reply: Reply)
    requires TablesOk(t) && OrderSnapshot(t, oid, o) && EntrySnapshot(t, acct)
    ensures Guarantee(t, BookFill(t, oid, o, acct, reply))
  {
    var e := BookFill(t, oid, o, acct, reply);
    if e.proc.ExecProtecting? {
      FillIsSound(t, oid, o, reply.price.value, acct);
      assert e == Stay(FillOf(t, oid, o, reply.price.value, acct).value, ExecProtecting(oid));
    } else {
      StayIsSafe(t, Done);
    }
  }

  lemma CommitModeIsSafe(t: Tables, c: Control, since: nat, row: Operation.ModeRow, acct: Accounts.Account)
    requires TablesOk(t) && FreshMode(row, t.mode) && FreshAccount(acct, t.account)
    requires Operation.Transition(row, RequestOf(c)).Some?
    ensures Guarantee(t, CommitMode(t, c, since, row, acct))
  {
    var e := CommitMode(t, c, since, row, acct);
    if e.note.ModeChanged? {
      ModeIsSound(t, row, RequestOf(c), acct, c.Kill?);
    } else {
      StayIsSafe(t, Done);
    }
  }

  /** A committed change was computed from the mode row it replaces. */
  lemma CommitModeSays(t: Tables, c: Control, since: nat, row: Operation.ModeRow, acct: Accounts.Account)
    requires FreshMode(row, t.mode) && CommitMode(t, c, since, row, acct).note.ModeChanged?
    ensures var e := CommitMode(t, c, since, row, acct);
            && t.mode == row && e.note.entry == Operation.Entry(RequestOf(c).target, RequestOf(c).confirmation)
            && e.tables.mode.mode == RequestOf(c).target && e.proc == ModeDone(c, since)
  {
  }

  lemma CommitResetIsSafe(env: Env, t: Tables, acct: Accounts.Account, ps: PositionList, os: OrderList)
    requires TablesOk(t) && ResetSnapshot(t, acct, ps) && OrderSnapshots(t.orders, os)
    ensures Guarantee(t, CommitReset(env, t, acct, ps, os))
  {
    if env.resetBalance > 0.0 && ResetOf(env.div, t, acct, ps, os, env.resetBalance).Some? {
      ResetIsSound(env.div, t, acct, ps, os, env.resetBalance);
    }
  }

  lemma ListingIsSafe(t: Tables, acct: Accounts.Account)
    requires TablesOk(t) && FreshAccount(acct, t.account) && acct.mode.Paper?
    ensures ResetSnapshot(t, acct, OpenPositions(t.positions))
  {
    OpenPositionsIsComplete(t.positions);
  }

  predicate Reads(p: Proc) { p.ExecStart? || p.ExecLoaded? || p.ExecProtecting? }

  predicate CallsBroker(p: Proc) { p.ExecPending? || p.ExecLookup? }

  predicate Persists(p: Proc) { p.ExecUnseen? || p.ExecReserved? }

  predicate Settles(p: Proc) { p.ExecFailing? || p.ExecAmbiguous? }

  predicate Books(p: Proc) { p.ExecAnswered? || p.ExecSubmitted? }

  predicate IsModeProc(p: Proc) { p.ModeStart? || p.ModeLoaded? || p.ModeReady? || p.ModeDone? }

  predicate IsResetProc(p: Proc) { p.ResetStart? || p.ResetLoaded? || p.ResetListed? || p.ResetReady? }

  lemma ReadsAreSafe(env: Env, t: Tables, now: nat, p: Proc, oracle: Oracle)
    requires TablesOk(t) && ProcOk(t, p) && Reads(p)
    ensures Guarantee(t, Advance(env, t, now, p, oracle))
  {
    match p
    case ExecStart(d) => LoadDecisionIsSafe(env, t, d);
    case ExecLoaded(d, acct) => StayIsSafe(t, LookForOrder(t, d, acct).proc);
    case ExecProtecting(_) => StayIsSafe(t, Done);
  }

  lemma CallsAreSafe(env: Env, t: Tables, now: nat, p: Proc, oracle: Oracle)
    requires TablesOk(t) && ProcOk(t, p) && CallsBroker(p)
    ensures Guarantee(t, Advance(env, t, now, p, oracle))
  {
    BrokerCallsAreSafe(env, t, p.oid, p.order, p.acct, oracle);
  }

  lemma PersistingIsSafe(env: Env, t: Tables, now: nat, p: Proc, oracle: Oracle)
    requires TablesOk(t) && ProcOk(t, p) && Persists(p)
    ensures Guarantee(t, Advance(env, t, now, p, oracle))
  {
    match p
    case ExecUnseen(d, acct) => ReserveIsSafe(t, now, d, acct);
    case ExecReserved(d, acct) => PersistIsSafe(env, t, d, acct);
  }

  lemma SettlingIsSafe(env: Env, t: Tables, now: nat, p: Proc, oracle: Oracle)
    requires TablesOk(t) && ProcOk(t, p) && Settles(p)
    ensures Guarantee(t, Advance(env, t, now, p, oracle))
  {
    match p
    case ExecFailing(oid, o) => SaveAfterIsSafe(t, oid, o, Orders.Fail("placing order"));
    case ExecAmbiguous(oid, o) => SaveAfterIsSafe(t, oid, o, Orders.MarkUnknown);
  }

  lemma BookingIsSafe(env: Env, t: Tables, now: nat, p: Proc, oracle: Oracle)
    requires TablesOk(t) && ProcOk(t, p) && Books(p)
    ensures Guarantee(t, Advance(env, t, now, p, oracle))
  {
    match p
    case ExecAnswered(oid, o, acct, reply) => SubmissionIsSafe(t, oid, o, acct, reply);
    case ExecSubmitted(oid, o, acct, reply) => BookFillIsSafe(t, oid, o, acct, reply);
  }

  lemma ModeReadsAreSafe(env: Env, t: Tables, now: nat, p: Proc, oracle: Oracle)
    requires TablesOk(t) && ProcOk(t, p) && (p.ModeStart? || p.ModeLoaded?)
    ensures Guarantee(t, Advance(env, t, now, p, oracle))
  {
    match p
    case ModeStart(c, since) => LoadModeIsSafe(t, c, since);
    case ModeLoaded(c, since, row) => LoadAccountIsSafe(t, c, since, row);
  }

  lemma ModeProcIsSafe(env: Env, t: Tables, now: nat, p: Proc, oracle: Oracle)
    requires TablesOk(t) && ProcOk(t, p) && IsModeProc(p)
    ensures Guarantee(t, Advance(env, t, now, p, oracle))
  {
    if p.ModeReady? {
      CommitModeIsSafe(t, p.control, p.since, p.row, p.acct);
    } else if p.ModeDone? {
      StayIsSafe(t, p);
    } else {
      ModeReadsAreSafe(env, t, now, p, oracle);
    }
  }

  lemma ResetReadsAreSafe(t: Tables, acct: Accounts.Account, ps: PositionList)
    requires TablesOk(t) && FreshAccount(acct, t.account) && acct.mode.Paper?
    ensures Guarantee(t, Stay(t, ResetListed(acct, OpenPositions(t.positions))))
    ensures ResetSnapshot(t, acct, ps) ==> Guarantee(t, Stay(t, ResetReady(acct, ps, OpenOrders(t.orders))))
  {
    ListingIsSafe(t, acct);
    StayIsSafe(t, ResetListed(acct, OpenPositions(t.positions)));
    OpenOrdersAreSnapshots(t.orders);
    if ResetSnapshot(t, acct, ps) {
      StayIsSafe(t, ResetReady(acct, ps, OpenOrders(t.orders)));
    }
  }

  lemma LoadForResetIsSafe(t: Tables)
    requires TablesOk(t)
    ensures Guarantee(t, LoadForReset(t))
  {
    StayIsSafe(t, LoadForReset(t).proc);
  }

  lemma ResetProcIsSafe(env: Env, t: Tables, now: nat, p: Proc, oracle: Oracle)
    requires TablesOk(t) && ProcOk(t, p) && IsResetProc(p)
    ensures Guarantee(t, Advance(env, t, now, p, oracle))
  {
    if p.ResetStart? {
      LoadForResetIsSafe(t);
    } else if p.ResetReady? {
      CommitResetIsSafe(env, t, p.acct, p.ps, p.os);
    } else {
      ResetReadsAreSafe(t, p.acct, if p.ResetListed? then p.ps else []);
    }
  }

  lemma AdvanceIsSafe(env: Env, t: Tables, now: nat, p: Proc, oracle: Oracle)
    requires TablesOk(t) && ProcOk(t, p)
    ensures Guarantee(t, Advance(env, t, now, p, oracle))
  {
    if Reads(p) {
      ReadsAreSafe(env, t, now, p, oracle);
    } else if CallsBroker(p) {
      CallsAreSafe(env, t, now, p, oracle);
    } else if Persists(p) {
      PersistingIsSafe(env, t, now, p, oracle);
    } else if Settles(p) {
      SettlingIsSafe(env, t, now, p, oracle);
    } else if Books(p) {
      BookingIsSafe(env, t, now, p, oracle);
    } else if IsModeProc(p) {
      ModeProcIsSafe(env, t, now, p, oracle);
    } else if IsResetProc(p) {
      ResetProcIsSafe(env, t, now, p, oracle);
    } else {
      StayIsSafe(t, p);
    }
  }

  // ----- the whole system keeps its tables sound

  ghost predicate SystemOk(s: System) {
    TablesOk(s.tables) && forall pid :: pid in s.procs ==> ProcOk(s.tables, s.procs[pid])
  }

  lemma ApplyShape(s: System, pid: Pid, e: Effect)
    ensures var s' := Apply(s, pid, e);
            && s'.tables == e.tables && s'.procs == s.procs[pid := e.proc] && s'.now == s.now && s'.started == s.started
            && s'.creators == s.creators + (if e.note.Created? then [pid] else [])
            && s'.placed == s.placed + (if e.note.Placed? then [Placement(pid, e.note.oid, e.note.request)] else [])
            && s'.log == s.log + (if e.note.ModeChanged? then [e.note.entry] else [])
            && s'.reservations == s.reservations + (if e.note.Reserved? then [Reservation(e.note.d, s.now)] else [])
  {
  }

  lemma ProcsStaySafe(t: Tables, t': Tables, procs: map<Pid, Proc>, pid: Pid, p: Proc, procs': map<Pid, Proc>)
    requires Evolves(t, t') && ProcOk(t', p) && procs' == procs[pid := p]
    requires forall q :: q in procs ==> ProcOk(t, procs[q])
    ensures forall q :: q in procs' ==> ProcOk(t', procs'[q])
  {
    forall q | q in procs'
      ensures ProcOk(t', procs'[q])
    {
      if q != pid {
        Stable(t, t', procs[q]);
      }
    }
  }

  lemma StepIsSafe(env: Env, s: System, pid: Pid, oracle: Oracle)
    requires SystemOk(s) && pid in s.procs
    ensures SystemOk(Next(env, s, Step(pid, oracle)))
  {
    var e := Advance(env, s.tables, s.now, s.procs[pid], oracle);
    AdvanceIsSafe(env, s.tables, s.now, s.procs[pid], oracle);
    ProcsStaySafe(s.tables, e.tables, s.procs, pid, e.proc, s.procs[pid := e.proc]);
    ApplyShape(s, pid, e);
  }

  lemma StartIsSafe(env: Env, s: System, pid: Pid, job: Job)
    requires SystemOk(s)
    ensures SystemOk(Next(env, s, Start(pid, job)))
  {
    var s' := Next(env, s, Start(pid, job));
    assert s'.tables == s.tables && ProcOk(s.tables, Begin(s, job));
  }

  lemma NextIsSafe(env: Env, s: System, a: Action)
    requires SystemOk(s)
    ensures SystemOk(Next(env, s, a))
  {
    match a
    case Start(pid, job) => StartIsSafe(env, s, pid, job);
    case Step(pid, oracle) =>
      if pid in s.procs {
        StepIsSafe(env, s, pid, oracle);
      }
    case Crash(_) =>
    case Tick(_) =>
  }

  lemma {:induction false} RunIsSafe(env: Env, start: real, actions: seq<Action>)
    requires start > 0.0
    ensures SystemOk(Run(env, start, actions))
  {
    if actions == [] {
      var t := Run(env, start, []).tables;
      assert TablesOk(t);
    } else {
      RunIsSafe(env, start, actions[..|actions| - 1]);
      NextIsSafe(env, Run(env, start, actions[..|actions| - 1]), actions[|actions| - 1]);
    }
  }

  // ----- margin conservation

  /**
   * In every committed state of every run, whatever is not available is exactly the notional of the OPEN
   * positions, and the available balance is never negative.
   */
  lemma MarginConservation(env: Env, start: real, actions: seq<Action>)
    requires start > 0.0
    ensures var t := Run(env, start, actions).tables;
            t.account.available == t.account.balance - OpenNotional(t.positions) && t.account.available >= 0.0
  {
    RunIsSafe(env, start, actions);
  }

  /**
   * The answer reads FILLED with a price, the order may be filled, order row and account row are still the ones
   * the executor holds, the margin is there and the symbol is free.
   */
  predicate Bookable(t: Tables, oid: nat, o: Orders.Order, acct: Accounts.Account, reply: Reply) {
    && reply.filled && reply.price.Some?
    && Orders.CanTransition(o.status, Orders.Filled)
    && oid < |t.orders| && t.orders[oid] == o && t.account == acct
    && o.quantity * reply.price.value <= acct.available && !HasOpen(t.positions, o.symbol)
  }

  lemma FillNeeds(t: Tables, oid: nat, o: Orders.Order, acct: Accounts.Account, reply: Reply)
    requires TablesOk(t) && OrderSnapshot(t, oid, o) && EntrySnapshot(t, acct) && reply.price.Some?
    ensures FillOf(t, oid, o, reply.price.value, acct).Some? && reply.filled ==> Bookable(t, oid, o, acct, reply)
  {
    if FillOf(t, oid, o, reply.price.value, acct).Some? {
      FillWins(t, oid, o, reply.price.value, acct);
    }
  }

  lemma BookableFills(t: Tables, oid: nat, o: Orders.Order, acct: Accounts.Account, reply: Reply)
    requires Orders.LifecycleOk(o) && Bookable(t, oid, o, acct, reply)
    ensures FillOf(t, oid, o, reply.price.value, acct).Some?
  {
  }

  /** When a fill gets booked, exactly; anything else changes nothing. */
  lemma FillCommitsExactlyWhen(t: Tables, oid: nat, o: Orders.Order, acct: Accounts.Account, reply: Reply)
    requires TablesOk(t) && OrderSnapshot(t, oid, o) && EntrySnapshot(t, acct)
    ensures var e := BookFill(t, oid, o, acct, reply);
            && (e.proc == ExecProtecting(oid) <==> Bookable(t, oid, o, acct, reply))
            && (e.proc != ExecProtecting(oid) ==> e == Stay(t, Done))
  {
    if reply.price.Some? {
      FillNeeds(t, oid, o, acct, reply);
    }
    if Bookable(t, oid, o, acct, reply) {
      BookableFills(t, oid, o, acct, reply);
    }
  }

  /**
   * An ambiguous broker failure leaves no trace on the order row: UNKNOWN is refused from PENDING, the refusal
   * is dropped, and the unversioned save that follows cannot match. The row stays PENDING.
   */
  lemma AmbiguityIsNotRecorded(t: Tables, oid: nat, o: Orders.Order)
    requires OrderSnapshot(t, oid, o) && o.status.Pending?
    ensures SaveAfter(t, oid, o, Orders.MarkUnknown) == Stay(t, Done)
  {
    assert !Orders.Accepts(o, Orders.MarkUnknown);
  }

  /** In general UNKNOWN is recorded exactly when the broker had acknowledged the order and nobody moved it since. */
  lemma UnknownIsRecordedExactlyWhen(t: Tables, oid: nat, o: Orders.Order)
    requires OrderSnapshot(t, oid, o)
    ensures var t' := SaveAfter(t, oid, o, Orders.MarkUnknown).tables;
            && (t' != t <==> t.orders[oid] == o && (o.status.Submitted? || o.status.PartiallyFilled?))
            && (t' != t ==> t'.orders[oid] == o.(status := Orders.Unknown, version := o.version + 1))
  {
    if Orders.Accepts(o, Orders.MarkUnknown) && t.orders[oid] == o {
      assert SaveAfter(t, oid, o, Orders.MarkUnknown).tables.orders[oid].status.Unknown?;
    }
  }

  /** The statuses the use cases ever store. */
  predicate Reached(s: Orders.Status) { s.Pending? || s.Submitted? || s.Filled? || s.Cancelled? || s.Failed? }

  ghost predicate AllReached(orders: seq<Orders.Order>) { forall i :: 0 <= i < |orders| ==> Reached(orders[i].status) }

  lemma {:induction false} CancellingReaches(t: Tables, os: OrderList)
    requires AllReached(t.orders) && CancelOrders(t, os).Some?
    ensures AllReached(CancelOrders(t, os).value.orders)
  {
    if os != [] {
      CancellingReaches(t, os[..|os| - 1]);
    }
  }

  lemma ResetReaches(env: Env, t: Tables, acct: Accounts.Account, ps: PositionList, os: OrderList)
    requires AllReached(t.orders)
    ensures AllReached(CommitReset(env, t, acct, ps, os).tables.orders)
  {
    if env.resetBalance > 0.0 && AllValid(ps) && ResetOf(env.div, t, acct, ps, os, env.resetBalance).Some? {
      ClosingFrame(env.div, t, ps);
      CancellingReaches(ClosePositions(env.div, t, ps).value, os);
    }
  }

  lemma ExecutorReaches(env: Env, t: Tables, now: nat, p: Proc, oracle: Oracle)
    requires AllReached(t.orders) && ProcOk(t, p) && (p.ExecReserved? || Settles(p) || Books(p))
    ensures AllReached(Advance(env, t, now, p, oracle).tables.orders)
  {
    if p.ExecAmbiguous? {
      AmbiguityIsNotRecorded(t, p.oid, p.order);
    }
  }

  lemma AdvanceReaches(env: Env, t: Tables, now: nat, p: Proc, oracle: Oracle)
    requires AllReached(t.orders) && ProcOk(t, p)
    ensures AllReached(Advance(env, t, now, p, oracle).tables.orders)
  {
    if p.ExecReserved? || Settles(p) || Books(p) {
      ExecutorReaches(env, t, now, p, oracle);
    } else if p.ResetReady? {
      ResetReaches(env, t, p.acct, p.ps, p.os);
    } else {
      assert Advance(env, t, now, p, oracle).tables.orders == t.orders;
    }
  }

  /**
   * In every committed state of every run every order is PENDING, SUBMITTED, FILLED, CANCELLED or FAILED: no
   * order is ever stored as UNKNOWN, as the documentation of an ambiguous failure has it, nor as
   * PARTIALLY_FILLED or REJECTED.
   */
  lemma {:induction false} NoOrderIsEverUnknown(env: Env, start: real, actions: seq<Action>)
    requires start > 0.0
    ensures forall i :: 0 <= i < |Run(env, start, actions).tables.orders| ==>
              Reached(Run(env, start, actions).tables.orders[i].status)
  {
    if actions != [] {
      var before, a := Run(env, start, actions[..|actions| - 1]), actions[|actions| - 1];
      NoOrderIsEverUnknown(env, start, actions[..|actions| - 1]);
      RunIsSafe(env, start, actions[..|actions| - 1]);
      if a.Step? && a.pid in before.procs {
        AdvanceReaches(env, before.tables, before.now, before.procs[a.pid], a.oracle);
        ApplyShape(before, a.pid, Advance(env, before.tables, before.now, before.procs[a.pid], a.oracle));
      }
    }
  }

  // ----- the outbox tells what the tables hold

  /** Per order, per position and in total, in every committed state of every run. */
  lemma OutboxMatchesTables(env: Env, start: real, actions: seq<Action>)
    requires start > 0.0
    ensures var t := Run(env, start, actions).tables;
            && EventsOk(t.outbox, t.orders, |t.positions|)
            && CountIf(t.outbox, IsCreated) == |t.orders|
            && CountIf(t.outbox, IsSubmitted) == CountIf(t.orders, Orders.IsAcknowledged)
            && CountIf(t.outbox, IsFilledEvent) == CountIf(t.outbox, IsOpened) == CountIf(t.orders, Orders.IsFilled)
               == |t.positions| == |t.executions|
            && FillsOk(t)
  {
    RunIsSafe(env, start, actions);
  }

  // ----- what a step leaves alone, by the note it carries

  lemma ResetFrame(div: Division, t: Tables, acct: Accounts.Account, ps: PositionList, os: OrderList, start: real)
    requires AllValid(ps) && start > 0.0 && ResetOf(div, t, acct, ps, os, start).Some?
    ensures var t' := ResetOf(div, t, acct, ps, os, start).value;
            t'.mode == t.mode && t'.keys == t.keys && |t'.orders| == |t.orders| && |t'.positions| == |t.positions|
  {
    ClosingFrame(div, t, ps);
    CancelFrame(ClosePositions(div, t, ps).value, os);
  }

  /** An executor that has not inserted its order row yet. */
  predicate Unborn(p: Proc) { p.ExecStart? || p.ExecLoaded? || p.ExecUnseen? || p.ExecReserved? }

  ghost predicate Framed(t: Tables, p: Proc, e: Effect) {
    && (e.note.ModeChanged? || e.tables.mode == t.mode)
    && (e.note.Reserved? || e.tables.keys == t.keys)
    && |e.tables.orders| == |t.orders| + Bit(e.note.Created?)
    && (e.note.Created? <==> e.proc.ExecPending?)
    && (e.note.Created? ==> e.proc.oid == |t.orders| && Unborn(p))
    && (Unborn(e.proc) ==> Unborn(p))
    && (e.note.Placed? ==> p.ExecPending? && e.note.oid == p.oid)
    && (|e.tables.positions| == |t.positions| || p.ExecSubmitted?)
  }

  lemma BookFillIsFramed(t: Tables, p: Proc)
    requires p.ExecSubmitted?
    ensures Framed(t, p, BookFill(t, p.oid, p.order, p.acct, p.reply))
  {
  }

  lemma CommitResetIsFramed(env: Env, t: Tables, p: Proc)
    requires p.ResetReady?
    ensures Framed(t, p, CommitReset(env, t, p.acct, p.ps, p.os))
  {
    if env.resetBalance > 0.0 && AllValid(p.ps) && ResetOf(env.div, t, p.acct, p.ps, p.os, env.resetBalance).Some? {
      ResetFrame(env.div, t, p.acct, p.ps, p.os, env.resetBalance);
    }
  }

  lemma PersistIsFramed(env: Env, t: Tables, p: Proc)
    requires p.ExecReserved?
    ensures Framed(t, p, PersistPending(env, t, p.d, p.acct))
  {
  }

  lemma SavesAreFramed(t: Tables, p: Proc, oid: nat, o: Orders.Order, c: Orders.Call)
    requires p.ExecFailing? || p.ExecAmbiguous?
    ensures Framed(t, p, SaveAfter(t, oid, o, c))
  {
  }

  lemma SubmissionIsFramed(t: Tables, p: Proc)
    requires p.ExecAnswered?
    ensures Framed(t, p, RecordSubmission(t, p.oid, p.order, p.acct, p.reply))
  {
  }

  lemma CommitModeIsFramed(t: Tables, p: Proc)
    requires p.ModeReady?
    ensures Framed(t, p, CommitMode(t, p.control, p.since, p.row, p.acct))
  {
  }

  lemma ReadsAreFramed(env: Env, t: Tables, now: nat, p: Proc, oracle: Oracle)
    requires Reads(p) || CallsBroker(p) || p.ExecUnseen?
    ensures Framed(t, p, Advance(env, t, now, p, oracle))
  {
  }

  lemma ExecutorIsFramed(env: Env, t: Tables, now: nat, p: Proc, oracle: Oracle)
    requires p.ExecReserved? || Settles(p) || Books(p)
    ensures Framed(t, p, Advance(env, t, now, p, oracle))
  {
    match p
    case ExecReserved(_, _) => PersistIsFramed(env, t, p);
    case ExecFailing(oid, o) => SavesAreFramed(t, p, oid, o, Orders.Fail("placing order"));
    case ExecAmbiguous(oid, o) => SavesAreFramed(t, p, oid, o, Orders.MarkUnknown);
    case ExecAnswered(_, _, _, _) => SubmissionIsFramed(t, p);
    case ExecSubmitted(_, _, _, _) => BookFillIsFramed(t, p);
  }

  lemma ControllerIsFramed(env: Env, t: Tables, now: nat, p: Proc, oracle: Oracle)
    requires IsModeProc(p) || IsResetProc(p) || p.Done?
    ensures Framed(t, p, Advance(env, t, now, p, oracle))
  {
    match p
    case ModeReady(_, _, _, _) => CommitModeIsFramed(t, p);
    case ResetReady(_, _, _) => CommitResetIsFramed(env, t, p);
    case _ =>
  }

  lemma AdvanceIsFramed(env: Env, t: Tables, now: nat, p: Proc, oracle: Oracle)
    ensures Framed(t, p, Advance(env, t, now, p, oracle))
  {
    if Reads(p) || CallsBroker(p) || p.ExecUnseen? {
      ReadsAreFramed(env, t, now, p, oracle);
    } else if IsModeProc(p) || IsResetProc(p) || p.Done? {
      ControllerIsFramed(env, t, now, p, oracle);
    } else {
      ExecutorIsFramed(env, t, now, p, oracle);
    }
  }

  // ----- at most one placement per decision

  ghost predicate PlacementsOk(s: System) {
    && |s.creators| == |s.tables.orders|
    && (forall pid :: pid in s.procs && s.procs[pid].ExecPending? ==>
          s.procs[pid].oid < |s.creators| && s.creators[s.procs[pid].oid] == pid)
    && (forall pid, n :: pid in s.procs && s.procs[pid].ExecPending? && 0 <= n < |s.placed| ==>
          s.placed[n].oid != s.procs[pid].oid)
    && (forall n :: 0 <= n < |s.placed| ==>
          s.placed[n].oid < |s.creators| && s.creators[s.placed[n].oid] == s.placed[n].pid)
    && (forall n, m :: 0 <= n < m < |s.placed| ==> s.placed[n].oid != s.placed[m].oid)
  }

  lemma StepKeepsPlacements(s: System, pid: Pid, e: Effect)
    requires PlacementsOk(s) && pid in s.procs && Framed(s.tables, s.procs[pid], e)
    ensures PlacementsOk(Apply(s, pid, e))
  {
    ApplyShape(s, pid, e);
    var s' := Apply(s, pid, e);
    forall q | q in s'.procs && s'.procs[q].ExecPending?
      ensures s'.procs[q].oid < |s'.creators| && s'.creators[s'.procs[q].oid] == q
    {
      if q != pid { assert s'.procs[q] == s.procs[q]; }
    }
    forall q, n | q in s'.procs && s'.procs[q].ExecPending? && 0 <= n < |s'.placed|
      ensures s'.placed[n].oid != s'.procs[q].oid
    {
      if q != pid { assert s'.procs[q] == s.procs[q]; }
    }
  }

  lemma NextKeepsPlacements(env: Env, s: System, a: Action)
    requires PlacementsOk(s)
    ensures PlacementsOk(Next(env, s, a))
  {
    if a.Step? && a.pid in s.procs {
      AdvanceIsFramed(env, s.tables, s.now, s.procs[a.pid], a.oracle);
      StepKeepsPlacements(s, a.pid, Advance(env, s.tables, s.now, s.procs[a.pid], a.oracle));
    }
  }

  lemma {:induction false} RunKeepsPlacements(env: Env, start: real, actions: seq<Action>)
    requires start > 0.0
    ensures PlacementsOk(Run(env, start, actions))
  {
    if actions != [] {
      RunKeepsPlacements(env, start, actions[..|actions| - 1]);
      NextKeepsPlacements(env, Run(env, start, actions[..|actions| - 1]), actions[|actions| - 1]);
    }
  }

  /** Process ids are used once, and a process that has yet to insert its row has inserted none. */
  ghost predicate CreatorsOk(s: System) {
    && s.procs.Keys <= s.started
    && (forall i :: 0 <= i < |s.creators| ==> s.creators[i] in s.started)
    && (forall pid, i :: pid in s.procs && Unborn(s.procs[pid]) && 0 <= i < |s.creators| ==> s.creators[i] != pid)
    && (forall i, k :: 0 <= i < k < |s.creators| ==> s.creators[i] != s.creators[k])
  }

  lemma StepKeepsCreators(s: System, pid: Pid, e: Effect)
    requires CreatorsOk(s) && pid in s.procs && Framed(s.tables, s.procs[pid], e)
    ensures CreatorsOk(Apply(s, pid, e))
  {
    ApplyShape(s, pid, e);
    var s' := Apply(s, pid, e);
    forall q, i | q in s'.procs && Unborn(s'.procs[q]) && 0 <= i < |s'.creators|
      ensures s'.creators[i] != q
    {
      if q != pid { assert s'.procs[q] == s.procs[q]; }
    }
  }

  lemma {:induction false} RunKeepsCreators(env: Env, start: real, actions: seq<Action>)
    requires start > 0.0
    ensures CreatorsOk(Run(env, start, actions))
  {
    if actions != [] {
      var before, a := Run(env, start, actions[..|actions| - 1]), actions[|actions| - 1];
      RunKeepsCreators(env, start, actions[..|actions| - 1]);
      if a.Step? && a.pid in before.procs {
        AdvanceIsFramed(env, before.tables, before.now, before.procs[a.pid], a.oracle);
        StepKeepsCreators(before, a.pid, Advance(env, before.tables, before.now, before.procs[a.pid], a.oracle));
      }
    }
  }

  /**
   * Over any run, with any number of executors, crashes, retries and lapsed reservations: a decision has at
   * most one order row, PlaceOrder is called at most once for it, and only by the executor that inserted the row;
   * no executor inserts two.
   */
  lemma AtMostOncePlacement(env: Env, start: real, actions: seq<Action>)
    requires start > 0.0
    ensures var s := Run(env, start, actions);
            && |s.creators| == |s.tables.orders|
            && (forall i, k :: 0 <= i < k < |s.creators| ==> s.creators[i] != s.creators[k])
            && (forall i, k :: 0 <= i < k < |s.tables.orders| ==> s.tables.orders[i].clientId != s.tables.orders[k].clientId)
            && (forall n :: 0 <= n < |s.placed| ==>
                  s.placed[n].oid < |s.tables.orders| && s.creators[s.placed[n].oid] == s.placed[n].pid)
            && (forall n, m :: 0 <= n < m < |s.placed| ==>
                  s.tables.orders[s.placed[n].oid].clientId != s.tables.orders[s.placed[m].oid].clientId)
  {
    RunKeepsPlacements(env, start, actions);
    RunKeepsCreators(env, start, actions);
    RunIsSafe(env, start, actions);
    var s := Run(env, start, actions);
    assert OrdersOk(s.tables.orders);
  }

  // ----- entries only while the persisted mode allows them

  lemma CachedModeAgrees(env: Env, start: real, actions: seq<Action>)
    requires start > 0.0
    ensures Run(env, start, actions).tables.account.mode == Run(env, start, actions).tables.mode.mode
  {
    RunIsSafe(env, start, actions);
  }

  lemma FillNeedsAllowedMode(t: Tables, p: Proc)
    requires TablesOk(t) && ProcOk(t, p) && p.ExecSubmitted?
    requires |BookFill(t, p.oid, p.order, p.acct, p.reply).tables.positions| != |t.positions|
    ensures Operation.AllowsNewEntries(t.mode.mode)
    ensures BookFill(t, p.oid, p.order, p.acct, p.reply).tables.mode == t.mode
  {
    FillWins(t, p.oid, p.order, p.reply.price.value, p.acct);
  }

  /**
   * Every step that opens a position commits while the mode row allows entries, however long ago the
   * executor checked, and whatever kill switch, pause or reset raced it since.
   */
  lemma EntriesOnlyWhileAllowed(env: Env, start: real, actions: seq<Action>, a: Action)
    requires start > 0.0
    ensures var before, after := Run(env, start, actions).tables, Run(env, start, actions + [a]).tables;
            |after.positions| != |before.positions| ==>
              && before.mode.mode in {Operation.Paper, Operation.Testnet, Operation.Real}
              && after.mode.mode in {Operation.Paper, Operation.Testnet, Operation.Real}
  {
    var s := Run(env, start, actions);
    assert (actions + [a])[..|actions|] == actions;
    if |Next(env, s, a).tables.positions| != |s.tables.positions| {
      RunIsSafe(env, start, actions);
      var p := s.procs[a.pid];
      AdvanceIsFramed(env, s.tables, s.now, p, a.oracle);
      FillNeedsAllowedMode(s.tables, p);
    }
  }

  // ----- the mode row over whole runs

  /** Some mode committed at or after the `since`-th entry restricts trading. */
  ghost predicate RetreatedSince(log: seq<Operation.Entry>, since: nat) {
    exists k :: since - 1 <= k < |log| && 0 <= k && log[k].mode in {Operation.CloseOnly, Operation.KillSwitch}
  }

  ghost predicate ModeProcOk(log: seq<Operation.Entry>, p: Proc) {
    && (IsModeProc(p) ==> 1 <= p.since <= |log|)
    && (p.ModeDone? && p.control.ForceCloseOnly? ==> RetreatedSince(log, p.since))
  }

  ghost predicate LogOk(s: System) {
    && Operation.ValidLog(s.log)
    && s.log[|s.log| - 1].mode == s.tables.mode.mode
    && (forall pid :: pid in s.procs ==> ModeProcOk(s.log, s.procs[pid]))
  }

  lemma RetreatLasts(log: seq<Operation.Entry>, e: Operation.Entry, p: Proc)
    requires ModeProcOk(log, p)
    ensures ModeProcOk(log + [e], p)
  {
    if p.ModeDone? && p.control.ForceCloseOnly? {
      var k :| p.since - 1 <= k < |log| && 0 <= k && log[k].mode in {Operation.CloseOnly, Operation.KillSwitch};
      assert (log + [e])[k] == log[k];
    }
  }

  /** A committed mode change appends to log and mode row what the transition table admits. */
  lemma ChangeKeepsLog(s: System, pid: Pid, p: Proc)
    requires TablesOk(s.tables) && LogOk(s) && pid in s.procs && s.procs[pid] == p && p.ModeReady? && ProcOk(s.tables, p)
    requires CommitMode(s.tables, p.control, p.since, p.row, p.acct).note.ModeChanged?
    ensures LogOk(Apply(s, pid, CommitMode(s.tables, p.control, p.since, p.row, p.acct)))
  {
    var e := CommitMode(s.tables, p.control, p.since, p.row, p.acct);
    ApplyShape(s, pid, e);
    CommitModeSays(s.tables, p.control, p.since, p.row, p.acct);
    Operation.LogExtends(s.log, p.row, RequestOf(p.control));
    var s' := Apply(s, pid, e);
    forall q | q in s'.procs
      ensures ModeProcOk(s'.log, s'.procs[q])
    {
      if q != pid {
        RetreatLasts(s.log, e.note.entry, s.procs[q]);
      } else {
        assert s'.log[|s.log|].mode == RequestOf(p.control).target;
      }
    }
  }

  /** Other steps leave both alone; a forced retreat that ends here found a restricted mode. */
  lemma QuietKeepsLog(s: System, pid: Pid, e: Effect)
    requires LogOk(s) && pid in s.procs && !e.note.ModeChanged? && e.tables.mode == s.tables.mode
    requires ModeProcOk(s.log, e.proc)
    ensures LogOk(Apply(s, pid, e))
  {
    ApplyShape(s, pid, e);
  }

  lemma OthersAreNoModeProcs(env: Env, t: Tables, now: nat, p: Proc, oracle: Oracle)
    requires !IsModeProc(p)
    ensures !IsModeProc(Advance(env, t, now, p, oracle).proc)
  {
  }

  lemma QuietStepIsModeOk(env: Env, s: System, pid: Pid, oracle: Oracle)
    requires LogOk(s) && pid in s.procs
    requires !Advance(env, s.tables, s.now, s.procs[pid], oracle).note.ModeChanged?
    ensures ModeProcOk(s.log, Advance(env, s.tables, s.now, s.procs[pid], oracle).proc)
  {
    var p := s.procs[pid];
    if IsModeProc(p) {
      assert ModeProcOk(s.log, p);
      assert Operation.Restricted(s.tables.mode.mode) ==> RetreatedSince(s.log, p.since) by {
        assert s.log[|s.log| - 1].mode == s.tables.mode.mode;
      }
    } else {
      OthersAreNoModeProcs(env, s.tables, s.now, p, oracle);
    }
  }

  lemma StepKeepsLog(env: Env, s: System, pid: Pid, oracle: Oracle)
    requires SystemOk(s) && LogOk(s) && pid in s.procs
    ensures LogOk(Next(env, s, Step(pid, oracle)))
  {
    var p := s.procs[pid];
    var e := Advance(env, s.tables, s.now, p, oracle);
    if e.note.ModeChanged? {
      ChangeKeepsLog(s, pid, p);
    } else {
      AdvanceIsFramed(env, s.tables, s.now, p, oracle);
      QuietStepIsModeOk(env, s, pid, oracle);
      QuietKeepsLog(s, pid, e);
    }
  }

  lemma {:induction false} RunKeepsLog(env: Env, start: real, actions: seq<Action>)
    requires start > 0.0
    ensures LogOk(Run(env, start, actions))
  {
    if actions != [] {
      var before, a := Run(env, start, actions[..|actions| - 1]), actions[|actions| - 1];
      RunKeepsLog(env, start, actions[..|actions| - 1]);
      RunIsSafe(env, start, actions[..|actions| - 1]);
      if a.Step? && a.pid in before.procs {
        StepKeepsLog(env, before, a.pid, a.oracle);
      }
    }
  }

  /**
   * Mode safety of the committed mode row, under racing controllers: REAL was only ever committed with the
   * exact token, and between a restricted mode and a later entry-allowing one PAUSED was committed.
   */
  lemma CommittedModesAreSafe(env: Env, start: real, actions: seq<Action>, i: nat, j: nat)
    requires start > 0.0 && i < j < |Run(env, start, actions).log|
    ensures var log := Run(env, start, actions).log;
            && log[|log| - 1].mode == Run(env, start, actions).tables.mode.mode
            && (log[j].mode.Real? ==> log[j].confirmation == Operation.Confirmation(true, "I_UNDERSTAND_THE_RISK"))
            && (log[i].mode in {Operation.CloseOnly, Operation.KillSwitch} ==>
                  log[j].mode in {Operation.Paper, Operation.Testnet, Operation.Real} ==> Operation.PausedBetween(log, i, j))
  {
    RunKeepsLog(env, start, actions);
    var log := Run(env, start, actions).log;
    if Operation.Restricted(log[i].mode) && Operation.AllowsNewEntries(log[j].mode) {
      Operation.RecoveryPassesThroughPaused(log, i, j);
    }
  }

  /** A forced retreat that ended without error: CLOSE_ONLY or KILL_SWITCH was in force at some moment since it began. */
  lemma ForcedRetreatHappened(env: Env, start: real, actions: seq<Action>, pid: Pid, since: nat)
    requires start > 0.0 && pid in Run(env, start, actions).procs
    requires Run(env, start, actions).procs[pid] == ModeDone(ForceCloseOnly, since)
    ensures 1 <= since <= |Run(env, start, actions).log| && RetreatedSince(Run(env, start, actions).log, since)
  {
    RunKeepsLog(env, start, actions);
  }

  /** The mode each command is for. */
  function ModeFor(c: Control): Operation.Mode {
    match c
    case Kill(_, _, _) => Operation.KillSwitch
    case Change(target, _, _, _, _) => target
    case ForceCloseOnly => Operation.CloseOnly
  }

  /**
   * When a mode change commits, exactly: mode row and account row are still the ones the controller read. Then
   * both are in the mode of the command. Anything else changes nothing, and the change is not tried again.
   */
  lemma ModeCommitsExactlyWhen(t: Tables, c: Control, since: nat, row: Operation.ModeRow, acct: Accounts.Account)
    requires ProcOk(t, ModeReady(c, since, row, acct))
    ensures var e := CommitMode(t, c, since, row, acct);
            && (e.note.ModeChanged? <==> t.mode == row && t.account == acct)
            && (e.note.ModeChanged? ==> e.tables.mode.mode == e.tables.account.mode == ModeFor(c))
            && (!e.note.ModeChanged? ==> e == Stay(t, Done))
  {
    assert Operation.Transition(row, RequestOf(c)).Some?;
  }

  // ----- orders nobody executes any more

  predicate Holds(p: Proc, oid: nat) {
    || (p.ExecPending? && p.oid == oid) || (p.ExecLookup? && p.oid == oid) || (p.ExecFailing? && p.oid == oid)
    || (p.ExecAmbiguous? && p.oid == oid) || (p.ExecAnswered? && p.oid == oid) || (p.ExecSubmitted? && p.oid == oid)
  }

  /** A stored order whose executor has ended or crashed. */
  ghost predicate Abandoned(s: System, oid: nat) {
    oid < |s.tables.orders| && forall pid :: pid in s.procs ==> !Holds(s.procs[pid], oid)
  }

  /** All that can still happen to such an order. */
  predicate Withers(before: Orders.Status, after: Orders.Status) {
    after == before || (before.Submitted? && after.Cancelled?)
  }

  ghost predicate AllWither(orders: seq<Orders.Order>, orders': seq<Orders.Order>) {
    |orders'| == |orders| && forall i :: 0 <= i < |orders| ==> Withers(orders[i].status, orders'[i].status)
  }

  ghost predicate AllFresh(orders: seq<Orders.Order>, orders': seq<Orders.Order>) {
    |orders'| == |orders| && forall i :: 0 <= i < |orders| ==> FreshOrder(orders[i], orders'[i])
  }

  lemma CancelOneWithers(t: Tables, i: nat, o: Orders.Order)
    requires AllReached(t.orders) && OrderSnapshot(t, i, o) && CancelOne(t, (i, o)).Some?
    ensures var t' := CancelOne(t, (i, o)).value; AllWither(t.orders, t'.orders) && AllFresh(t.orders, t'.orders)
  {
    if Orders.Accepts(o, Orders.Cancel) {
      UpdateLands(t, i, o, Orders.Cancel);
    }
  }

  lemma {:induction false} CancellingWithers(t: Tables, os: OrderList)
    requires AllReached(t.orders) && OrderSnapshots(t.orders, os) && CancelOrders(t, os).Some?
    ensures var t' := CancelOrders(t, os).value; AllWither(t.orders, t'.orders) && AllFresh(t.orders, t'.orders)
  {
    if os != [] {
      var before, last := os[..|os| - 1], os[|os| - 1];
      CancellingWithers(t, before);
      var t1 := CancelOrders(t, before).value;
      CancellingReaches(t, before);
      assert FreshOrder(t.orders[last.0], t1.orders[last.0]);
      CancelOneWithers(t1, last.0, last.1);
    }
  }

  lemma ResetWithers(env: Env, t: Tables, p: Proc, oid: nat)
    requires AllReached(t.orders) && ProcOk(t, p) && p.ResetReady? && oid < |t.orders|
    ensures var t' := CommitReset(env, t, p.acct, p.ps, p.os).tables;
            oid < |t'.orders| && Withers(t.orders[oid].status, t'.orders[oid].status)
  {
    if env.resetBalance > 0.0 && AllValid(p.ps) && ResetOf(env.div, t, p.acct, p.ps, p.os, env.resetBalance).Some? {
      ClosingFrame(env.div, t, p.ps);
      CancellingWithers(ClosePositions(env.div, t, p.ps).value, p.os);
    }
  }

  lemma ExecutorLeavesOthers(env: Env, t: Tables, now: nat, p: Proc, oracle: Oracle, oid: nat)
    requires (p.ExecReserved? || Settles(p) || Books(p)) && oid < |t.orders| && !Holds(p, oid)
    ensures var e := Advance(env, t, now, p, oracle);
            oid < |e.tables.orders| && e.tables.orders[oid] == t.orders[oid] && !Holds(e.proc, oid)
  {
  }

  lemma OthersTakeNoOrder(env: Env, t: Tables, now: nat, p: Proc, oracle: Oracle, oid: nat)
    requires !(p.ExecReserved? || Settles(p) || Books(p) || p.ResetReady?) && !Holds(p, oid)
    ensures var e := Advance(env, t, now, p, oracle); e.tables.orders == t.orders && !Holds(e.proc, oid)
  {
  }

  lemma AdvanceWithers(env: Env, t: Tables, now: nat, p: Proc, oracle: Oracle, oid: nat)
    requires AllReached(t.orders) && ProcOk(t, p) && oid < |t.orders| && !Holds(p, oid)
    ensures var e := Advance(env, t, now, p, oracle);
            oid < |e.tables.orders| && Withers(t.orders[oid].status, e.tables.orders[oid].status) && !Holds(e.proc, oid)
  {
    if p.ExecReserved? || Settles(p) || Books(p) {
      ExecutorLeavesOthers(env, t, now, p, oracle, oid);
    } else if p.ResetReady? {
      ResetWithers(env, t, p, oid);
    } else {
      OthersTakeNoOrder(env, t, now, p, oracle, oid);
    }
  }

  lemma NextWithers(env: Env, s: System, a: Action, oid: nat)
    requires SystemOk(s) && AllReached(s.tables.orders) && Abandoned(s, oid)
    ensures var s' := Next(env, s, a);
            Abandoned(s', oid) && Withers(s.tables.orders[oid].status, s'.tables.orders[oid].status)
  {
    if a.Step? && a.pid in s.procs {
      var e := Advance(env, s.tables, s.now, s.procs[a.pid], a.oracle);
      AdvanceWithers(env, s.tables, s.now, s.procs[a.pid], a.oracle, oid);
      ApplyShape(s, a.pid, e);
    }
  }

  /**
   * An order whose executor has ended or crashed keeps its status over every continuation, but for a paper
   * reset that may cancel a SUBMITTED one. So no such order is ever filled, and an abandoned PENDING one stays.
   */
  lemma {:induction false} AbandonedOrdersWither(env: Env, start: real, actions: seq<Action>, more: seq<Action>, oid: nat)
    requires start > 0.0 && Abandoned(Run(env, start, actions), oid)
    ensures Abandoned(Run(env, start, actions + more), oid)
    ensures Withers(Run(env, start, actions).tables.orders[oid].status,
                    Run(env, start, actions + more).tables.orders[oid].status)
  {
    if more == [] {
      assert actions + more == actions;
    } else {
      var earlier, last := more[..|more| - 1], more[|more| - 1];
      AbandonedOrdersWither(env, start, actions, earlier, oid);
      AbandonedStep(env, start, actions + earlier, last, oid);
      assert actions + more == actions + earlier + [last];
    }
  }

  lemma AbandonedStep(env: Env, start: real, actions: seq<Action>, a: Action, oid: nat)
    requires start > 0.0 && Abandoned(Run(env, start, actions), oid)
    ensures Abandoned(Run(env, start, actions + [a]), oid)
    ensures Withers(Run(env, start, actions).tables.orders[oid].status,
                    Run(env, start, actions + [a]).tables.orders[oid].status)
  {
    RunIsSafe(env, start, actions);
    NoOrderIsEverUnknown(env, start, actions);
    RunStep(env, start, actions, a);
    NextWithers(env, Run(env, start, actions), a, oid);
  }

  lemma RunStep(env: Env, start: real, actions: seq<Action>, a: Action)
    requires start > 0.0
    ensures Run(env, start, actions + [a]) == Next(env, Run(env, start, actions), a)
  {
    assert (actions + [a])[..|actions|] == actions;
  }

  /** The process holds this order and an answer that books its fill now. */
  predicate BooksNow(t: Tables, p: Proc, oid: nat) {
    p.ExecSubmitted? && p.oid == oid && Bookable(t, oid, p.order, p.acct, p.reply)
  }

  lemma BookedRowIsFilled(t: Tables, oid: nat, o: Orders.Order, price: Price, acct: Accounts.Account)
    requires TablesOk(t) && OrderSnapshot(t, oid, o) && FreshAccount(acct, t.account)
    requires FillOf(t, oid, o, price, acct).Some?
    ensures |FillOf(t, oid, o, price, acct).value.orders| == |t.orders|
    ensures FillOf(t, oid, o, price, acct).value.orders[oid].status.Filled?
  {
    FillWins(t, oid, o, price, acct);
  }

  lemma ProtectedIsFilled(t: Tables, oid: nat, o: Orders.Order, acct: Accounts.Account, reply: Reply)
    requires TablesOk(t) && OrderSnapshot(t, oid, o) && EntrySnapshot(t, acct) && !t.orders[oid].status.Filled?
    ensures var e := BookFill(t, oid, o, acct, reply);
            && |e.tables.orders| == |t.orders|
            && (e.tables.orders[oid].status.Filled? <==> e.proc == ExecProtecting(oid))
  {
    var e := BookFill(t, oid, o, acct, reply);
    if e.proc.ExecProtecting? {
      BookedRowIsFilled(t, oid, o, reply.price.value, acct);
      assert e.tables == FillOf(t, oid, o, reply.price.value, acct).value;
    } else {
      assert e.tables == t;
    }
  }

  lemma BookingFills(t: Tables, oid: nat, o: Orders.Order, acct: Accounts.Account, reply: Reply)
    requires TablesOk(t) && OrderSnapshot(t, oid, o) && EntrySnapshot(t, acct) && !t.orders[oid].status.Filled?
    ensures var e := BookFill(t, oid, o, acct, reply);
            |e.tables.orders| == |t.orders| && (e.tables.orders[oid].status.Filled? <==> Bookable(t, oid, o, acct, reply))
  {
    ProtectedIsFilled(t, oid, o, acct, reply);
    FillCommitsExactlyWhen(t, oid, o, acct, reply);
  }

  lemma EarlierHoldersFillNothing(env: Env, t: Tables, now: nat, p: Proc, oracle: Oracle, oid: nat)
    requires ProcOk(t, p) && oid < |t.orders| && Holds(p, oid) && !p.ExecSubmitted? && !t.orders[oid].status.Filled?
    ensures var e := Advance(env, t, now, p, oracle);
            oid < |e.tables.orders| && !e.tables.orders[oid].status.Filled?
  {
  }

  lemma HolderFills(env: Env, t: Tables, now: nat, p: Proc, oracle: Oracle, oid: nat)
    requires TablesOk(t) && ProcOk(t, p) && oid < |t.orders| && Holds(p, oid) && !t.orders[oid].status.Filled?
    ensures var e := Advance(env, t, now, p, oracle);
            oid < |e.tables.orders| && (e.tables.orders[oid].status.Filled? <==> BooksNow(t, p, oid))
  {
    if p.ExecSubmitted? {
      BookingFills(t, oid, p.order, p.acct, p.reply);
    } else {
      EarlierHoldersFillNothing(env, t, now, p, oracle, oid);
    }
  }

  /**
   * Over any run an order turns FILLED exactly in the step in which its own executor books the answer it holds:
   * no reconciliation, reset or other process ever records a fill.
   */
  lemma OrderFillsExactlyWhen(env: Env, start: real, actions: seq<Action>, a: Action, oid: nat)
    requires start > 0.0 && oid < |Run(env, start, actions).tables.orders|
    requires !Run(env, start, actions).tables.orders[oid].status.Filled?
    ensures var s, s' := Run(env, start, actions), Run(env, start, actions + [a]);
            && oid < |s'.tables.orders|
            && (s'.tables.orders[oid].status.Filled? <==>
                a.Step? && a.pid in s.procs && BooksNow(s.tables, s.procs[a.pid], oid))
  {
    var s := Run(env, start, actions);
    RunIsSafe(env, start, actions);
    NoOrderIsEverUnknown(env, start, actions);
    RunStep(env, start, actions, a);
    if a.Step? && a.pid in s.procs {
      var p := s.procs[a.pid];
      ApplyShape(s, a.pid, Advance(env, s.tables, s.now, p, a.oracle));
      if Holds(p, oid) {
        HolderFills(env, s.tables, s.now, p, a.oracle, oid);
      } else {
        AdvanceWithers(env, s.tables, s.now, p, a.oracle, oid);
      }
    }
  }

  /** An execution from the start, whose broker acknowledges the order without filling it. */
  function UnfilledExecution(d: Orders.ClientId, reply: Reply): seq<Action> {
    ToReserved(d) + [Step(0, Fails)] + [Step(0, Answers(reply))] + [Step(0, Fails)] + [Step(0, Fails)]
  }

  /** A step of a process that is alone. */
  lemma SoloStep(env: Env, start: real, actions: seq<Action>, oracle: Oracle, p: Proc)
    requires start > 0.0 && Run(env, start, actions).procs == map[0 := p]
    ensures var s, s' := Run(env, start, actions), Run(env, start, actions + [Step(0, oracle)]);
            var e := Advance(env, s.tables, s.now, p, oracle);
            s'.procs == map[0 := e.proc] && s'.tables == e.tables
  {
    RunStep(env, start, actions, Step(0, oracle));
    var s := Run(env, start, actions);
    ApplyShape(s, 0, Advance(env, s.tables, s.now, p, oracle));
  }

  function ToReserved(d: Orders.ClientId): seq<Action> {
    [Start(0, Execute(d))] + [Step(0, Fails)] + [Step(0, Fails)] + [Step(0, Fails)]
  }

  lemma ReachesReserved(env: Env, start: real, d: Orders.ClientId)
    requires start > 0.0 && d in env.decisions && env.decisions[d].allowed
    ensures var s, acct := Run(env, start, ToReserved(d)), Accounts.NewPaperAccount(start).value;
            s.procs == map[0 := ExecReserved(d, acct)] && s.tables.orders == []
  {
    var acct := Accounts.NewPaperAccount(start).value;
    var a1 := [Start(0, Execute(d))];
    var a2 := a1 + [Step(0, Fails)];
    var a3 := a2 + [Step(0, Fails)];
    assert a1[..0] == [];
    assert Run(env, start, a1) == Next(env, Run(env, start, []), Start(0, Execute(d)));
    SoloStep(env, start, a1, Fails, ExecStart(d));
    SoloStep(env, start, a2, Fails, ExecLoaded(d, acct));
    SoloStep(env, start, a3, Fails, ExecUnseen(d, acct));
  }

  lemma PersistsFirst(env: Env, t: Tables, d: Orders.ClientId, acct: Accounts.Account) returns (o: Orders.Order)
    requires d in env.decisions && env.decisions[d].size > 0.0 && env.decisions[d].strategy != "" && t.orders == []
    ensures var e := PersistPending(env, t, d, acct);
            e.proc == ExecPending(0, o, acct) && e.tables.orders == [o] && o.status.Pending? && o.version == 1
  {
    o := PersistPending(env, t, d, acct).tables.orders[0];
  }

  lemma SubmitsFirst(t: Tables, o: Orders.Order, acct: Accounts.Account, reply: Reply) returns (o': Orders.Order)
    requires t.orders == [o] && o.status.Pending? && reply.brokerId != ""
    ensures var e := RecordSubmission(t, 0, o, acct, reply);
            e.proc == ExecSubmitted(0, o', acct, reply) && e.tables.orders == [o'] && o'.status.Submitted?
  {
    o' := Orders.Apply(o, Orders.Submit(reply.brokerId));
    var e := RecordSubmission(t, 0, o, acct, reply);
    assert StoredOrder(o, o') == o';
    assert e.tables.orders == [o][0 := o'];
  }

  /** From the reservation to the broker's answer. */
  lemma ReachesAnswered(env: Env, start: real, actions: seq<Action>, d: Orders.ClientId, acct: Accounts.Account, reply: Reply)
    returns (o: Orders.Order)
    requires start > 0.0 && d in env.decisions && env.decisions[d].size > 0.0 && env.decisions[d].strategy != ""
    requires Run(env, start, actions).procs == map[0 := ExecReserved(d, acct)] && Run(env, start, actions).tables.orders == []
    ensures var s := Run(env, start, actions + [Step(0, Fails)] + [Step(0, Answers(reply))]);
            s.procs == map[0 := ExecAnswered(0, o, acct, reply)] && s.tables.orders == [o] && o.status.Pending?
  {
    o := PersistsFirst(env, Run(env, start, actions).tables, d, acct);
    SoloStep(env, start, actions, Fails, ExecReserved(d, acct));
    SoloStep(env, start, actions + [Step(0, Fails)], Answers(reply), ExecPending(0, o, acct));
  }

  lemma UnfilledBooksNothing(t: Tables, oid: nat, o: Orders.Order, acct: Accounts.Account, reply: Reply)
    requires !reply.filled || reply.price.None?
    ensures BookFill(t, oid, o, acct, reply) == Stay(t, Done)
  {
  }

  /** From the answer to the end: the submission is recorded and the unfilled answer books nothing. */
  lemma EndsUnfilled(env: Env, start: real, actions: seq<Action>, o: Orders.Order, acct: Accounts.Account, reply: Reply)
    requires start > 0.0 && reply.brokerId != "" && (!reply.filled || reply.price.None?) && o.status.Pending?
    requires Run(env, start, actions).procs == map[0 := ExecAnswered(0, o, acct, reply)]
    requires Run(env, start, actions).tables.orders == [o]
    ensures var s := Run(env, start, actions + [Step(0, Fails)] + [Step(0, Fails)]);
            s.procs == map[0 := Done] && |s.tables.orders| == 1 && s.tables.orders[0].status.Submitted?
  {
    var o' := SubmitsFirst(Run(env, start, actions).tables, o, acct, reply);
    SoloStep(env, start, actions, Fails, ExecAnswered(0, o, acct, reply));
    var s := Run(env, start, actions + [Step(0, Fails)]);
    UnfilledBooksNothing(s.tables, 0, o', acct, reply);
    SoloStep(env, start, actions + [Step(0, Fails)], Fails, ExecSubmitted(0, o', acct, reply));
  }

  lemma UnfilledExecutionEnds(env: Env, start: real, d: Orders.ClientId, reply: Reply)
    requires start > 0.0 && d in env.decisions && env.decisions[d].allowed
    requires env.decisions[d].size > 0.0 && env.decisions[d].strategy != ""
    requires reply.brokerId != "" && (!reply.filled || reply.price.None?)
    ensures var s := Run(env, start, UnfilledExecution(d, reply));
            Abandoned(s, 0) && s.tables.orders[0].status.Submitted?
  {
    var acct := Accounts.NewPaperAccount(start).value;
    ReachesReserved(env, start, d);
    var o := ReachesAnswered(env, start, ToReserved(d), d, acct, reply);
    EndsUnfilled(env, start, ToReserved(d) + [Step(0, Fails)] + [Step(0, Answers(reply))], o, acct, reply);
  }

  /** Whatever happens after it, a fill the broker reports later is never recorded. */
  lemma LateFillIsNeverRecorded(env: Env, start: real, d: Orders.ClientId, reply: Reply, more: seq<Action>)
    requires start > 0.0 && d in env.decisions && env.decisions[d].allowed
    requires env.decisions[d].size > 0.0 && env.decisions[d].strategy != ""
    requires reply.brokerId != "" && (!reply.filled || reply.price.None?)
    ensures var t := Run(env, start, UnfilledExecution(d, reply) + more).tables;
            |t.orders| > 0 && (t.orders[0].status.Submitted? || t.orders[0].status.Cancelled?)
  {
    UnfilledExecutionEnds(env, start, d, reply);
    AbandonedOrdersWither(env, start, UnfilledExecution(d, reply), more, 0);
  }

  // ----- reservations

  ghost predicate ReservationsOk(s: System) {
    && (forall n :: 0 <= n < |s.reservations| ==>
          var r := s.reservations[n];
          r.d in s.tables.keys && r.at + 600000 <= s.tables.keys[r.d])
    && (forall n, m :: 0 <= n < m < |s.reservations| && s.reservations[n].d == s.reservations[m].d ==>
          s.reservations[n].at + 600000 < s.reservations[m].at)
  }

  lemma ReservingIsNoted(env: Env, t: Tables, now: nat, p: Proc, oracle: Oracle)
    requires Advance(env, t, now, p, oracle).note.Reserved?
    ensures p.ExecUnseen? && Reservable(t, p.d, now)
    ensures Advance(env, t, now, p, oracle) == Effect(Reserve(t, p.d, now), ExecReserved(p.d, p.acct), Reserved(p.d))
  {
  }

  lemma StepKeepsReservations(env: Env, s: System, pid: Pid, oracle: Oracle)
    requires ReservationsOk(s) && pid in s.procs
    ensures ReservationsOk(Apply(s, pid, Advance(env, s.tables, s.now, s.procs[pid], oracle)))
  {
    var p := s.procs[pid];
    var e := Advance(env, s.tables, s.now, p, oracle);
    ApplyShape(s, pid, e);
    if e.note.Reserved? {
      ReservingIsNoted(env, s.tables, s.now, p, oracle);
    } else {
      AdvanceIsFramed(env, s.tables, s.now, p, oracle);
    }
  }

  lemma NextKeepsReservations(env: Env, s: System, a: Action)
    requires ReservationsOk(s)
    ensures ReservationsOk(Next(env, s, a))
  {
    if a.Step? && a.pid in s.procs {
      StepKeepsReservations(env, s, a.pid, a.oracle);
    }
  }

  /** A key is granted when there is none, or the one there has expired, and then for ten minutes. */
  lemma KeyIsGrantedExactlyWhen(t: Tables, now: nat, d: Orders.ClientId, acct: Accounts.Account)
    ensures var e := ReserveKey(t, now, d, acct);
            if d !in t.keys || t.keys[d] < now
            then e == Effect(t.(keys := t.keys[d := now + 600000]), ExecReserved(d, acct), Reserved(d))
            else e == Stay(t, Done)
  {
  }

  /** Two successful reservations of one decision are always more than ten minutes apart. */
  lemma {:induction false} ReservationsAreSpaced(env: Env, start: real, actions: seq<Action>)
    requires start > 0.0
    ensures ReservationsOk(Run(env, start, actions))
  {
    if actions != [] {
      ReservationsAreSpaced(env, start, actions[..|actions| - 1]);
      NextKeepsReservations(env, Run(env, start, actions[..|actions| - 1]), actions[|actions| - 1]);
    }
  }
}

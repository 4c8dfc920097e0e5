/**
 * Executors and controllers over the shared tables. Every read, reservation, broker call and commit is a step
 * of its own, so any number of processes interleave, each with snapshots that may be stale; any process may
 * crash (or hit an error) between two steps, and time may pass.
 */
module Protocol {
  import opened Primitives
  import opened Storage
  import Operation
  import Orders
  import Accounts

  type Pid = nat

  /** An immutable risk decision together with the signal it approves. */
  datatype Decision = Decision(allowed: bool, size: Quantity, symbol: Symbol, side: Side, entry: Price, strategy: string)

  /** What never changes during a run. */
  datatype Env = Env(decisions: map<Orders.ClientId, Decision>, resetBalance: real, div: Division)

  /** A controller's command: ActivateKillSwitch, ChangeOperationalMode, or the forced retreat of reconciliation. */
  datatype Control =
    | Kill(actor: string, origin: string, reason: string)
    | Change(target: Operation.Mode, actor: string, origin: string, reason: string, token: string)
    | ForceCloseOnly

  function RequestOf(c: Control): Operation.Request {
    match c
    case Kill(actor, origin, reason) =>
      Operation.Request(Operation.KillSwitch, actor, origin, reason, Operation.NO_CONFIRMATION)
    case Change(target, actor, origin, reason, token) =>
      Operation.Request(target, actor, origin, reason, Operation.Confirmation(token != "", token))
    case ForceCloseOnly =>
      Operation.Request(Operation.CloseOnly, "system", "reconciliation", "critical divergence detected",
                        Operation.NO_CONFIRMATION)
  }

  /** What PlaceOrder is asked for: a market order, with the signal's entry as reference price. */
  datatype Request = Request(clientId: Orders.ClientId, symbol: Symbol, side: Side, quantity: Quantity, price: Price)

  /** A broker order as answered: its id, whether it reads FILLED, and its average price if any. */
  datatype Reply = Reply(brokerId: string, filled: bool, price: Option<Price>)

  /** What the outside world answers at a broker call. */
  datatype Oracle =
    | Answers(reply: Reply)
    | Fails
    | NotFound

  /** A process by the step it is about to take, with everything it has read so far. */
  datatype Proc =
    // ExecuteApprovedOrder
    | ExecStart(d: Orders.ClientId)
    | ExecLoaded(d: Orders.ClientId, acct: Accounts.Account)
    | ExecUnseen(d: Orders.ClientId, acct: Accounts.Account)
    | ExecReserved(d: Orders.ClientId, acct: Accounts.Account)
    | ExecPending(oid: nat, order: Orders.Order, acct: Accounts.Account)
    | ExecLookup(oid: nat, order: Orders.Order, acct: Accounts.Account)
    | ExecFailing(oid: nat, order: Orders.Order)
    | ExecAmbiguous(oid: nat, order: Orders.Order)
    | ExecAnswered(oid: nat, order: Orders.Order, acct: Accounts.Account, reply: Reply)
    | ExecSubmitted(oid: nat, order: Orders.Order, acct: Accounts.Account, reply: Reply)
    | ExecProtecting(oid: nat)
    // the mode controllers; `since` is the length of the mode log when they began
    | ModeStart(control: Control, since: nat)
    | ModeLoaded(control: Control, since: nat, row: Operation.ModeRow)
    | ModeReady(control: Control, since: nat, row: Operation.ModeRow, acct: Accounts.Account)
    | ModeDone(control: Control, since: nat)
    // ResetPaperState
    | ResetStart
    | ResetLoaded(acct: Accounts.Account)
    | ResetListed(acct: Accounts.Account, ps: PositionList)
    | ResetReady(acct: Accounts.Account, ps: PositionList, os: OrderList)
    | Done

  /** What a step does beside the tables, for the histories below. */
  datatype Note =
    | Quiet
    | Created
    | Placed(oid: nat, request: Request)
    | ModeChanged(entry: Operation.Entry)
    | Reserved(d: Orders.ClientId)

  datatype Effect = Effect(tables: Tables, proc: Proc, note: Note)

  function Stay(t: Tables, p: Proc): Effect { Effect(t, p, Quiet) }

  // ----- ExecuteApprovedOrder, step by step

  function LoadDecision(env: Env, t: Tables, d: Orders.ClientId): Effect {
    if d !in env.decisions || !env.decisions[d].allowed || !Operation.AllowsNewEntries(t.account.mode)
    then Stay(t, Done)
    else Stay(t, ExecLoaded(d, t.account))
  }

  function LookForOrder(t: Tables, d: Orders.ClientId, acct: Accounts.Account): Effect {
    Stay(t, if HasClientId(t.orders, d) then Done else ExecUnseen(d, acct))
  }

  function ReserveKey(t: Tables, now: nat, d: Orders.ClientId, acct: Accounts.Account): Effect {
    if Reservable(t, d, now) then Effect(Reserve(t, d, now), ExecReserved(d, acct), Reserved(d)) else Stay(t, Done)
  }

  function PersistPending(env: Env, t: Tables, d: Orders.ClientId, acct: Accounts.Account): Effect {
    if d !in env.decisions then Stay(t, Done)
    else
      var dec := env.decisions[d];
      match Orders.NewPending(d, dec.symbol, dec.side, dec.size, dec.strategy)
      case None => Stay(t, Done)
      case Some(o) =>
        match PendingTx(t, o)
        case None => Stay(t, Done)
        case Some(t') => Effect(t', ExecPending(|t.orders|, o, acct), Created)
  }

  function CallPlaceOrder(env: Env, t: Tables, oid: nat, o: Orders.Order, acct: Accounts.Account, oracle: Oracle): Effect {
    if o.clientId !in env.decisions then Stay(t, Done)
    else
      var dec := env.decisions[o.clientId];
      Effect(t, if oracle.Answers? then ExecAnswered(oid, o, acct, oracle.reply) else ExecLookup(oid, o, acct),
             Placed(oid, Request(o.clientId, dec.symbol, dec.side, dec.size, dec.entry)))
  }

  function CallFindOrder(t: Tables, oid: nat, o: Orders.Order, acct: Accounts.Account, oracle: Oracle): Effect {
    match oracle
    case Answers(reply) => Stay(t, ExecAnswered(oid, o, acct, reply))
    case NotFound => Stay(t, ExecFailing(oid, o))
    case Fails => Stay(t, ExecAmbiguous(oid, o))
  }

  /** Saves the order after a call whose own error is dropped; a lost save is dropped as well. */
  function SaveAfter(t: Tables, oid: nat, o: Orders.Order, c: Orders.Call): Effect {
    match UpdateOrder(t, oid, Orders.Apply(o, c))
    case None => Stay(t, Done)
    case Some(t') => Stay(t', Done)
  }

  function RecordSubmission(t: Tables, oid: nat, o: Orders.Order, acct: Accounts.Account, reply: Reply): Effect {
    var call := Orders.Submit(reply.brokerId);
    if !Orders.Accepts(o, call) then Stay(t, Done)
    else
      match SubmitTx(t, oid, Orders.Apply(o, call))
      case None => Stay(t, Done)
      case Some(t') => Stay(t', ExecSubmitted(oid, Orders.Apply(o, call), acct, reply))
  }

  /** reconcileFreshOrder: a failed margin reservation is reported and the transaction is attempted all the same. */
  function BookFill(t: Tables, oid: nat, o: Orders.Order, acct: Accounts.Account, reply: Reply): Effect {
    if !reply.filled || reply.price.None? || !Orders.Accepts(o, Orders.MarkFilled(reply.price.value)) then Stay(t, Done)
    else
      match FillOf(t, oid, o, reply.price.value, acct)
      case None => Stay(t, Done)
      case Some(t') => Stay(t', ExecProtecting(oid))
  }

  // ----- the mode controllers

  function LoadMode(t: Tables, c: Control, since: nat): Effect {
    if c.ForceCloseOnly? && Operation.Restricted(t.mode.mode) then Stay(t, ModeDone(c, since))
    else if Operation.Transition(t.mode, RequestOf(c)).None? then Stay(t, Done)
    else Stay(t, ModeLoaded(c, since, t.mode))
  }

  /** The account read; a kill switch without an origin cannot be recorded as an incident and stops here. */
  function LoadAccount(t: Tables, c: Control, since: nat, row: Operation.ModeRow): Effect {
    if c.Kill? && c.origin == "" then Stay(t, Done) else Stay(t, ModeReady(c, since, row, t.account))
  }

  function CommitMode(t: Tables, c: Control, since: nat, row: Operation.ModeRow, acct: Accounts.Account): Effect {
    var request := RequestOf(c);
    match Operation.Transition(row, request)
    case None => Stay(t, Done)
    case Some(next) =>
      match ModeTx(t, next, Accounts.Apply(acct, Accounts.SetOperationalMode(request.target)), c.Kill?)
      case None => Stay(t, Done)
      case Some(t') => Effect(t', ModeDone(c, since), ModeChanged(Operation.Entry(request.target, request.confirmation)))
  }

  // ----- ResetPaperState

  function LoadForReset(t: Tables): Effect {
    Stay(t, if t.account.mode.Paper? then ResetLoaded(t.account) else Done)
  }

  function CommitReset(env: Env, t: Tables, acct: Accounts.Account, ps: PositionList, os: OrderList): Effect {
    if env.resetBalance <= 0.0 || !AllValid(ps) then Stay(t, Done)
    else
      match ResetOf(env.div, t, acct, ps, os, env.resetBalance)
      case None => Stay(t, Done)
      case Some(t') => Stay(t', Done)
  }

  /** The next step of a process, as a function of the tables, the clock and the outside world. */
  function Advance(env: Env, t: Tables, now: nat, p: Proc, oracle: Oracle): Effect {
    match p
    case ExecStart(d) => LoadDecision(env, t, d)
    case ExecLoaded(d, acct) => LookForOrder(t, d, acct)
    case ExecUnseen(d, acct) => ReserveKey(t, now, d, acct)
    case ExecReserved(d, acct) => PersistPending(env, t, d, acct)
    case ExecPending(oid, o, acct) => CallPlaceOrder(env, t, oid, o, acct, oracle)
    case ExecLookup(oid, o, acct) => CallFindOrder(t, oid, o, acct, oracle)
    case ExecFailing(oid, o) => SaveAfter(t, oid, o, Orders.Fail("placing order"))
    case ExecAmbiguous(oid, o) => SaveAfter(t, oid, o, Orders.MarkUnknown)
    case ExecAnswered(oid, o, acct, reply) => RecordSubmission(t, oid, o, acct, reply)
    case ExecSubmitted(oid, o, acct, reply) => BookFill(t, oid, o, acct, reply)
    case ExecProtecting(oid) => Stay(t, Done)
    case ModeStart(c, since) => LoadMode(t, c, since)
    case ModeLoaded(c, since, row) => LoadAccount(t, c, since, row)
    case ModeReady(c, since, row, acct) => CommitMode(t, c, since, row, acct)
    case ModeDone(c, since) => Stay(t, p)
    case ResetStart => LoadForReset(t)
    case ResetLoaded(acct) => Stay(t, ResetListed(acct, OpenPositions(t.positions)))
    case ResetListed(acct, ps) => Stay(t, ResetReady(acct, ps, OpenOrders(t.orders)))
    case ResetReady(acct, ps, os) => CommitReset(env, t, acct, ps, os)
    case Done => Stay(t, p)
  }

  // ----- the whole system

  /** One call of Broker.PlaceOrder: who made it, for which order row, asking for what. */
  datatype Placement = Placement(pid: Pid, oid: nat, request: Request)

  datatype Reservation = Reservation(d: Orders.ClientId, at: nat)

  /** The tables and processes, and the histories the theorems speak about; a process id is never used twice. */
  datatype System = System(
    tables: Tables,
    procs: map<Pid, Proc>,
    started: set<Pid>,
    now: nat,
    creators: seq<Pid>,
    placed: seq<Placement>,
    log: seq<Operation.Entry>,
    reservations: seq<Reservation>)

  function Boot(account: Accounts.Account): System {
    System(Tables(account, Operation.INITIAL_ROW, [], [], [], [], map[]), map[], {}, 0, [], [], [Operation.INITIAL_ENTRY], [])
  }

  datatype Job = Execute(d: Orders.ClientId) | Control(control: Control) | ResetPaper

  datatype Action =
    | Start(pid: Pid, job: Job)
    | Step(pid: Pid, oracle: Oracle)
    | Crash(pid: Pid)
    | Tick(ms: nat)

  function Begin(s: System, job: Job): Proc {
    match job
    case Execute(d) => ExecStart(d)
    case Control(c) => ModeStart(c, |s.log|)
    case ResetPaper => ResetStart
  }

  function Apply(s: System, pid: Pid, e: Effect): System {
    var moved := s.(tables := e.tables, procs := s.procs[pid := e.proc]);
    match e.note
    case Quiet => moved
    case Created => moved.(creators := s.creators + [pid])
    case Placed(oid, request) => moved.(placed := s.placed + [Placement(pid, oid, request)])
    case ModeChanged(entry) => moved.(log := s.log + [entry])
    case Reserved(d) => moved.(reservations := s.reservations + [Reservation(d, s.now)])
  }

  function Next(env: Env, s: System, a: Action): System {
    match a
    case Start(pid, job) =>
      if pid in s.started then s else s.(procs := s.procs[pid := Begin(s, job)], started := s.started + {pid})
    case Step(pid, oracle) =>
      if pid !in s.procs then s else Apply(s, pid, Advance(env, s.tables, s.now, s.procs[pid], oracle))
    case Crash(pid) => s.(procs := s.procs - {pid})
    case Tick(ms) => s.(now := s.now + ms)
  }

  /** Every interleaving is a sequence of actions, and every state of a run is the end of one of its prefixes. */
  function Run(env: Env, start: real, actions: seq<Action>): System
    requires start > 0.0
  {
    if actions == [] then Boot(Accounts.NewPaperAccount(start).value)
    else Next(env, Run(env, start, actions[..|actions| - 1]), actions[|actions| - 1])
  }
}

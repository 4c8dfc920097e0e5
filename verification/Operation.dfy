/** The operational mode state machine (internal/domain/operation). */
module Operation {
  import opened Primitives

  datatype Mode = Paper | Testnet | Real | Paused | CloseOnly | KillSwitch

  predicate AllowsNewEntries(m: Mode) { m.Paper? || m.Testnet? || m.Real? }

  /** The modes the system retreats to: no entries, and recovery only by way of PAUSED. */
  predicate Restricted(m: Mode) { m.CloseOnly? || m.KillSwitch? }

  const ALLOWED_TRANSITIONS: map<Mode, set<Mode>> := map[
    Paper := {Testnet, Real, Paused, CloseOnly, KillSwitch},
    Testnet := {Paper, Real, Paused, CloseOnly, KillSwitch},
    Real := {Paused, CloseOnly, KillSwitch},
    Paused := {Paper, Testnet, Real, CloseOnly, KillSwitch},
    CloseOnly := {Paused, KillSwitch},
    KillSwitch := {Paused}
  ]

  predicate CanTransition(m: Mode, target: Mode) {
    m == target || (m in ALLOWED_TRANSITIONS && target in ALLOWED_TRANSITIONS[m])
  }

  const REQUIRED_TOKEN := "I_UNDERSTAND_THE_RISK"

  datatype Confirmation = Confirmation(enabled: bool, token: string)

  predicate Confirms(c: Confirmation) { c.enabled && c.token == REQUIRED_TOKEN }

  const NO_CONFIRMATION := Confirmation(false, "")

  /** The singleton row of operational_modes. */
  datatype ModeRow = ModeRow(mode: Mode, changedBy: string, origin: string, reason: string, version: nat)

  datatype Request = Request(target: Mode, actor: string, origin: string, reason: string, confirmation: Confirmation)

  const INITIAL_ROW := ModeRow(Paper, "system", "bootstrap", "initial startup", 1)

  /** What TransitionTo makes of a row; None is a refusal, which leaves the row alone. */
  function Transition(s: ModeRow, r: Request): Option<ModeRow> {
    if !CanTransition(s.mode, r.target) then None
    else if r.target.Real? && !Confirms(r.confirmation) then None
    else if r.actor == "" || r.reason == "" then None
    else Some(ModeRow(r.target, r.actor, r.origin, r.reason, s.version + 1))
  }

  /**
   * What is admitted, by target: PAUSED and KILL_SWITCH from everywhere, CLOSE_ONLY from everywhere but
   * KILL_SWITCH, PAPER and TESTNET from each other and PAUSED, REAL from those three with the exact token; a
   * mode may be entered again. Actor and reason must be given, and the row records the request.
   */
  lemma TransitionExactlyWhen(s: ModeRow, r: Request)
    ensures Transition(s, r).Some? <==>
              && r.actor != "" && r.reason != ""
              && (r.target.CloseOnly? ==> !s.mode.KillSwitch?)
              && (r.target.Paper? || r.target.Testnet? ==> s.mode.Paper? || s.mode.Testnet? || s.mode.Paused?)
              && (r.target.Real? ==> && (s.mode.Paper? || s.mode.Testnet? || s.mode.Paused? || s.mode.Real?)
                                     && r.confirmation == Confirmation(true, "I_UNDERSTAND_THE_RISK"))
    ensures Transition(s, r).Some? ==> Transition(s, r).value == ModeRow(r.target, r.actor, r.origin, r.reason, s.version + 1)
  {
  }

  class State {
    var currentMode: Mode
    var changedBy: string
    var origin: string
    var reason: string
    var version: nat

    function Row(): ModeRow
      reads this
    {
      ModeRow(currentMode, changedBy, origin, reason, version)
    }

    constructor ()
      ensures Row() == INITIAL_ROW == ModeRow(Paper, "system", "bootstrap", "initial startup", 1)
    {
      currentMode, changedBy, origin, reason, version := Paper, "system", "bootstrap", "initial startup", 1;
    }

    method TransitionTo(r: Request) returns (ok: bool)
      modifies this
      ensures ok <==> Transition(old(Row()), r).Some?
      ensures Row() == if ok then Transition(old(Row()), r).value else old(Row())
    {
      if !CanTransition(currentMode, r.target) { return false; }
      if r.target.Real? {
        if !r.confirmation.enabled || r.confirmation.token != REQUIRED_TOKEN { return false; }
      }
      if r.actor == "" { return false; }
      if r.reason == "" { return false; }
      currentMode := r.target;
      changedBy := r.actor;
      origin := r.origin;
      reason := r.reason;
      version := version + 1;
      return true;
    }
  }

  // ----- whole traces

  /** One accepted transition: the mode entered and the confirmation presented for it. */
  datatype Entry = Entry(mode: Mode, confirmation: Confirmation)

  const INITIAL_ENTRY := Entry(Paper, NO_CONFIRMATION)

  /** A log every step of which the transition table and the REAL guard admit. */
  ghost predicate ValidLog(log: seq<Entry>) {
    && |log| > 0
    && log[0] == INITIAL_ENTRY
    && (forall i :: 1 <= i < |log| ==> CanTransition(log[i - 1].mode, log[i].mode))
    && (forall i :: 1 <= i < |log| && log[i].mode.Real? ==> Confirms(log[i].confirmation))
  }

  ghost predicate PausedBetween(log: seq<Entry>, i: nat, j: nat)
    requires i <= j <= |log|
  {
    exists k :: i < k < j && log[k].mode.Paused?
  }

  lemma LogExtends(log: seq<Entry>, s: ModeRow, r: Request)
    requires ValidLog(log) && log[|log| - 1].mode == s.mode
    requires Transition(s, r).Some?
    ensures ValidLog(log + [Entry(r.target, r.confirmation)])
  {
    var after := log + [Entry(r.target, r.confirmation)];
    forall i | 1 <= i < |after|
      ensures CanTransition(after[i - 1].mode, after[i].mode)
      ensures after[i].mode.Real? ==> Confirms(after[i].confirmation)
    {
      if i < |log| {
        assert after[i - 1] == log[i - 1] && after[i] == log[i];
      }
    }
  }

  /** A PAUSED state separates every restricted state from every later entry-allowing one. */
  lemma {:induction false} RecoveryPassesThroughPaused(log: seq<Entry>, i: nat, j: nat)
    requires ValidLog(log)
    requires i < j < |log|
    requires Restricted(log[i].mode) && AllowsNewEntries(log[j].mode)
    ensures PausedBetween(log, i, j)
    decreases j
  {
    assert CanTransition(log[j - 1].mode, log[j].mode);
    if AllowsNewEntries(log[j - 1].mode) {
      RecoveryPassesThroughPaused(log, i, j - 1);
      var k :| i < k < j - 1 && log[k].mode.Paused?;
      assert i < k < j && log[k].mode.Paused?;
    } else {
      assert log[j - 1].mode.Paused?;
    }
  }

  /** The row and the log of accepted transitions after a sequence of requests. */
  function Run(requests: seq<Request>): (r: (ModeRow, seq<Entry>)) {
    if requests == [] then (INITIAL_ROW, [INITIAL_ENTRY])
    else
      var (row, log) := Run(requests[..|requests| - 1]);
      var last := requests[|requests| - 1];
      match Transition(row, last)
      case None => (row, log)
      case Some(next) => (next, log + [Entry(last.target, last.confirmation)])
  }

  /** Over any request sequence: the log is valid, ends in the row's mode and has one entry per version. */
  lemma {:induction false} RunsAreValid(requests: seq<Request>)
    ensures ValidLog(Run(requests).1)
    ensures Run(requests).1[|Run(requests).1| - 1].mode == Run(requests).0.mode
    ensures Run(requests).0.version == |Run(requests).1|
  {
    if requests != [] {
      var before := requests[..|requests| - 1];
      var last := requests[|requests| - 1];
      RunsAreValid(before);
      if Transition(Run(before).0, last).Some? {
        LogExtends(Run(before).1, Run(before).0, last);
      }
    }
  }

  /** Mode safety of every run: REAL needs the exact token, and no restricted state is left without a pause. */
  lemma ModeSafety(requests: seq<Request>, i: nat, j: nat)
    requires i < j < |Run(requests).1|
    ensures Run(requests).1[j].mode.Real? ==>
              Run(requests).1[j].confirmation == Confirmation(true, "I_UNDERSTAND_THE_RISK")
    ensures var log := Run(requests).1;
            log[i].mode in {CloseOnly, KillSwitch} && log[j].mode in {Paper, Testnet, Real} ==> PausedBetween(log, i, j)
  {
    RunsAreValid(requests);
    var log := Run(requests).1;
    if Restricted(log[i].mode) && AllowsNewEntries(log[j].mode) {
      RecoveryPassesThroughPaused(log, i, j);
    }
  }
}

/** The transactional outbox: its three statements, and any number of workers sharing it. */
module Outbox {
  import opened Primitives

  const MAX_ATTEMPTS := 5

  type EventId = string

  datatype Status = Pending | Processing | Processed | Failed

  datatype Row = Row(status: Status, attempts: nat, createdAt: int)

  type Table = map<EventId, Row>

  // ----- the statements of queries.go

  function Insert(t: Table, id: EventId, at: int): Table { if id in t then t else t[id := Row(Pending, 0, at)] }

  /** Claims rows by moving them straight to PROCESSING. */
  function Claim(t: Table, ids: seq<EventId>): Table {
    map id | id in t :: if id in ids then t[id].(status := Processing) else t[id]
  }

  function MarkProcessed(t: Table, id: EventId): Table {
    if id in t then t[id := t[id].(status := Processed)] else t
  }

  /** A row whose publication failed once more. */
  function Retried(r: Row): Row {
    r.(status := if r.attempts + 1 >= MAX_ATTEMPTS then Failed else Pending, attempts := r.attempts + 1)
  }

  function MarkFailed(t: Table, id: EventId): Table {
    if id in t then t[id := Retried(t[id])] else t
  }

  predicate Distinct(ids: seq<EventId>) { forall i, j :: 0 <= i < j < |ids| ==> ids[i] != ids[j] }

  /** Rows a claim may return: each PENDING, each once. */
  predicate Claimable(t: Table, ids: seq<EventId>) {
    Distinct(ids) && forall id :: id in ids ==> id in t && t[id].status.Pending?
  }

  // ----- the shared state machine

  /** A worker between ticks, or holding a batch whose head is about to be published, or about to be marked. */
  datatype Worker = Idle | Publishing(queue: seq<EventId>) | Marking(queue: seq<EventId>, published: bool)

  datatype Publication = Publication(id: EventId, ok: bool)

  /** The table, the workers, every publish call ever made, and how many rows were ever claimed and inserted. */
  datatype System = System(
    table: Table,
    workers: map<nat, Worker>,
    published: multiset<Publication>,
    claimed: nat,
    inserted: nat)

  const START := System(map[], map[], multiset{}, 0, 0)

  datatype Action =
    | AddEvent(id: EventId, at: int)
    | ClaimBatch(worker: nat, limit: nat, ids: seq<EventId>)
    | LoseBatch(limit: nat, ids: seq<EventId>)
    | Publish(worker: nat, ok: bool)
    | Mark(worker: nat, stored: bool)
    | Crash(worker: nat)

  function QueueOf(w: Worker): seq<EventId> { if w.Idle? then [] else w.queue }

  function Holding(s: System, w: nat): Worker { if w in s.workers then s.workers[w] else Idle }

  function Rest(queue: seq<EventId>): Worker
    requires queue != []
  {
    if |queue| == 1 then Idle else Publishing(queue[1..])
  }

  /** One step; an action that is not enabled changes nothing. */
  function Next(s: System, a: Action): System {
    match a
    case AddEvent(id, at) =>
      if id in s.table then s else s.(table := Insert(s.table, id, at), inserted := s.inserted + 1)
    case ClaimBatch(w, limit, ids) =>
      if Holding(s, w).Idle? && |ids| <= limit && ids != [] && Claimable(s.table, ids)
      then s.(table := Claim(s.table, ids), workers := s.workers[w := Publishing(ids)], claimed := s.claimed + |ids|)
      else s
    // the claim takes effect, but the fetch that made it fails and hands its worker nothing
    case LoseBatch(limit, ids) =>
      if |ids| <= limit && Claimable(s.table, ids)
      then s.(table := Claim(s.table, ids), claimed := s.claimed + |ids|)
      else s
    case Publish(w, ok) =>
      if Holding(s, w).Publishing? && Holding(s, w).queue != []
      then s.(workers := s.workers[w := Marking(Holding(s, w).queue, ok)],
              published := s.published + multiset{Publication(Holding(s, w).queue[0], ok)})
      else s
    case Mark(w, stored) =>
      if Holding(s, w).Marking? && Holding(s, w).queue != []
      then
        var h := Holding(s, w);
        var t := if !stored then s.table
                 else if h.published then MarkProcessed(s.table, h.queue[0]) else MarkFailed(s.table, h.queue[0]);
        s.(table := t, workers := s.workers[w := Rest(h.queue)])
      else s
    case Crash(w) => s.(workers := s.workers - {w})
  }

  function Run(actions: seq<Action>): System {
    if actions == [] then START else Next(Run(actions[..|actions| - 1]), actions[|actions| - 1])
  }

  // ----- exclusive claims and bounded publication

  function Failures(s: System, id: EventId): nat { s.published[Publication(id, false)] }

  function Successes(s: System, id: EventId): nat { s.published[Publication(id, true)] }

  /** FAILED is exactly the exhausted state. */
  predicate RowOk(r: Row) { r.attempts <= MAX_ATTEMPTS && (r.status.Failed? <==> r.attempts == MAX_ATTEMPTS) }

  /** Publish calls made for a row, against its attempts. */
  predicate Tallied(s: System, id: EventId) {
    if id !in s.table then Failures(s, id) == 0 && Successes(s, id) == 0
    else
      var r := s.table[id];
      match r.status
      case Pending => Failures(s, id) == r.attempts && Successes(s, id) == 0
      case Failed => Failures(s, id) == r.attempts && Successes(s, id) == 0
      case Processed => Failures(s, id) == r.attempts && Successes(s, id) == 1
      case Processing => Failures(s, id) >= r.attempts && Failures(s, id) + Successes(s, id) <= r.attempts + 1
  }

  /** A worker's whole batch is PROCESSING; only a head already published has an unrecorded publish call. */
  predicate HolderOk(s: System, h: Worker) {
    && Distinct(QueueOf(h))
    && (h.Publishing? || h.Marking? ==> h.queue != [])
    && (forall k :: 0 <= k < |QueueOf(h)| ==>
          var id := QueueOf(h)[k];
          && id in s.table && s.table[id].status.Processing?
          && Failures(s, id) == s.table[id].attempts + Bit(h.Marking? && k == 0 && !h.published)
          && Successes(s, id) == Bit(h.Marking? && k == 0 && h.published))
  }

  predicate Exclusive(s: System) {
    forall v, w, id :: v in s.workers && w in s.workers && id in QueueOf(s.workers[v]) && id in QueueOf(s.workers[w]) ==>
                         v == w
  }

  ghost predicate Inv(s: System) {
    && (forall id :: id in s.table ==> RowOk(s.table[id]))
    && (forall id :: Tallied(s, id))
    && (forall w :: w in s.workers ==> HolderOk(s, s.workers[w]))
    && Exclusive(s)
  }

  lemma AddKeepsInv(s: System, id: EventId, at: int)
    requires Inv(s)
    ensures Inv(Next(s, AddEvent(id, at)))
  {
    var t := Next(s, AddEvent(id, at));
    assert Tallied(s, id);
    forall x ensures Tallied(t, x) { assert Tallied(s, x); }
    forall w | w in t.workers ensures HolderOk(t, t.workers[w]) { assert HolderOk(s, s.workers[w]); }
  }

  lemma ClaimKeepsInv(s: System, w: nat, limit: nat, ids: seq<EventId>)
    requires Inv(s)
    ensures Inv(Next(s, ClaimBatch(w, limit, ids)))
  {
    var t := Next(s, ClaimBatch(w, limit, ids));
    if t != s {
      forall x ensures Tallied(t, x) { assert Tallied(s, x); }
      forall v | v in t.workers ensures HolderOk(t, t.workers[v]) {
        if v == w {
          forall k | 0 <= k < |ids| ensures Failures(t, ids[k]) == t.table[ids[k]].attempts && Successes(t, ids[k]) == 0 {
            assert ids[k] in ids && Tallied(s, ids[k]);
          }
        } else {
          HeldRowsAreNotClaimable(s, v, ids);
        }
      }
      forall v, u, x | v in t.workers && u in t.workers && x in QueueOf(t.workers[v]) && x in QueueOf(t.workers[u])
        ensures v == u
      {
        if v == w && u != w { HeldRowsAreNotClaimable(s, u, ids); }
        if u == w && v != w { HeldRowsAreNotClaimable(s, v, ids); }
      }
    }
  }

  lemma LoseKeepsInv(s: System, limit: nat, ids: seq<EventId>)
    requires Inv(s)
    ensures Inv(Next(s, LoseBatch(limit, ids)))
  {
    var t := Next(s, LoseBatch(limit, ids));
    if t != s {
      forall x ensures Tallied(t, x) { assert Tallied(s, x); }
      forall v | v in t.workers ensures HolderOk(t, t.workers[v]) {
        HeldRowsAreNotClaimable(s, v, ids);
        HolderFrame(s, t, s.workers[v]);
      }
    }
  }

  lemma HeldRowsAreNotClaimable(s: System, v: nat, ids: seq<EventId>)
    requires Inv(s) && v in s.workers && Claimable(s.table, ids)
    ensures forall x :: x in QueueOf(s.workers[v]) ==> x !in ids
  {
    assert HolderOk(s, s.workers[v]);
  }

  lemma PublishKeepsInv(s: System, w: nat, ok: bool)
    requires Inv(s)
    ensures Inv(Next(s, Publish(w, ok)))
  {
    var t := Next(s, Publish(w, ok));
    if t != s {
      var queue := s.workers[w].queue;
      assert HolderOk(s, s.workers[w]);
      forall x ensures Tallied(t, x) { assert Tallied(s, x); }
      forall v | v in t.workers ensures HolderOk(t, t.workers[v]) {
        assert HolderOk(s, s.workers[v]);
        if v != w {
          assert queue[0] !in QueueOf(s.workers[v]);
        }
      }
      forall v, u, x | v in t.workers && u in t.workers && x in QueueOf(t.workers[v]) && x in QueueOf(t.workers[u])
        ensures v == u
      {
        assert x in QueueOf(s.workers[v]) && x in QueueOf(s.workers[u]);
      }
    }
  }

  lemma MarkKeepsRows(s: System, w: nat, stored: bool)
    requires Inv(s)
    ensures var t := Next(s, Mark(w, stored));
            && (forall id :: id in t.table ==> RowOk(t.table[id]))
            && (forall id :: Tallied(t, id))
  {
    var t := Next(s, Mark(w, stored));
    if t != s {
      assert HolderOk(s, s.workers[w]) && RowOk(s.table[s.workers[w].queue[0]]);
    }
    forall x ensures Tallied(t, x) { assert Tallied(s, x); }
  }

  /** A holder is untouched by changes to rows and publish calls outside its queue. */
  lemma HolderFrame(s: System, t: System, h: Worker)
    requires HolderOk(s, h)
    requires forall x :: x in QueueOf(h) ==> x in t.table && t.table[x] == s.table[x]
    requires t.published == s.published
    ensures HolderOk(t, h)
  {
  }

  lemma RestIsHolder(s: System, h: Worker)
    requires HolderOk(s, h) && h.Marking?
    ensures HolderOk(s, Rest(h.queue))
    ensures forall x :: x in QueueOf(Rest(h.queue)) ==> x in h.queue && x != h.queue[0]
  {
    assert forall k :: 0 <= k < |h.queue| - 1 ==> h.queue[1..][k] == h.queue[k + 1] && h.queue[k + 1] != h.queue[0];
  }

  lemma MarkKeepsHolder(s: System, w: nat, stored: bool, v: nat)
    requires Inv(s) && v in Next(s, Mark(w, stored)).workers
    ensures v in s.workers && HolderOk(Next(s, Mark(w, stored)), Next(s, Mark(w, stored)).workers[v])
    ensures forall x :: x in QueueOf(Next(s, Mark(w, stored)).workers[v]) ==> x in QueueOf(s.workers[v])
  {
    var t := Next(s, Mark(w, stored));
    assert HolderOk(s, s.workers[v]);
    if t != s {
      assert HolderOk(s, s.workers[w]);
      if v == w {
        RestIsHolder(s, s.workers[w]);
      } else {
        assert s.workers[w].queue[0] !in QueueOf(s.workers[v]);
      }
      HolderFrame(s, t, t.workers[v]);
    }
  }

  lemma MarkKeepsInv(s: System, w: nat, stored: bool)
    requires Inv(s)
    ensures Inv(Next(s, Mark(w, stored)))
  {
    var t := Next(s, Mark(w, stored));
    MarkKeepsRows(s, w, stored);
    forall v | v in t.workers
      ensures v in s.workers && HolderOk(t, t.workers[v])
      ensures forall x :: x in QueueOf(t.workers[v]) ==> x in QueueOf(s.workers[v])
    {
      MarkKeepsHolder(s, w, stored, v);
    }
  }

  lemma CrashKeepsInv(s: System, w: nat)
    requires Inv(s)
    ensures Inv(Next(s, Crash(w)))
  {
    var t := Next(s, Crash(w));
    forall x ensures Tallied(t, x) { assert Tallied(s, x); }
    forall v | v in t.workers ensures HolderOk(t, t.workers[v]) { assert HolderOk(s, s.workers[v]); }
  }

  lemma {:induction false} RunKeepsInv(actions: seq<Action>)
    ensures Inv(Run(actions))
  {
    if actions != [] {
      var before := Run(actions[..|actions| - 1]);
      RunKeepsInv(actions[..|actions| - 1]);
      match actions[|actions| - 1]
      case AddEvent(id, at) => AddKeepsInv(before, id, at);
      case ClaimBatch(w, limit, ids) => ClaimKeepsInv(before, w, limit, ids);
      case LoseBatch(limit, ids) => LoseKeepsInv(before, limit, ids);
      case Publish(w, ok) => PublishKeepsInv(before, w, ok);
      case Mark(w, stored) => MarkKeepsInv(before, w, stored);
      case Crash(w) => CrashKeepsInv(before, w);
    }
  }

  /**
   * In every state of every run, whatever the interleaving, crashes and lost marks: a row is held by at most
   * one worker and is PROCESSING while held, is FAILED exactly after five attempts, is published at most
   * five times and successfully at most once, and once PROCESSED has been published successfully.
   */
  lemma ExclusiveAndBounded(actions: seq<Action>, id: EventId, v: nat, w: nat)
    ensures var s := Run(actions);
            && (id in QueueOf(Holding(s, v)) ==> id in s.table && s.table[id].status.Processing?)
            && (id in QueueOf(Holding(s, v)) && id in QueueOf(Holding(s, w)) ==> v == w)
            && (id in s.table ==> s.table[id].attempts <= 5 && (s.table[id].status.Failed? <==> s.table[id].attempts == 5))
            && Failures(s, id) + Successes(s, id) <= 5
            && Successes(s, id) <= 1
            && (id in s.table && s.table[id].status.Processed? ==> Successes(s, id) == 1)
            && (id in s.table && s.table[id].status.Failed? ==> Successes(s, id) == 0)
  {
    RunKeepsInv(actions);
    var s := Run(actions);
    assert Tallied(s, id);
    if id in QueueOf(Holding(s, v)) {
      assert HolderOk(s, s.workers[v]);
    }
  }

  /** A successful publish is final: no later step publishes that event again. */
  lemma NothingAfterSuccess(actions: seq<Action>, a: Action, id: EventId)
    requires Successes(Run(actions), id) == 1
    ensures Successes(Run(actions + [a]), id) == 1 && Failures(Run(actions + [a]), id) == Failures(Run(actions), id)
  {
    RunKeepsInv(actions);
    var s := Run(actions);
    assert (actions + [a])[..|actions|] == actions;
    if a.Publish? && Holding(s, a.worker).Publishing? {
      assert HolderOk(s, s.workers[a.worker]);
    }
  }

  /** Rows are never deleted or re-dated; a new one is PENDING, untried and dated as inserted. */
  lemma RowsStay(s: System, a: Action, id: EventId)
    ensures id in s.table ==> id in Next(s, a).table && Next(s, a).table[id].createdAt == s.table[id].createdAt
    ensures id !in s.table && id in Next(s, a).table ==> a.AddEvent? && a.id == id && Next(s, a).table[id] == Row(Pending, 0, a.at)
    ensures a.AddEvent? ==> a.id in Next(s, a).table
  {
  }

  // ----- lost events

  /** A claimed row no worker holds: nothing takes PROCESSING rows back. */
  ghost predicate Stranded(s: System, id: EventId) {
    id in s.table && s.table[id].status.Processing? && !Held(s, id)
  }

  ghost predicate Held(s: System, id: EventId) { exists w :: w in s.workers && id in QueueOf(s.workers[w]) }

  /**
   * The worker crashes with the event in its batch, or the mark after the event's publication is lost, or the
   * fetch that claims the event fails after the claim took effect.
   */
  predicate Loses(s: System, a: Action, id: EventId) {
    || (a.LoseBatch? && |a.ids| <= a.limit && Claimable(s.table, a.ids) && id in a.ids)
    || (a.Crash? && id in QueueOf(Holding(s, a.worker)))
    || (a.Mark? && !a.stored && Holding(s, a.worker).Marking? && QueueOf(Holding(s, a.worker)) != []
        && QueueOf(Holding(s, a.worker))[0] == id)
  }

  lemma AddStrands(s: System, id: EventId, at: int, x: EventId)
    requires Inv(s)
    ensures Stranded(Next(s, AddEvent(id, at)), x) <==> Stranded(s, x)
  {
    assert Held(Next(s, AddEvent(id, at)), x) <==> Held(s, x);
    if id !in s.table && Held(s, id) {
      HeldIsProcessing(s, id);
    }
  }

  lemma HeldIsProcessing(s: System, id: EventId)
    requires Inv(s) && Held(s, id)
    ensures id in s.table && s.table[id].status.Processing?
  {
    var w :| w in s.workers && id in QueueOf(s.workers[w]);
    assert HolderOk(s, s.workers[w]);
  }

  lemma ClaimStrands(s: System, w: nat, limit: nat, ids: seq<EventId>, x: EventId)
    requires Inv(s)
    ensures Stranded(Next(s, ClaimBatch(w, limit, ids)), x) <==> Stranded(s, x)
  {
    var t := Next(s, ClaimBatch(w, limit, ids));
    if t != s {
      if v :| v in s.workers && x in QueueOf(s.workers[v]) {
        assert v != w && t.workers[v] == s.workers[v];
      }
      if x in ids {
        assert x in QueueOf(t.workers[w]);
      } else if v :| v in t.workers && x in QueueOf(t.workers[v]) {
        assert v != w && s.workers[v] == t.workers[v];
      }
    }
  }

  lemma LoseStrands(s: System, limit: nat, ids: seq<EventId>, x: EventId)
    requires Inv(s)
    ensures Stranded(Next(s, LoseBatch(limit, ids)), x) <==> Stranded(s, x) || Loses(s, LoseBatch(limit, ids), x)
  {
    var t := Next(s, LoseBatch(limit, ids));
    assert t.workers == s.workers;
    assert Held(t, x) <==> Held(s, x);
    if Held(s, x) { HeldIsProcessing(s, x); }
  }

  lemma PublishStrands(s: System, w: nat, ok: bool, x: EventId)
    requires Inv(s)
    ensures Stranded(Next(s, Publish(w, ok)), x) <==> Stranded(s, x)
  {
    var t := Next(s, Publish(w, ok));
    assert forall v :: v in s.workers <==> v in t.workers;
    assert forall v :: v in s.workers ==> QueueOf(t.workers[v]) == QueueOf(s.workers[v]);
  }

  lemma CrashStrands(s: System, w: nat, x: EventId)
    requires Inv(s)
    ensures Stranded(Next(s, Crash(w)), x) <==> Stranded(s, x) || Loses(s, Crash(w), x)
  {
    var t := Next(s, Crash(w));
    if x in QueueOf(Holding(s, w)) {
      assert Held(s, x);
      HeldIsProcessing(s, x);
    } else if v :| v in s.workers && x in QueueOf(s.workers[v]) {
      assert v != w && t.workers[v] == s.workers[v];
    }
  }

  lemma MarkStrands(s: System, w: nat, stored: bool, x: EventId)
    requires Inv(s)
    ensures Stranded(Next(s, Mark(w, stored)), x) <==> Stranded(s, x) || Loses(s, Mark(w, stored), x)
  {
    var t := Next(s, Mark(w, stored));
    if t != s {
      var h := s.workers[w];
      assert HolderOk(s, h);
      if x == h.queue[0] {
        assert Held(s, x);
        HeadIsReleased(s, w, stored);
      } else {
        OthersStayHeld(s, w, stored, x);
      }
    }
  }

  /** Marking releases the head of the batch. */
  lemma HeadIsReleased(s: System, w: nat, stored: bool)
    requires Inv(s) && w in s.workers && s.workers[w].Marking?
    ensures HolderOk(s, s.workers[w]) && !Held(Next(s, Mark(w, stored)), s.workers[w].queue[0])
  {
    assert HolderOk(s, s.workers[w]);
    RestIsHolder(s, s.workers[w]);
  }

  /** It releases nothing else. */
  lemma OthersStayHeld(s: System, w: nat, stored: bool, x: EventId)
    requires Inv(s) && w in s.workers && s.workers[w].Marking? && s.workers[w].queue != [] && x != s.workers[w].queue[0]
    ensures Held(Next(s, Mark(w, stored)), x) <==> Held(s, x)
  {
    var t, queue := Next(s, Mark(w, stored)), s.workers[w].queue;
    assert forall k :: 0 <= k < |queue| - 1 ==> queue[1..][k] == queue[k + 1];
    assert x in queue <==> x in QueueOf(t.workers[w]);
    assert forall v :: v in s.workers && v != w ==> v in t.workers && t.workers[v] == s.workers[v];
    assert forall v :: v in t.workers && v != w ==> v in s.workers && t.workers[v] == s.workers[v];
  }

  /** A step strands a row exactly when it loses it; a stranded row stays stranded. */
  lemma StrandedExactlyWhen(s: System, a: Action, id: EventId)
    requires Inv(s)
    ensures Stranded(Next(s, a), id) <==> Stranded(s, id) || Loses(s, a, id)
  {
    match a
    case AddEvent(x, at) => AddStrands(s, x, at, id);
    case ClaimBatch(w, limit, ids) => ClaimStrands(s, w, limit, ids, id);
    case LoseBatch(limit, ids) => LoseStrands(s, limit, ids, id);
    case Publish(w, ok) => PublishStrands(s, w, ok, id);
    case Mark(w, stored) => MarkStrands(s, w, stored, id);
    case Crash(w) => CrashStrands(s, w, id);
  }

  lemma RunStep(actions: seq<Action>, a: Action)
    ensures Run(actions + [a]) == Next(Run(actions), a)
  {
    assert (actions + [a])[..|actions|] == actions;
  }

  /** The k-th action of the run lost the event. */
  predicate LostAt(actions: seq<Action>, k: nat, id: EventId)
    requires k < |actions|
  {
    Loses(Run(actions[..k]), actions[k], id)
  }

  ghost predicate LostIn(actions: seq<Action>, id: EventId) { exists k :: 0 <= k < |actions| && LostAt(actions, k, id) }

  lemma LostAtPrefix(before: seq<Action>, a: Action, k: nat, id: EventId)
    requires k <= |before|
    ensures LostAt(before + [a], k, id) <==> if k < |before| then LostAt(before, k, id) else Loses(Run(before), a, id)
  {
    assert (before + [a])[..k] == before[..k];
    assert before[..|before|] == before;
  }

  lemma LostInOneMore(before: seq<Action>, a: Action, id: EventId)
    ensures LostIn(before + [a], id) <==> LostIn(before, id) || Loses(Run(before), a, id)
  {
    forall k | 0 <= k <= |before|
      ensures LostAt(before + [a], k, id) <==> if k < |before| then LostAt(before, k, id) else Loses(Run(before), a, id)
    {
      LostAtPrefix(before, a, k, id);
    }
    if Loses(Run(before), a, id) {
      assert LostAt(before + [a], |before|, id);
    }
    if LostIn(before, id) {
      var k :| 0 <= k < |before| && LostAt(before, k, id);
      assert LostAt(before + [a], k, id);
    }
  }

  /**
   * Over any run an event ends up stranded exactly when some worker crashed with it in its batch, some mark
   * after its publication was lost, or some fetch failed after claiming it.
   */
  lemma {:induction false} StrandedExactlyWhenLost(actions: seq<Action>, id: EventId)
    ensures Stranded(Run(actions), id) <==> LostIn(actions, id)
  {
    if actions != [] {
      var before, last := actions[..|actions| - 1], actions[|actions| - 1];
      StrandedExactlyWhenLost(before, id);
      RunKeepsInv(before);
      StrandedExactlyWhen(Run(before), last, id);
      LostInOneMore(before, last, id);
      assert actions == before + [last];
    }
  }

  /** A claim of one PENDING row by an idle worker puts that row into its batch. */
  lemma ClaimHolds(s: System, w: nat, id: EventId)
    requires id in s.table && s.table[id].status.Pending? && Holding(s, w).Idle?
    ensures Holding(Next(s, ClaimBatch(w, 1, [id])), w) == Publishing([id])
  {
    assert Claimable(s.table, [id]);
  }

  /** It does happen, from every reachable state with a PENDING row: the worker crashes right after its claim. */
  lemma CrashLosesEvent(actions: seq<Action>, w: nat, id: EventId)
    requires id in Run(actions).table && Run(actions).table[id].status.Pending? && Holding(Run(actions), w).Idle?
    ensures Stranded(Run(actions + [ClaimBatch(w, 1, [id])] + [Crash(w)]), id)
  {
    var claimed := actions + [ClaimBatch(w, 1, [id])];
    RunStep(actions, ClaimBatch(w, 1, [id]));
    RunStep(claimed, Crash(w));
    RunKeepsInv(claimed);
    ClaimHolds(Run(actions), w, id);
    StrandedExactlyWhen(Run(claimed), Crash(w), id);
  }

  /** And so it does with no worker ever holding the row: the fetch that claims a batch fails. */
  lemma FailedFetchLosesEvents(actions: seq<Action>, ids: seq<EventId>, id: EventId)
    requires Claimable(Run(actions).table, ids) && id in ids
    ensures Stranded(Run(actions + [LoseBatch(|ids|, ids)]), id)
  {
    RunStep(actions, LoseBatch(|ids|, ids));
    RunKeepsInv(actions);
    StrandedExactlyWhen(Run(actions), LoseBatch(|ids|, ids), id);
  }

  /** And with no crash or failed fetch: the event is published, or not, and its mark is lost. */
  lemma LostMarkLosesEvent(actions: seq<Action>, w: nat, id: EventId, ok: bool)
    requires id in Run(actions).table && Run(actions).table[id].status.Pending? && Holding(Run(actions), w).Idle?
    ensures Stranded(Run(actions + [ClaimBatch(w, 1, [id])] + [Publish(w, ok)] + [Mark(w, false)]), id)
  {
    var claimed := actions + [ClaimBatch(w, 1, [id])];
    var published := claimed + [Publish(w, ok)];
    RunStep(actions, ClaimBatch(w, 1, [id]));
    RunStep(claimed, Publish(w, ok));
    RunStep(published, Mark(w, false));
    RunKeepsInv(published);
    ClaimHolds(Run(actions), w, id);
    assert Holding(Run(published), w) == Marking([id], ok);
    StrandedExactlyWhen(Run(published), Mark(w, false), id);
  }

  /** The row and its publish calls are as they were. */
  predicate Untouched(s: System, t: System, id: EventId) {
    && id in s.table && id in t.table && t.table[id] == s.table[id]
    && Failures(t, id) == Failures(s, id) && Successes(t, id) == Successes(s, id)
  }

  /** A stranded row is out of every step's reach. */
  lemma StrandedIsUntouched(s: System, a: Action, id: EventId)
    requires Inv(s) && Stranded(s, id)
    ensures Untouched(s, Next(s, a), id)
  {
    if (a.Publish? || a.Mark?) && a.worker in s.workers && QueueOf(s.workers[a.worker]) != [] {
      assert QueueOf(s.workers[a.worker])[0] in QueueOf(s.workers[a.worker]);
      assert QueueOf(s.workers[a.worker])[0] != id;
    }
  }

  lemma StrandedStays(actions: seq<Action>, a: Action, id: EventId)
    requires Stranded(Run(actions), id)
    ensures Stranded(Run(actions + [a]), id) && Untouched(Run(actions), Run(actions + [a]), id)
  {
    RunKeepsInv(actions);
    RunStep(actions, a);
    StrandedExactlyWhen(Run(actions), a, id);
    StrandedIsUntouched(Run(actions), a, id);
  }

  /** Once lost, an event stays PROCESSING for good and is never published again. */
  lemma {:induction false} StrandedForever(actions: seq<Action>, more: seq<Action>, id: EventId)
    requires Stranded(Run(actions), id)
    ensures Stranded(Run(actions + more), id) && Untouched(Run(actions), Run(actions + more), id)
  {
    if more == [] {
      assert actions + more == actions;
    } else {
      var earlier, last := more[..|more| - 1], more[|more| - 1];
      StrandedForever(actions, earlier, id);
      StrandedStays(actions + earlier, last, id);
      assert actions + more == actions + earlier + [last];
    }
  }

  // ----- bounded work: every claim spends one unit of a budget of five per event

  /** Claims a row can still be the object of. */
  function Budget(r: Row): real {
    match r.status
    case Pending => (MAX_ATTEMPTS - r.attempts) as real
    case Processing => (MAX_ATTEMPTS - 1 - r.attempts) as real
    case _ => 0.0
  }

  function BudgetOf(id: EventId, r: Row): real { Budget(r) }

  ghost function TotalBudget(t: Table): real { SumMap(t, BudgetOf) }

  lemma {:induction false} ClaimSpends(t: Table, ids: seq<EventId>)
    requires Claimable(t, ids)
    ensures TotalBudget(Claim(t, ids)) == TotalBudget(t) - |ids| as real
  {
    if ids == [] {
      assert Claim(t, ids) == t;
    } else {
      var one := t[ids[0] := t[ids[0]].(status := Processing)];
      assert forall k :: 0 <= k < |ids| - 1 ==> ids[1..][k] == ids[k + 1];
      assert Claim(t, ids) == Claim(one, ids[1..]);
      SumInsert(t, BudgetOf, ids[0], t[ids[0]].(status := Processing));
      ClaimSpends(one, ids[1..]);
    }
  }

  lemma MarkingNeverRefunds(t: Table, id: EventId)
    requires id in t && t[id].status.Processing? && t[id].attempts < MAX_ATTEMPTS
    ensures TotalBudget(MarkProcessed(t, id)) <= TotalBudget(t)
    ensures TotalBudget(MarkFailed(t, id)) <= TotalBudget(t)
  {
    SumInsert(t, BudgetOf, id, MarkProcessed(t, id)[id]);
    SumInsert(t, BudgetOf, id, MarkFailed(t, id)[id]);
  }

  lemma {:induction false} WorkIsBudgeted(actions: seq<Action>)
    ensures Run(actions).claimed as real + TotalBudget(Run(actions).table) <= 5.0 * Run(actions).inserted as real
  {
    if actions != [] {
      var before, a := Run(actions[..|actions| - 1]), actions[|actions| - 1];
      WorkIsBudgeted(actions[..|actions| - 1]);
      RunKeepsInv(actions[..|actions| - 1]);
      match a
      case AddEvent(id, at) => SumInsert(before.table, BudgetOf, id, Row(Pending, 0, at));
      case ClaimBatch(w, limit, ids) => if Claimable(before.table, ids) { ClaimSpends(before.table, ids); }
      case LoseBatch(limit, ids) => if Claimable(before.table, ids) { ClaimSpends(before.table, ids); }
      case Mark(w, stored) =>
        if Holding(before, w).Marking? {
          var head := before.workers[w].queue[0];
          assert HolderOk(before, before.workers[w]) && RowOk(before.table[head]);
          MarkingNeverRefunds(before.table, head);
        }
      case _ =>
    }
  }

  /** However many workers drain, over any run: at most five claims are ever made per inserted event. */
  lemma ClaimsAreBounded(actions: seq<Action>)
    ensures Run(actions).claimed <= 5 * Run(actions).inserted
  {
    WorkIsBudgeted(actions);
    RunKeepsInv(actions);
    var s := Run(actions);
    forall id | id in s.table ensures BudgetOf(id, s.table[id]) >= 0.0 { assert RowOk(s.table[id]); }
    SumIsNonNegative(s.table, BudgetOf);
  }
}

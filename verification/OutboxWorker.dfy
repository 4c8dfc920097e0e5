/** The repository and the worker of the outbox as they run: one drain, and a run of ticks. */
module OutboxWorker {
  import opened Primitives
  import opened Outbox

  /** Retries a PENDING row still has. */
  function Retries(id: EventId, r: Row): real {
    if r.status.Pending? then (MAX_ATTEMPTS - r.attempts) as real else 0.0
  }

  /** The sum of (5 - attempts) over the PENDING rows. */
  ghost function PendingWeight(t: Table): real { SumMap(t, Retries) }

  ghost predicate RowsOk(t: Table) { forall id :: id in t ==> RowOk(t[id]) }

  ghost predicate HasPending(t: Table) { exists id :: id in t && t[id].status.Pending? }

  ghost function WeightOf(t: Table, ids: seq<EventId>): real
    requires forall id :: id in ids ==> id in t
  {
    if ids == [] then 0.0
    else
      assert forall id :: id in ids[1..] ==> id in ids;
      (MAX_ATTEMPTS - t[ids[0]].attempts) as real + WeightOf(t, ids[1..])
  }

  lemma {:induction false} ClaimRemovesWeight(t: Table, ids: seq<EventId>)
    requires Claimable(t, ids)
    ensures PendingWeight(Claim(t, ids)) == PendingWeight(t) - WeightOf(Claim(t, ids), ids)
  {
    if ids == [] {
      assert Claim(t, ids) == t;
    } else {
      var one := t[ids[0] := t[ids[0]].(status := Processing)];
      assert forall k :: 0 <= k < |ids| - 1 ==> ids[1..][k] == ids[k + 1];
      assert Claim(t, ids) == Claim(one, ids[1..]);
      SumInsert(t, Retries, ids[0], t[ids[0]].(status := Processing));
      ClaimRemovesWeight(one, ids[1..]);
    }
  }

  lemma {:induction false} ClaimedHaveWeight(t: Table, ids: seq<EventId>)
    requires forall id :: id in ids ==> id in t && t[id].attempts <= MAX_ATTEMPTS
    ensures WeightOf(t, ids) >= 0.0
  {
    if ids != [] {
      assert forall id :: id in ids[1..] ==> id in ids;
      ClaimedHaveWeight(t, ids[1..]);
    }
  }

  lemma ClaimNeedsPending(t: Table, ids: seq<EventId>)
    requires Claimable(t, ids)
    ensures ids != [] ==> HasPending(t)
    ensures ids == [] ==> Claim(t, ids) == t
  {
    if ids != [] {
      assert ids[0] in ids;
    }
  }

  lemma PendingHasWeight(t: Table)
    requires RowsOk(t)
    ensures PendingWeight(t) >= 0.0
    ensures HasPending(t) ==> PendingWeight(t) >= 1.0
  {
    forall id | id in t ensures Retries(id, t[id]) >= 0.0 { assert RowOk(t[id]); }
    SumIsNonNegative(t, Retries);
    if HasPending(t) {
      var id :| id in t && t[id].status.Pending?;
      assert RowOk(t[id]);
      SumRemove(t, Retries, id);
      SumIsNonNegative(t - {id}, Retries);
    }
  }

  /** What a claimed row may have become once its turn is over: marked either way, or left behind by a lost mark. */
  predicate Handled(before: Row, after: Row) {
    || after == before
    || after == before.(status := Processed)
    || after == Retried(before)
  }

  lemma HandlingAddsLess(t: Table, id: EventId, after: Row)
    requires id in t && t[id].status.Processing? && RowOk(t[id]) && Handled(t[id], after)
    ensures PendingWeight(t[id := after]) <= PendingWeight(t) + (MAX_ATTEMPTS - t[id].attempts) as real - 1.0
    ensures RowOk(after)
  {
    SumInsert(t, Retries, id, after);
  }

  /** No PENDING row is passed over for a younger one. */
  ghost predicate OldestFirst(t: Table, ids: seq<EventId>)
    requires forall id :: id in ids ==> id in t
  {
    forall x, y :: x in ids && y in t && t[y].status.Pending? && y !in ids ==> t[x].createdAt <= t[y].createdAt
  }

  predicate IsOldest(t: Table, ids: set<EventId>, id: EventId)
    requires forall x :: x in ids ==> x in t
  {
    id in ids && forall x :: x in ids ==> t[id].createdAt <= t[x].createdAt
  }

  lemma {:induction false} OldestExists(t: Table, ids: set<EventId>)
    requires ids != {} && forall x :: x in ids ==> x in t
    ensures exists id :: IsOldest(t, ids, id)
    decreases ids
  {
    var x :| x in ids;
    if ids == {x} {
      assert IsOldest(t, ids, x);
    } else {
      OldestExists(t, ids - {x});
      var y :| IsOldest(t, ids - {x}, y);
      assert IsOldest(t, ids, if t[x].createdAt <= t[y].createdAt then x else y);
    }
  }

  class Repository {
    var rows: Table

    constructor ()
      ensures rows == map[]
    {
      rows := map[];
    }

    /** The primary key refuses a known id. */
    method InsertEvent(id: EventId, now: int) returns (ok: bool)
      modifies this
      ensures ok <==> id !in old(rows)
      ensures rows == Insert(old(rows), id, now)
    {
      ok := id !in rows;
      if ok { rows := rows[id := Row(Pending, 0, now)]; }
    }

    /**
     * Claims up to `limit` PENDING rows, the oldest, in one statement. An error may strike before the statement or
     * after it; in the second case the rows stay claimed although none is returned.
     */
    method FetchPendingBatch(limit: nat) returns (ids: seq<EventId>, ok: bool, ghost claimed: seq<EventId>)
      modifies this
      ensures Claimable(old(rows), claimed) && |claimed| <= limit && OldestFirst(old(rows), claimed)
      ensures rows == Claim(old(rows), claimed)
      ensures ids == if ok then claimed else []
      ensures ok && limit > 0 && HasPending(old(rows)) ==> ids != []
    {
      ids, ok, claimed := [], *, [];
      assert Claim(rows, []) == rows;
      var executed: bool := *;
      if !ok && !executed { return; }
      ids := OldestPending(limit);
      rows, claimed := Claim(rows, ids), ids;
      if !ok { ids := []; }
    }

    /** The rows the claim selects. */
    method OldestPending(limit: nat) returns (ids: seq<EventId>)
      ensures Claimable(rows, ids) && |ids| <= limit && OldestFirst(rows, ids)
      ensures limit > 0 && HasPending(rows) ==> ids != []
    {
      ids := [];
      var pending := set id | id in rows && rows[id].status.Pending?;
      while pending != {} && |ids| < limit
        invariant |ids| <= limit && Claimable(rows, ids)
        invariant forall id :: id in pending ==> id in rows && rows[id].status.Pending? && id !in ids
        invariant forall id :: id in rows && rows[id].status.Pending? ==> id in pending || id in ids
        invariant forall x, y :: x in ids && y in pending ==> rows[x].createdAt <= rows[y].createdAt
        decreases pending
      {
        OldestExists(rows, pending);
        var id :| IsOldest(rows, pending, id);
        ids, pending := ids + [id], pending - {id};
      }
    }

    method StoreProcessed(id: EventId) returns (stored: bool)
      modifies this
      ensures rows == if stored then MarkProcessed(old(rows), id) else old(rows)
    {
      stored := *;
      if stored && id in rows { rows := rows[id := rows[id].(status := Processed)]; }
    }

    method StoreFailed(id: EventId) returns (stored: bool)
      modifies this
      ensures rows == if stored then MarkFailed(old(rows), id) else old(rows)
    {
      stored := *;
      if stored && id in rows {
        var attempts := rows[id].attempts + 1;
        var status := if attempts >= MAX_ATTEMPTS then Failed else Pending;
        rows := rows[id := rows[id].(status := status, attempts := attempts)];
      }
    }
  }

  class Worker {
    const repository: Repository
    const batchSize: nat

    constructor (repository: Repository, batchSize: nat)
      ensures this.repository == repository && this.batchSize == batchSize
    {
      this.repository, this.batchSize := repository, batchSize;
    }

    /** One claimed event: published with whatever outcome, then marked accordingly, if the mark gets through. */
    method HandleEvent(id: EventId) returns (published: bool, stored: bool)
      modifies repository
      ensures repository.rows ==
              if !stored then old(repository.rows)
              else if published then MarkProcessed(old(repository.rows), id)
              else MarkFailed(old(repository.rows), id)
    {
      published := *;
      if !published {
        stored := repository.StoreFailed(id);
        return;
      }
      stored := repository.StoreProcessed(id);
    }

    /** Publishes and marks a claimed batch; each event gives back at least one retry less than it took. */
    method HandleBatch(ids: seq<EventId>)
      requires RowsOk(repository.rows) && Distinct(ids)
      requires forall id :: id in ids ==> id in repository.rows && repository.rows[id].status.Processing?
      modifies repository
      ensures RowsOk(repository.rows)
      ensures PendingWeight(repository.rows)
           <= PendingWeight(old(repository.rows)) + WeightOf(old(repository.rows), ids) - |ids| as real
      ensures ids == [] ==> repository.rows == old(repository.rows)
    {
      ghost var claimed := repository.rows;
      assert ids[0..] == ids;
      for n := 0 to |ids|
        invariant RowsOk(repository.rows)
        invariant forall k :: n <= k < |ids| ==> ids[k] in repository.rows && repository.rows[ids[k]] == claimed[ids[k]]
        invariant PendingWeight(repository.rows) + WeightOf(claimed, ids[n..])
               <= PendingWeight(claimed) + WeightOf(claimed, ids) - n as real
        invariant n == 0 ==> repository.rows == claimed
      {
        ghost var before := repository.rows;
        assert ids[n] in ids;
        var published, stored := HandleEvent(ids[n]);
        HandlingAddsLess(before, ids[n], repository.rows[ids[n]]);
        assert repository.rows == before[ids[n] := repository.rows[ids[n]]];
        assert ids[n..][0] == ids[n] && ids[n..][1..] == ids[n + 1..];
      }
    }

    /** Each drained event strictly lowers the weight of what is pending, whatever the publisher does. */
    method DrainOnce() returns (fetched: bool, drained: nat)
      requires RowsOk(repository.rows)
      modifies repository
      ensures RowsOk(repository.rows)
      ensures PendingWeight(repository.rows) <= PendingWeight(old(repository.rows)) - drained as real
      ensures fetched && batchSize > 0 && HasPending(old(repository.rows)) ==> drained > 0
      ensures !HasPending(old(repository.rows)) ==> !HasPending(repository.rows)
    {
      ghost var start := repository.rows;
      var ids;
      ghost var claimed;
      ids, fetched, claimed := repository.FetchPendingBatch(batchSize);
      ClaimRemovesWeight(start, claimed);
      ClaimedHaveWeight(repository.rows, claimed);
      ClaimNeedsPending(start, claimed);
      drained := |ids|;
      HandleBatch(ids);
    }

    /** With no new events, as many successful fetches as there are retries left leave nothing PENDING. */
    method Run(ticks: nat) returns (missed: nat)
      requires RowsOk(repository.rows) && batchSize > 0
      modifies repository
      ensures RowsOk(repository.rows) && missed <= ticks
      ensures (ticks - missed) as real >= PendingWeight(old(repository.rows)) ==> !HasPending(repository.rows)
    {
      ghost var start := PendingWeight(repository.rows);
      missed := 0;
      for n := 0 to ticks
        invariant RowsOk(repository.rows) && missed <= n
        invariant !HasPending(repository.rows) || PendingWeight(repository.rows) <= start - (n - missed) as real
      {
        var fetched, drained := DrainOnce();
        if !fetched { missed := missed + 1; }
      }
      PendingHasWeight(repository.rows);
    }
  }
}

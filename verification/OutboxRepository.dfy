/// The terminal's database as the repositories change it, and the outbox repository.
/// Each method commits one `db.write()` block and is proved equal to one step's effect.
module OutboxRepository {
  import opened Wrappers
  import opened SyncStore
  import opened Queue

  class Database {
    var outbox: seq<OutboxRow>
    var failures: seq<Failure>
    var ledger: seq<LedgerRow>
    var records: set<Key>
    var clientSeq: nat
    var cached: map<Product, CachedLevel>

    function T(): Tables
      reads this
    {
      Tables(outbox, failures, ledger, records, clientSeq, cached)
    }

    constructor ()
      ensures T() == NEW_TERMINAL
    {
      outbox, failures, ledger, records, clientSeq, cached := [], [], [], {}, 0, map[];
    }
  }

  function Oldest(outbox: seq<OutboxRow>, limit: nat): (ids: seq<nat>)
  {
    if |Pending(outbox)| <= limit then Pending(outbox) else Pending(outbox)[..limit]
  }

  /** The failures a retry reads, in the order they were written. */
  function Picked(failures: seq<Failure>, which: Option<seq<nat>>, upTo: nat): (picks: seq<nat>)
    requires upTo <= |failures|
    ensures forall f :: f in picks <==> 0 <= f < upTo && Chosen(failures, which, f)
    ensures forall k :: 0 <= k < |picks| ==> picks[k] < upTo && Chosen(failures, which, picks[k])
    ensures forall j, k :: 0 <= j < k < |picks| ==> picks[j] < picks[k]
  {
    if upTo == 0 then []
    else
      var rest := Picked(failures, which, upTo - 1);
      if Chosen(failures, which, upTo - 1) then rest + [upTo - 1] else rest
  }

  // ---- Retrying one failure at a time ----

  predicate InRange(t: Tables, picks: seq<nat>) {
    forall k :: 0 <= k < |picks| ==> picks[k] < |t.failures|
  }

  function RowsOf(failures: seq<Failure>, picks: seq<nat>): set<nat> {
    set f | f in picks && f < |failures| && failures[f].outboxId.Some? :: failures[f].outboxId.value
  }

  /** How many of these failures have an outbox row behind them. */
  function MovedBy(failures: seq<Failure>, picks: seq<nat>): nat
    requires forall k :: 0 <= k < |picks| ==> picks[k] < |failures|
  {
    if picks == [] then 0
    else
      var n := |picks| - 1;
      MovedBy(failures, picks[..n]) + if failures[picks[n]].outboxId.Some? then 1 else 0
  }

  function RetryOne(t: Tables, f: nat): Tables
    requires f < |t.failures|
  {
    var outbox :=
      match t.failures[f].outboxId
      case Some(i) => if i < |t.outbox| then t.outbox[i := t.outbox[i].(synced := false, attempts := 0)] else t.outbox
      case None => t.outbox;
    t.(outbox := outbox, failures := t.failures[f := t.failures[f].(acknowledged := true)])
  }

  function RetryAll(t: Tables, picks: seq<nat>): (r: Tables)
    requires InRange(t, picks)
    ensures |r.failures| == |t.failures| && |r.outbox| == |t.outbox|
    decreases |picks|
  {
    if picks == [] then t else RetryOne(RetryAll(t, picks[..|picks| - 1]), picks[|picks| - 1])
  }

  lemma {:induction false} RetryAllAcknowledges(t: Tables, picks: seq<nat>)
    requires InRange(t, picks)
    ensures forall f | 0 <= f < |t.failures| ::
      RetryAll(t, picks).failures[f] == t.failures[f].(acknowledged := t.failures[f].acknowledged || f in picks)
    decreases |picks|
  {
    if picks != [] {
      var n := |picks| - 1;
      RetryAllAcknowledges(t, picks[..n]);
      assert picks == picks[..n] + [picks[n]];
    }
  }

  lemma RequeueOne(outbox: seq<OutboxRow>, rows: set<nat>, i: nat)
    requires i < |outbox|
    ensures Requeue(outbox, rows)[i := outbox[i].(synced := false, attempts := 0)] == Requeue(outbox, rows + {i})
  {
  }

  lemma {:induction false} RetryAllRequeues(t: Tables, picks: seq<nat>)
    requires InRange(t, picks)
    ensures RetryAll(t, picks) == t.(outbox := Requeue(t.outbox, RowsOf(t.failures, picks)),
                                     failures := RetryAll(t, picks).failures)
    decreases |picks|
  {
    if picks == [] {
      assert Requeue(t.outbox, {}) == t.outbox;
    } else {
      var n := |picks| - 1;
      RetryAllRequeues(t, picks[..n]);
      RetryAllAcknowledges(t, picks[..n]);
      assert picks == picks[..n] + [picks[n]];
      var before, after := RowsOf(t.failures, picks[..n]), RowsOf(t.failures, picks);
      match t.failures[picks[n]].outboxId {
        case None => assert after == before;
        case Some(i) =>
          assert after == before + {i};
          if i < |t.outbox| {
            RequeueOne(t.outbox, before, i);
          } else {
            assert Requeue(t.outbox, before + {i}) == Requeue(t.outbox, before);
          }
      }
    }
  }

  lemma PickedRetries(t: Tables, which: Option<seq<nat>>)
    ensures RetryAll(t, Picked(t.failures, which, |t.failures|))
         == t.(outbox := Requeue(t.outbox, ChosenRows(t.failures, which)), failures := Acknowledge(t.failures, which))
  {
    var picks := Picked(t.failures, which, |t.failures|);
    RetryAllRequeues(t, picks);
    RetryAllAcknowledges(t, picks);
    assert RowsOf(t.failures, picks) == ChosenRows(t.failures, which);
    assert RetryAll(t, picks).failures == Acknowledge(t.failures, which);
  }

  lemma NextPick(t: Tables, picks: seq<nat>, k: nat)
    requires InRange(t, picks) && k < |picks|
    ensures RetryAll(t, picks[..k + 1]) == RetryOne(RetryAll(t, picks[..k]), picks[k])
    ensures MovedBy(t.failures, picks[..k + 1])
         == MovedBy(t.failures, picks[..k]) + if t.failures[picks[k]].outboxId.Some? then 1 else 0
    ensures RetryAll(t, picks[..k]).failures[picks[k]].outboxId == t.failures[picks[k]].outboxId
  {
    assert picks[..k + 1][..k] == picks[..k];
    RetryAllAcknowledges(t, picks[..k]);
  }

  class OutboxRepository {
    const db: Database

    constructor (db: Database)
      ensures this.db == db
    {
      this.db := db;
    }

    method NextPending(limit: nat) returns (ids: seq<nat>)
      ensures ids <= Pending(db.outbox) && |ids| <= limit
      ensures ids == [] ==> limit == 0 || Pending(db.outbox) == []
      ensures |ids| < limit ==> ids == Pending(db.outbox)
    {
      ids := Oldest(db.outbox, limit);
    }

    /** Acknowledges a batch: just those rows leave the queue, and nothing else about any row moves. */
    method MarkSynced(ids: seq<nat>)
      modifies db
      ensures db.T() == old(db.T()).(outbox := Mark(old(db.outbox), ids))
      ensures forall i :: i in Pending(db.outbox) <==> i in Pending(old(db.outbox)) && i !in ids
      ensures SameRows(old(db.outbox), db.outbox) && forall i :: 0 <= i < |db.outbox| ==> db.outbox[i].attempts == old(db.outbox)[i].attempts
    {
      if ids == [] {
        assert Mark(db.outbox, ids) == db.outbox;
        return;
      }
      db.outbox := Mark(db.outbox, ids);
    }

    /** A transient failure: the queue is what it was, in the same order, and those rows have been tried once more. */
    method RecordAttempt(ids: seq<nat>)
      modifies db
      ensures db.T() == old(db.T()).(outbox := Bump(old(db.outbox), ids))
      ensures Pending(db.outbox) == Pending(old(db.outbox)) && SameRows(old(db.outbox), db.outbox)
      ensures forall i :: 0 <= i < |db.outbox| ==>
        db.outbox[i].attempts - old(db.outbox)[i].attempts == if i in ids then 1 else 0
    {
      PendingAfterBump(db.outbox, ids);
      if ids == [] {
        assert Bump(db.outbox, ids) == db.outbox;
        return;
      }
      db.outbox := Bump(db.outbox, ids);
    }

    /** Sets rows aside: one failure each, and marked handled in the same transaction. */
    method Quarantine(ids: seq<nat>)
      requires AllRows(db.T(), ids)
      modifies db
      ensures db.T() == old(db.T()).(outbox := Mark(old(db.outbox), ids),
                                     failures := old(db.failures) + FailuresFor(ids))
    {
      ghost var was := db.T();
      for k := 0 to |ids|
        invariant db.T() == was.(outbox := db.outbox, failures := db.failures)
        invariant db.outbox == Mark(was.outbox, ids[..k])
        invariant db.failures == was.failures + FailuresFor(ids[..k])
      {
        db.failures := db.failures + [Failure(Some(ids[k]), false)];
        db.outbox := db.outbox[ids[k] := db.outbox[ids[k]].(synced := true)];
        assert ids[..k + 1] == ids[..k] + [ids[k]];
      }
      assert ids[..|ids|] == ids;
    }

    /** Sends the rows behind the chosen failures round again, counting them. */
    method RetryFailures(which: Option<seq<nat>>) returns (requeued: nat)
      modifies db
      ensures db.T() == old(db.T()).(outbox := Requeue(old(db.outbox), ChosenRows(old(db.failures), which)),
                                     failures := Acknowledge(old(db.failures), which))
      ensures requeued == MovedBy(old(db.failures), Picked(old(db.failures), which, |old(db.failures)|))
    {
      ghost var was := db.T();
      var picks := Picked(db.failures, which, |db.failures|);
      assert picks[..0] == [] && RetryAll(was, []) == was && MovedBy(was.failures, []) == 0;
      hide RetryAll, MovedBy, RetryOne, Requeue, Acknowledge, ChosenRows, Picked;
      requeued := 0;
      for k := 0 to |picks|
        invariant requeued == MovedBy(was.failures, picks[..k])
        invariant db.T() == RetryAll(was, picks[..k])
      {
        NextPick(was, picks, k);
        var moved := RetryOneFailure(picks[k]);
        requeued := requeued + if moved then 1 else 0;
      }
      assert picks[..|picks|] == picks;
      PickedRetries(was, which);
    }

    /** One turn of the retry loop: reset the row behind the failure, then acknowledge it. */
    method RetryOneFailure(f: nat) returns (moved: bool)
      requires f < |db.failures|
      modifies db
      ensures db.T() == RetryOne(old(db.T()), f)
      ensures moved == old(db.failures)[f].outboxId.Some?
    {
      moved := db.failures[f].outboxId.Some?;
      if moved {
        var i := db.failures[f].outboxId.value;
        if i < |db.outbox| {
          db.outbox := db.outbox[i := db.outbox[i].(synced := false, attempts := 0)];
        }
      }
      db.failures := db.failures[f := db.failures[f].(acknowledged := true)];
    }
  }
}

/// Draining the outbox: batches, isolation of a refused batch, quarantine, and the split
/// between failures worth retrying and failures that never will be.
module Pusher {
  import opened Wrappers
  import opened SyncStore
  import opened OutboxRepository
  import opened Queue

  type ErrorStatus = n: nat | 400 <= n witness 500

  /** What the network does with one request. */
  datatype Weather =
    | Served                                        // the server judges the batch and its answer arrives
    | SignedOut                                     // no token: nothing is sent
    | Dropped(landed: bool)                         // no answer; the server may have committed
    | Answered(status: ErrorStatus, tooOld: bool)   // an error answer, and nothing was applied

  datatype Verdict = Accepted | Transient | AuthRefused | SchemaTooOld | Permanent

  datatype Renewal = Refreshed | Dead | Unavailable

  /** Sorts the failures that would recur from those that may pass. */
  function RaiseFor(status: ErrorStatus, tooOld: bool): Verdict {
    if status >= 500 || status == 429 then Transient
    else if tooOld then SchemaTooOld
    else if status == 401 || status == 403 then AuthRefused
    else Permanent
  }

  /** The server, with the network in front of it.  Once `weather` runs out it stays fair. */
  class RemoteCloud {
    var state: Cloud
    var weather: seq<Weather>
    const accepts: Accepts

    constructor (state: Cloud, weather: seq<Weather>, accepts: Accepts)
      ensures this.state == state && this.weather == weather && this.accepts == accepts
    {
      this.state, this.weather, this.accepts := state, weather, accepts;
    }

    method Post(batch: seq<Envelope>) returns (verdict: Verdict)
      modifies this
      ensures weather == if old(weather) == [] then [] else old(weather)[1..]
      ensures state == old(state) || TryAll(accepts, old(state), batch) == Some(state)
      ensures verdict == Accepted ==> TryAll(accepts, old(state), batch) == Some(state)
      ensures verdict != Accepted && verdict != Transient ==> state == old(state)
      ensures old(weather) == [] || old(weather)[0] == Served ==>
        verdict == if TryAll(accepts, old(state), batch).Some? then Accepted else Permanent
    {
      var now := if weather == [] then Served else weather[0];
      weather := if weather == [] then [] else weather[1..];
      match now {
        case Served =>
          match TryAll(accepts, state, batch) {
            case Some(c) => state, verdict := c, Accepted;
            case None => verdict := Permanent;
          }
        case SignedOut => verdict := Transient;
        case Dropped(landed) =>
          verdict := Transient;
          if landed {
            match TryAll(accepts, state, batch) {
              case Some(c) => state := c;
              case None =>
            }
          }
        case Answered(status, tooOld) => verdict := RaiseFor(status, tooOld);
      }
    }
  }

  datatype DrainResult = DrainResult(pushed: nat, quarantined: nat, stoppedEarly: bool)

  // ---- What one stretch of a drain did ----

  /** Rows handled: each left the queue, and `failed` of them are new in the failures list. */
  ghost predicate Handled(a: World, b: World, rows: nat, failed: nat) {
    && SameDocuments(a.db, b.db)
    && |Pending(a.db.outbox)| == |Pending(b.db.outbox)| + rows
    && a.db.failures <= b.db.failures
    && |b.db.failures| == |a.db.failures| + failed
  }

  function NewFailures(a: World, b: World): set<nat>
    requires a.db.failures <= b.db.failures
  {
    set f | |a.db.failures| <= f < |b.db.failures| && b.db.failures[f].outboxId.Some? :: b.db.failures[f].outboxId.value
  }

  function AloneFrom(accepts: Accepts, identity: bool, w: World): Outcome {
    Alone(accepts, w.db, identity, w.cloud, Pending(w.db.outbox))
  }

  /** What sending alone would still come to, with what has been set aside, has not changed. */
  ghost predicate OnCourse(accepts: Accepts, identity: bool, a: World, b: World)
    requires a.db.failures <= b.db.failures
  {
    var before, after := AloneFrom(accepts, identity, a), AloneFrom(accepts, identity, b);
    before.cloud == after.cloud && before.refused == NewFailures(a, b) + after.refused
  }

  lemma OnCourseThrough(accepts: Accepts, identity: bool, a: World, b: World, c: World)
    requires a.db.failures <= b.db.failures && b.db.failures <= c.db.failures
    requires OnCourse(accepts, identity, a, b) && OnCourse(accepts, identity, b, c)
    ensures OnCourse(accepts, identity, a, c)
  {
    assert NewFailures(a, c) == NewFailures(a, b) + NewFailures(b, c) by {
      forall i | i in NewFailures(a, b) ensures i in NewFailures(a, c) {
        var f :| |a.db.failures| <= f < |b.db.failures| && b.db.failures[f].outboxId == Some(i);
        assert c.db.failures[f] == b.db.failures[f];
      }
      forall i | i in NewFailures(a, c) ensures i in NewFailures(a, b) + NewFailures(b, c) {
        var f :| |a.db.failures| <= f < |c.db.failures| && c.db.failures[f].outboxId == Some(i);
        if f < |b.db.failures| { assert c.db.failures[f] == b.db.failures[f]; }
      }
    }
  }

  lemma NewFailuresAre(a: World, b: World, ids: seq<nat>)
    requires b.db.failures == a.db.failures + FailuresFor(ids)
    ensures NewFailures(a, b) == AsSet(ids)
  {
    forall i | i in ids ensures i in NewFailures(a, b) {
      var k :| 0 <= k < |ids| && ids[k] == i;
      assert b.db.failures[|a.db.failures| + k] == Failure(Some(i), false);
    }
  }

  /** The oldest rows acknowledged after the server took them whole. */
  lemma Acknowledged(accepts: Accepts, identity: bool, w: World, sent: Cloud, ids: seq<nat>)
    requires ids <= Pending(w.db.outbox) && Buildable(w.db, identity, ids)
    requires TryAll(accepts, w.cloud, EnvelopesOf(w.db, ids)) == Some(sent)
    ensures var w' := World(w.db.(outbox := Mark(w.db.outbox, ids)), sent);
      && Handled(w, w', |ids|, 0) && OnCourse(accepts, identity, w, w')
      && Pending(w'.db.outbox) == Pending(w.db.outbox)[|ids|..]
  {
    hide Alone, TryAll, Build, Buildable, Pending;
    var w' := World(w.db.(outbox := Mark(w.db.outbox, ids)), sent);
    PendingAfterPrefix(w.db.outbox, ids);
    var p := Pending(w.db.outbox);
    assert p == ids + p[|ids|..];
    assert AllRows(w.db, p);
    WholeBatch(accepts, w.db, identity, w.cloud, ids, p[|ids|..]);
    AloneStable(accepts, w.db, w'.db, identity, sent, p[|ids|..]);
  }

  function WithFailures(w: World, ids: seq<nat>): World {
    World(w.db.(outbox := Mark(w.db.outbox, ids), failures := w.db.failures + FailuresFor(ids)), w.cloud)
  }

  lemma Quarantined(w: World, ids: seq<nat>)
    requires ids <= Pending(w.db.outbox)
    ensures Handled(w, WithFailures(w, ids), |ids|, |ids|)
    ensures Pending(WithFailures(w, ids).db.outbox) == Pending(w.db.outbox)[|ids|..]
  {
    PendingAfterPrefix(w.db.outbox, ids);
  }

  /** One refused row set aside is what sending it alone comes to. */
  lemma QuarantinedAlone(accepts: Accepts, identity: bool, w: World, i: nat)
    requires [i] <= Pending(w.db.outbox) && Buildable(w.db, identity, [i])
    requires TryAll(accepts, w.cloud, EnvelopesOf(w.db, [i])).None?
    ensures OnCourse(accepts, identity, w, WithFailures(w, [i]))
  {
    hide Build, Buildable, TryAll, Alone, Pending, Mark;
    var w' := WithFailures(w, [i]);
    var p := Pending(w.db.outbox);
    assert p == [i] + p[1..];
    assert AllRows(w.db, p) && AllRows(w.db, p[1..]) && AllRows(w.db, [i]);
    PendingAfterPrefix(w.db.outbox, [i]);
    NewFailuresAre(w, w', [i]);
    assert AsSet([i]) == {i};
    RefusedFirst(accepts, w.db, identity, w.cloud, i, p[1..]);
    SameAfterFailures(w, [i]);
    AloneStable(accepts, w.db, w'.db, identity, w.cloud, p[1..]);
  }

  lemma SameAfterFailures(w: World, gone: seq<nat>)
    ensures SameDocuments(w.db, WithFailures(w, gone).db)
    ensures w.db.failures <= WithFailures(w, gone).db.failures
  {
  }

  lemma PrefixRows(db: Tables, ids: seq<nat>)
    requires ids <= Pending(db.outbox)
    ensures AllRows(db, ids) && Ascending(ids) && ids == Pending(db.outbox)[..|ids|]
    ensures AllRows(db, ids + Pending(db.outbox)[|ids|..])
  {
    var p := Pending(db.outbox);
    assert p == ids + p[|ids|..];
    forall k | 0 <= k < |ids| ensures ids[k] == p[k] {}
  }

  lemma QueueOfBuilt(identity: bool, db: Tables, batch: seq<nat>)
    requires batch <= Pending(db.outbox) && AllRows(db, batch)
    ensures Pending(Mark(db.outbox, Unbuilt(db, identity, batch)))
         == Built(db, identity, batch) + Pending(db.outbox)[|batch|..]
  {
    PrefixRows(db, batch);
    BuiltAscending(db, identity, batch);
    PendingAfterSplit(db.outbox, |batch|, Unbuilt(db, identity, batch), Built(db, identity, batch));
  }

  lemma StillBuildable(identity: bool, w: World, ids: seq<nat>, gone: seq<nat>)
    requires Buildable(w.db, identity, ids)
    ensures SameDocuments(w.db, WithFailures(w, gone).db)
    ensures Buildable(WithFailures(w, gone).db, identity, ids)
  {
    var db' := WithFailures(w, gone).db;
    forall k | 0 <= k < |ids| ensures ids[k] < |db'.outbox| && Build(db', identity, ids[k]).Some? {
      assert Build(w.db, identity, ids[k]).Some?;
    }
  }

  /** Setting aside what cannot be built, ahead of sending the rest of the batch. */
  lemma UnbuildableGone(identity: bool, w: World, batch: seq<nat>)
    requires batch <= Pending(w.db.outbox) && AllRows(w.db, batch)
    ensures var w' := WithFailures(w, Unbuilt(w.db, identity, batch));
      var unbuilt := |Unbuilt(w.db, identity, batch)|;
      && Handled(w, w', unbuilt, unbuilt)
      && Built(w.db, identity, batch) <= Pending(w'.db.outbox)
  {
    QueueOfBuilt(identity, w.db, batch);
    StillBuildable(identity, w, [], Unbuilt(w.db, identity, batch));
  }

  lemma UnbuildableOnCourse(accepts: Accepts, identity: bool, w: World, batch: seq<nat>)
    requires batch <= Pending(w.db.outbox) && AllRows(w.db, batch)
    ensures OnCourse(accepts, identity, w, WithFailures(w, Unbuilt(w.db, identity, batch)))
  {
    hide Alone, Built, Unbuilt, Pending, Build, Buildable, Mark, FailuresFor;
    SameAfterFailures(w, Unbuilt(w.db, identity, batch));
    var w' := WithFailures(w, Unbuilt(w.db, identity, batch));
    var rest := Pending(w.db.outbox)[|batch|..];
    PrefixRows(w.db, batch);
    assert Pending(w.db.outbox) == batch + rest;
    QueueOfBuilt(identity, w.db, batch);
    UnbuiltFirst(accepts, w.db, identity, w.cloud, batch, rest);
    NewFailuresAre(w, w', Unbuilt(w.db, identity, batch));
    AloneStable(accepts, w.db, w'.db, identity, w.cloud, Built(w.db, identity, batch) + rest);
  }

  // ---- A stretch of a drain ----

  /**
    * From `a` to `b` in `steps`, oldest rows first; `rows` rows left the queue, `failed` of them
    * into the failures list; and on a fair network, still on course.
    */
  ghost predicate Advance(accepts: Accepts, identity: bool, fair: bool,
                          a: World, steps: seq<Step>, b: World, rows: nat, failed: nat)
  {
    && OrderlyPath(a, steps, b)
    && Handled(a, b, rows, failed)
    && (fair ==> OnCourse(accepts, identity, a, b))
  }

  lemma AdvanceNothing(accepts: Accepts, identity: bool, fair: bool, w: World)
    ensures Advance(accepts, identity, fair, w, [], w, 0, 0)
  {
  }

  lemma AdvanceJoin(accepts: Accepts, identity: bool, fair: bool, a: World, s: seq<Step>, b: World, t: seq<Step>, c: World,
                    rows: nat, failed: nat, fairThen: bool, moreRows: nat, moreFailed: nat)
    requires Advance(accepts, identity, fair, a, s, b, rows, failed)
    requires Advance(accepts, identity, fairThen, b, t, c, moreRows, moreFailed)
    requires fair ==> fairThen
    ensures Advance(accepts, identity, fair, a, s + t, c, rows + moreRows, failed + moreFailed)
  {
    hide OrderlyPath, OnCourse;
    OrderlyJoin(a, s, b, t, c);
    if fair { OnCourseThrough(accepts, identity, a, b, c); }
  }

  lemma UnbuildableAdvances(accepts: Accepts, identity: bool, w: World, batch: seq<nat>)
    requires batch <= Pending(w.db.outbox) && AllRows(w.db, batch)
    ensures
      var failed := Unbuilt(w.db, identity, batch);
      Advance(accepts, identity, true, w, [Quarantine(failed)], WithFailures(w, failed), |failed|, |failed|)
  {
    hide OrderlyPath, OnCourse, Pending, Built, Unbuilt;
    UnbuildableGone(identity, w, batch);
    UnbuildableOnCourse(accepts, identity, w, batch);
    OrderlyStep(w, Quarantine(Unbuilt(w.db, identity, batch)));
  }

  lemma NothingSetAside(w: World)
    ensures WithFailures(w, []) == w
  {
    assert FailuresFor([]) == [];
    assert Mark(w.db.outbox, []) == w.db.outbox;
  }

  lemma AsideAdvances(accepts: Accepts, identity: bool, w: World, ids: seq<nat>)
    requires ids <= Pending(w.db.outbox) && Buildable(w.db, identity, ids)
    ensures AllRows(w.db, ids)
    ensures Advance(accepts, identity, false, w, [Quarantine(ids)], WithFailures(w, ids), |ids|, |ids|)
    ensures |ids| == 1 && TryAll(accepts, w.cloud, EnvelopesOf(w.db, ids)).None? ==>
      Advance(accepts, identity, true, w, [Quarantine(ids)], WithFailures(w, ids), 1, 1)
  {
    hide OrderlyPath, OnCourse, TryAll, Pending;
    PrefixRows(w.db, ids);
    Quarantined(w, ids);
    OrderlyStep(w, Quarantine(ids));
    if |ids| == 1 && TryAll(accepts, w.cloud, EnvelopesOf(w.db, ids)).None? {
      assert ids == [ids[0]];
      QuarantinedAlone(accepts, identity, w, ids[0]);
    }
  }

  lemma AdvanceRows(accepts: Accepts, identity: bool, fair: bool, a: World, s: seq<Step>, b: World, rows: nat, failed: nat)
    requires Advance(accepts, identity, fair, a, s, b, rows, failed)
    ensures SameDocuments(a.db, b.db) && a.db.failures <= b.db.failures
    ensures |Pending(a.db.outbox)| == |Pending(b.db.outbox)| + rows
  {
  }

  lemma AdvanceFacts(accepts: Accepts, identity: bool, fair: bool, a: World, s: seq<Step>, b: World, rows: nat, failed: nat)
    requires Advance(accepts, identity, fair, a, s, b, rows, failed)
    ensures OrderlyPath(a, s, b) && Handled(a, b, rows, failed)
  {
  }

  lemma AdvanceWeaker(accepts: Accepts, identity: bool, fair: bool, a: World, s: seq<Step>, b: World, rows: nat, failed: nat)
    requires Advance(accepts, identity, true, a, s, b, rows, failed)
    ensures Advance(accepts, identity, fair, a, s, b, rows, failed)
  {
  }

  /** On course with nothing left to send means it has come to the same thing. */
  lemma AdvanceDone(accepts: Accepts, identity: bool, a: World, s: seq<Step>, b: World, rows: nat, failed: nat)
    requires Advance(accepts, identity, true, a, s, b, rows, failed)
    requires Pending(b.db.outbox) == []
    ensures a.db.failures <= b.db.failures
    ensures AloneFrom(accepts, identity, a) == Outcome(b.cloud, NewFailures(a, b))
  {
  }

  lemma BuildableLater(accepts: Accepts, identity: bool, fair: bool, a: World, s: seq<Step>, b: World, rows: nat, failed: nat,
                       ids: seq<nat>, k: nat)
    requires Advance(accepts, identity, fair, a, s, b, rows, failed)
    requires Buildable(a.db, identity, ids) && k < |ids|
    ensures Buildable(b.db, identity, [ids[k]])
  {
    assert Build(a.db, identity, ids[k]).Some?;
  }

  lemma NextOf(ids: seq<nat>, k: nat, pending: seq<nat>)
    requires k < |ids| && ids[k..] <= pending
    ensures [ids[k]] <= pending && ids[k + 1..] <= pending[1..]
  {
    assert pending[0] == ids[k..][0] == ids[k];
    assert ids[k..][1..] == ids[k + 1..];
  }

  class Pusher {
    const outbox: OutboxRepository
    const cloud: RemoteCloud
    /** Whether this till has a cloud identity to put on what it sends. */
    const identity: bool
    const batchSize: nat
    const canRenew: bool

    constructor (outbox: OutboxRepository, cloud: RemoteCloud, identity: bool, batchSize: nat, canRenew: bool)
      ensures this.outbox == outbox && this.cloud == cloud && this.identity == identity
      ensures this.batchSize == batchSize && this.canRenew == canRenew
    {
      this.outbox, this.cloud, this.identity := outbox, cloud, identity;
      this.batchSize, this.canRenew := batchSize, canRenew;
    }

    function W(): World
      reads this, outbox, outbox.db, cloud
    {
      World(outbox.db.T(), cloud.state)
    }

    ghost predicate Fair()
      reads this, cloud
    {
      cloud.weather == []
    }

    ghost predicate Advanced(fair: bool, from: World, steps: seq<Step>, rows: nat, failed: nat)
      reads this, outbox, outbox.db, cloud
    {
      Advance(cloud.accepts, identity, fair, from, steps, W(), rows, failed)
    }

    /** Splits a batch, and sets aside at once what can never be built. */
    method SetAsideUnbuildable(batch: seq<nat>) returns (built: seq<nat>, unbuildable: nat, ghost steps: seq<Step>)
      requires batch <= Pending(outbox.db.outbox)
      modifies outbox.db
      ensures built <= Pending(outbox.db.outbox)
      ensures Buildable(outbox.db.T(), identity, built)
      ensures unbuildable + |built| == |batch|
      ensures Advanced(true, old(W()), steps, unbuildable, unbuildable)
    {
      hide Advance, Pending;
      ghost var w := W();
      PrefixRows(w.db, batch);
      UnbuildableGone(identity, w, batch);
      UnbuildableAdvances(cloud.accepts, identity, w, batch);
      StillBuildable(identity, w, Built(w.db, identity, batch), Unbuilt(w.db, identity, batch));
      built := Built(outbox.db.T(), identity, batch);
      var failed := Unbuilt(outbox.db.T(), identity, batch);
      unbuildable := |failed|;
      if failed != [] {
        steps := [Quarantine(failed)];
        outbox.Quarantine(failed);
      } else {
        steps := [];
        NothingSetAside(w);
        AdvanceNothing(cloud.accepts, identity, true, w);
      }
    }

    /** Sends some of the oldest rows; only an accepted send or a lost answer changes the cloud. */
    method Send(ids: seq<nat>) returns (verdict: Verdict, ghost steps: seq<Step>)
      requires ids <= Pending(outbox.db.outbox)
      modifies cloud
      ensures OrderlyPath(old(W()), steps, W())
      ensures verdict == Accepted ==>
        TryAll(cloud.accepts, old(cloud.state), EnvelopesOf(outbox.db.T(), ids)) == Some(cloud.state)
      ensures verdict != Accepted && verdict != Transient ==> cloud.state == old(cloud.state)
      ensures old(Fair()) ==> Fair() && (verdict == Accepted || verdict == Permanent)
      ensures old(Fair()) && verdict == Permanent ==>
        TryAll(cloud.accepts, old(cloud.state), EnvelopesOf(outbox.db.T(), ids)).None?
      ensures verdict == Accepted ==> Enabled(W(), MarkSynced(ids))
    {
      ghost var w := W();
      assert AllRows(w.db, ids) by {
        forall k | 0 <= k < |ids| ensures ids[k] < |w.db.outbox| { assert ids[k] == Pending(w.db.outbox)[k]; }
      }
      var envelopes := EnvelopesOf(outbox.db.T(), ids);
      verdict := cloud.Post(envelopes);
      if TryAll(cloud.accepts, w.cloud, envelopes) == Some(cloud.state) {
        AcceptedAdmits(cloud.accepts, w.cloud, envelopes);
        AdmittedHeld(w.cloud, envelopes);
        steps := [Land(ids)];
        assert Enabled(w, Land(ids)) && Orderly(w, Land(ids)) && W() == Apply(w, Land(ids));
        assert OrderlyPath(Apply(w, Land(ids)), [], W());
        forall k | 0 <= k < |ids| ensures w.db.outbox[ids[k]].Key() in cloud.state.held {
          assert envelopes[k] in envelopes;
        }
      } else {
        steps := [];
      }
    }

    /** Sends some of the oldest rows and, once the server has confirmed, acknowledges them. */
    method SendAndMark(ids: seq<nat>) returns (verdict: Verdict, ghost steps: seq<Step>)
      requires ids <= Pending(outbox.db.outbox) && Buildable(outbox.db.T(), identity, ids)
      modifies outbox.db, cloud
      ensures old(Fair()) ==> Fair() && (verdict == Accepted || verdict == Permanent)
      ensures verdict == Accepted ==>
        && Advanced(true, old(W()), steps, |ids|, 0)
        && Pending(outbox.db.outbox) == old(Pending(outbox.db.outbox))[|ids|..]
      ensures verdict != Accepted ==>
        && outbox.db.T() == old(outbox.db.T())
        && Advanced(old(Fair()), old(W()), steps, 0, 0)
      ensures old(Fair()) && verdict == Permanent ==>
        && W() == old(W())
        && TryAll(cloud.accepts, old(cloud.state), EnvelopesOf(old(outbox.db.T()), ids)).None?
    {
      ghost var w := W();
      verdict, steps := Send(ids);
      if verdict == Accepted {
        Acknowledged(cloud.accepts, identity, w, cloud.state, ids);
        OrderlyStep(W(), MarkSynced(ids));
        OrderlyJoin(w, steps, W(), [MarkSynced(ids)], Apply(W(), MarkSynced(ids)));
        steps := steps + [MarkSynced(ids)];
        outbox.MarkSynced(ids);
      }
    }

    /** After a refusal that would recur: the rows go to the failures. */
    method SetAside(ids: seq<nat>) returns (ghost steps: seq<Step>)
      requires ids <= Pending(outbox.db.outbox) && Buildable(outbox.db.T(), identity, ids)
      modifies outbox.db
      ensures Advanced(false, old(W()), steps, |ids|, |ids|)
      ensures |ids| == 1 && TryAll(cloud.accepts, cloud.state, EnvelopesOf(old(outbox.db.T()), ids)).None? ==>
        Advanced(true, old(W()), steps, 1, 1)
      ensures Pending(outbox.db.outbox) == old(Pending(outbox.db.outbox))[|ids|..]
    {
      hide Advance, Buildable, TryAll, Pending;
      AsideAdvances(cloud.accepts, identity, W(), ids);
      Quarantined(W(), ids);
      steps := [Quarantine(ids)];
      outbox.Quarantine(ids);
    }

    /** A failure that will pass: the rows stay queued and the attempt is counted. */
    method Defer(ids: seq<nat>) returns (ghost steps: seq<Step>)
      requires AllRows(outbox.db.T(), ids)
      modifies outbox.db
      ensures Advanced(false, old(W()), steps, 0, 0)
    {
      steps := [RecordAttempt(ids)];
      OrderlyStep(W(), RecordAttempt(ids));
      outbox.RecordAttempt(ids);
    }

    /** One row of a refused batch, resent alone: marked, set aside, or left for the next drain. */
    method ResendOne(id: nat) returns (verdict: Verdict, ghost steps: seq<Step>)
      requires [id] <= Pending(outbox.db.outbox) && Buildable(outbox.db.T(), identity, [id])
      modifies outbox.db, cloud
      ensures old(Fair()) ==> Fair() && (verdict == Accepted || verdict == Permanent)
      ensures Advanced(old(Fair()), old(W()), steps,
                       if verdict == Transient || verdict == AuthRefused then 0 else 1,
                       if verdict == Permanent || verdict == SchemaTooOld then 1 else 0)
      ensures verdict != Transient && verdict != AuthRefused ==>
        Pending(outbox.db.outbox) == old(Pending(outbox.db.outbox))[1..]
    {
      hide Advance, Buildable, TryAll, Pending;
      ghost var w := W();
      verdict, steps := SendAndMark([id]);
      if verdict == Permanent || verdict == SchemaTooOld {
        ghost var mid := W();
        ghost var aside := SetAside([id]);
        AdvanceJoin(cloud.accepts, identity, old(Fair()), w, steps, mid, aside, W(), 0, 0, old(Fair()), 1, 1);
        steps := steps + aside;
      } else if verdict == Accepted {
        AdvanceWeaker(cloud.accepts, identity, old(Fair()), w, steps, W(), 1, 0);
      }
    }

    /** The next row of a refused batch, alone, on the way from `from`. */
    method ResendNext(ids: seq<nat>, k: nat, ghost bad: nat, ghost fair: bool, ghost from: World, ghost before: seq<Step>)
      returns (verdict: Verdict, ghost steps: seq<Step>)
      requires k < |ids| && ids[k..] <= Pending(outbox.db.outbox) && Buildable(from.db, identity, ids)
      requires Advanced(fair, from, before, k, bad) && (fair ==> Fair())
      modifies outbox.db, cloud
      ensures Advanced(fair, from, steps,
                       if verdict == Transient || verdict == AuthRefused then k else k + 1,
                       if verdict == Permanent || verdict == SchemaTooOld then bad + 1 else bad)
      ensures verdict != Transient && verdict != AuthRefused ==> ids[k + 1..] <= Pending(outbox.db.outbox)
      ensures fair ==> Fair() && (verdict == Accepted || verdict == Permanent)
    {
      hide Advance, Buildable, Pending;
      ghost var mid, fairThen := W(), Fair();
      BuildableLater(cloud.accepts, identity, fair, from, before, mid, k, bad, ids, k);
      NextOf(ids, k, Pending(mid.db.outbox));
      ghost var more;
      verdict, more := ResendOne(ids[k]);
      AdvanceJoin(cloud.accepts, identity, fair, from, before, mid, more, W(), k, bad, fairThen,
                  if verdict == Transient || verdict == AuthRefused then 0 else 1,
                  if verdict == Permanent || verdict == SchemaTooOld then 1 else 0);
      steps := before + more;
    }

    /** Sends the rows of a refused batch singly, and deals with each by its own answer. */
    method Isolate(ids: seq<nat>) returns (sent: nat, bad: nat, stopped: bool, ghost steps: seq<Step>)
      requires ids <= Pending(outbox.db.outbox) && Buildable(outbox.db.T(), identity, ids)
      modifies outbox.db, cloud
      ensures Advanced(old(Fair()), old(W()), steps, sent + bad, bad)
      ensures if stopped then sent + bad < |ids| else sent + bad == |ids|
      ensures old(Fair()) ==> Fair() && !stopped
    {
      hide Advance, Buildable, Pending;
      ghost var w, fair := W(), Fair();
      sent, bad, stopped, steps := 0, 0, false, [];
      AdvanceNothing(cloud.accepts, identity, fair, w);
      for k := 0 to |ids|
        invariant sent + bad == k
        invariant Advanced(fair, w, steps, k, bad)
        invariant ids[k..] <= Pending(outbox.db.outbox)
        invariant fair ==> Fair()
      {
        var verdict;
        verdict, steps := ResendNext(ids, k, bad, fair, w, steps);
        if verdict == Transient || verdict == AuthRefused {
          stopped := true;
          return;
        }
        if verdict == Accepted { sent := sent + 1; } else { bad := bad + 1; }
      }
    }

    /**
      * Sends one batch and deals with the answer.  `rows` and `failed` are what really happened;
      * `sent` and `bad` are what the drain goes on to report, which is nothing when it has to stop.
      * Stopped by its own answer it did nothing; only a batch refused whole, and so sent row by row,
      * can have done something before it stopped.
      */
    method SendBatch(built: seq<nat>, mayRenew: bool, renewal: Renewal)
      returns (sent: nat, bad: nat, renewed: bool, stop: bool, verdict: Verdict,
               ghost steps: seq<Step>, ghost rows: nat, ghost failed: nat)
      requires built != [] && built <= Pending(outbox.db.outbox) && Buildable(outbox.db.T(), identity, built)
      modifies outbox.db, cloud
      ensures Advanced(old(Fair()), old(W()), steps, rows, failed)
      ensures if stop then sent == 0 && bad == 0 && failed <= rows < |built| else rows == sent + bad && failed == bad
      ensures stop ==> match verdict
        case Transient => rows == 0
        case AuthRefused => rows == 0
        case Permanent => |built| > 1
        case _ => false
      ensures rows > 0 || stop || (renewed && mayRenew)
      ensures old(Fair()) ==> Fair() && !stop
    {
      hide Advance, Buildable, OnCourse, TryAll, Pending;
      ghost var w, fair := W(), Fair();
      PrefixRows(w.db, built);
      sent, bad, renewed, stop, rows, failed := 0, 0, false, false, 0, 0;
      verdict, steps := SendAndMark(built);
      ghost var mid, more := W(), [];
      match verdict {
        case Accepted =>
          sent, rows := |built|, |built|;
          AdvanceWeaker(cloud.accepts, identity, fair, w, steps, mid, rows, failed);
        case Transient =>
          stop := true;
          more := Defer(built);
          AdvanceJoin(cloud.accepts, identity, fair, w, steps, mid, more, W(), 0, 0, false, 0, 0);
          steps := steps + more;
        case AuthRefused =>
          renewed := mayRenew;
          if !(mayRenew && renewal == Refreshed) {
            stop := true;
            more := Defer(built);
            AdvanceJoin(cloud.accepts, identity, fair, w, steps, mid, more, W(), 0, 0, false, 0, 0);
            steps := steps + more;
          }
        case SchemaTooOld =>
          more := SetAside(built);
          AdvanceJoin(cloud.accepts, identity, fair, w, steps, mid, more, W(), 0, 0, false, |built|, |built|);
          steps := steps + more;
          bad, rows, failed := |built|, |built|, |built|;
        case Permanent =>
          if |built| == 1 {
            more := SetAside(built);
            AdvanceJoin(cloud.accepts, identity, fair, w, steps, mid, more, W(), 0, 0, fair, 1, 1);
            steps := steps + more;
            bad, rows, failed := 1, 1, 1;
          } else {
            ghost var fairThen := Fair();
            var alone, refused;
            alone, refused, stop, more := Isolate(built);
            AdvanceRows(cloud.accepts, identity, fairThen, mid, more, W(), alone + refused, refused);
            AdvanceJoin(cloud.accepts, identity, fair, w, steps, mid, more, W(), 0, 0, fairThen, alone + refused, refused);
            steps := steps + more;
            rows, failed := alone + refused, refused;
            if stop {
              // What was sent or set aside by then stays so, but is left out of the report.
              mid := W();
              more := Defer(built);
              AdvanceJoin(cloud.accepts, identity, fair, w, steps, mid, more, W(), rows, failed, false, 0, 0);
              steps := steps + more;
            } else {
              sent, bad := alone, refused;
            }
          }
      }
    }

    /** One turn of the drain: set aside what cannot be built, send the rest. */
    method PushBatch(batch: seq<nat>, mayRenew: bool, renewal: Renewal)
      returns (sent: nat, bad: nat, renewed: bool, stop: bool, verdict: Verdict,
               ghost steps: seq<Step>, ghost rows: nat, ghost failed: nat)
      requires batch != [] && batch <= Pending(outbox.db.outbox)
      modifies outbox.db, cloud
      ensures Advanced(old(Fair()), old(W()), steps, rows, failed)
      ensures if stop then sent == 0 && bad <= failed <= rows < |batch| else rows == sent + bad && failed == bad
      ensures stop && verdict != Permanent ==> (verdict == Transient || verdict == AuthRefused) && rows == failed == bad
      ensures rows > 0 || stop || (renewed && mayRenew)
      ensures old(Fair()) ==> Fair() && !stop
    {
      hide Advance, Buildable, Pending;
      ghost var w, fair := W(), Fair();
      var built, unbuildable, aside := SetAsideUnbuildable(batch);
      sent, bad, renewed, stop, verdict := 0, unbuildable, false, false, Accepted;
      steps, rows, failed := aside, unbuildable, unbuildable;
      ghost var mid := W();
      AdvanceWeaker(cloud.accepts, identity, fair, w, aside, mid, unbuildable, unbuildable);
      if built == [] { return; }
      var pushed, refused;
      ghost var more, moreRows, moreFailed;
      pushed, refused, renewed, stop, verdict, more, moreRows, moreFailed := SendBatch(built, mayRenew, renewal);
      AdvanceJoin(cloud.accepts, identity, fair, w, aside, mid, more, W(), unbuildable, unbuildable, fair, moreRows, moreFailed);
      steps, rows, failed := aside + more, unbuildable + moreRows, unbuildable + moreFailed;
      if !stop { sent, bad := pushed, unbuildable + refused; }
    }

    /**
      * Sends the queue until it is empty or an answer makes it stop.  `unsaid` rows were dealt
      * with and not reported, `unsaidFailed` of them set aside: those of an isolation it stopped in.
      * `last` is the answer to the last batch sent.
      */
    method Drain(renewal: Renewal)
      returns (r: DrainResult, ghost last: Verdict, ghost steps: seq<Step>, ghost unsaid: nat, ghost unsaidFailed: nat)
      requires batchSize > 0
      modifies outbox.db, cloud
      // Every write on the way is a step of the machine, oldest rows first.
      ensures OrderlyPath(old(W()), steps, W())
      // Every row dealt with is reported, but for less than a batch of them.
      ensures Handled(old(W()), W(), r.pushed + r.quarantined + unsaid, r.quarantined + unsaidFailed)
      ensures unsaidFailed <= unsaid < batchSize
      // There are none unless it stopped while sending the rows of a batch refused whole.
      ensures r.stoppedEarly ==> last == Permanent || ((last == Transient || last == AuthRefused) && unsaid == 0)
      // A run that is not stopped reports them all and empties the queue.
      ensures !r.stoppedEarly ==> Pending(outbox.db.outbox) == [] && unsaid == 0
      ensures old(Pending(outbox.db.outbox)) == [] ==> !r.stoppedEarly && W() == old(W()) && steps == []
      // With no network fault it comes to what sending every row alone comes to.
      ensures old(Fair()) ==>
        && !r.stoppedEarly
        && old(outbox.db.failures) <= outbox.db.failures
        && AloneFrom(cloud.accepts, identity, old(W())) == Outcome(cloud.state, NewFailures(old(W()), W()))
    {
      hide Advance, Buildable, Handled, OrderlyPath, OnCourse, Alone, Pending, AllRows, Build, TryAll, SameDocuments, NewFailures;
      ghost var w, fair0 := W(), Fair();
      var pushed, quarantined, refreshed := 0, 0, false;
      last, steps := Accepted, [];
      AdvanceNothing(cloud.accepts, identity, fair0, w);
      while true
        invariant fair0 ==> Fair()
        invariant Advanced(fair0, w, steps, pushed + quarantined, quarantined)
        invariant Pending(w.db.outbox) == [] ==> W() == w && steps == []
        decreases |Pending(outbox.db.outbox)|, !refreshed
      {
        var batch := outbox.NextPending(batchSize);
        if batch == [] {
          AdvanceFacts(cloud.accepts, identity, fair0, w, steps, W(), pushed + quarantined, quarantined);
          if fair0 { AdvanceDone(cloud.accepts, identity, w, steps, W(), pushed + quarantined, quarantined); }
          return DrainResult(pushed, quarantined, false), last, steps, 0, 0;
        }

        ghost var from, fair := W(), Fair();
        var sent, bad, renewed, stop, verdict;
        ghost var more, rows, failed;
        sent, bad, renewed, stop, verdict, more, rows, failed := PushBatch(batch, canRenew && !refreshed, renewal);
        AdvanceRows(cloud.accepts, identity, fair, from, more, W(), rows, failed);
        AdvanceJoin(cloud.accepts, identity, fair0, w, steps, from, more, W(),
                    pushed + quarantined, quarantined, fair, rows, failed);
        last, steps := verdict, steps + more;
        if stop {
          AdvanceFacts(cloud.accepts, identity, fair0, w, steps, W(), pushed + quarantined + rows, quarantined + failed);
          return DrainResult(pushed, quarantined + bad, true), last, steps, rows - bad, failed - bad;
        }
        refreshed := refreshed || renewed;
        pushed, quarantined := pushed + sent, quarantined + bad;
      }
    }
  }
}

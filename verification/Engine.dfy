/// One sync cycle: push, and pull only when the push was not stopped.
module Engine {
  import opened Wrappers
  import K = Keyset
  import P = Puller
  import opened SyncStore
  import opened SyncSafety
  import opened Queue
  import opened Pusher
  import opened Stock
  import opened Levels

  /** Between two states whose tables the till does not pull from, its own table stays tied to the cloud's. */
  lemma DrainedSite(a: World, b: World, st: Stamps, st': Stamps, m: P.Mirror)
    requires SiteInv(Site(a, st, m)) && Inv(b) && b.db.cached == a.db.cached
    requires Evolved(a.cloud.levels, st, b.cloud.levels, st')
    ensures SiteInv(Site(b, st', m))
  {
    EvolvedMirrors(a.cloud.levels, st, b.cloud.levels, st', m);
  }

  /** After a pull that ended with a token in hand and nothing queued, only the absent deltas are missing. */
  ghost predicate Agrees(s: Site) {
    forall p: Product :: Truth(s.w, p) - Believed(s, p) == SumWhere(s.w.db.ledger, p, Absent(s.w))
  }

  lemma PulledSite(s: Site, remote: seq<K.Row>, m: P.Mirror)
    requires SiteInv(s) && Serves(s.w.cloud.levels, s.stamps, remote) && P.PullStep(LEVELS, remote, s.mirror, m)
    ensures SiteInv(Next(s, Pulled(remote, m)))
    ensures NothingAfter(remote, m.cursor) && Pending(s.w.db.outbox) == [] ==> Agrees(Next(s, Pulled(remote, m)))
  {
    var s' := Next(s, Pulled(remote, m));
    var steps := TurnKeeps(s, Pulled(remote, m));
    LevelsTakenCaches(s.w, Refetched(remote, s.mirror.local, m.local));
    hide Truth, SumWhere, Absent, UpToDate, Serves, P.PullStep, Refetched, LevelsTaken;
    if NothingAfter(remote, m.cursor) && Pending(s.w.db.outbox) == [] {
      CompletedIsUpToDate(s', remote);
      forall p: Product ensures Truth(s'.w, p) - Believed(s', p) == SumWhere(s'.w.db.ledger, p, Absent(s'.w)) {
        UpToDateLevel(s', p);
        SettledAgreement(s'.w, p);
      }
    }
  }

  /** What the pull of the levels leaves, whatever the cloud's dates are. */
  lemma AfterPull(mid: World, remote: seq<K.Row>, a: P.Mirror, b: P.Mirror, now: Stamps)
    requires P.IsTable(LEVELS, remote) && P.PullStep(LEVELS, remote, a, b)
    ensures var w := LevelsTaken(mid, Refetched(remote, a.local, b.local));
      && w == World(mid.db.(cached := w.db.cached), mid.cloud)
      && (SiteInv(Site(mid, now, a)) && Serves(mid.cloud.levels, now, remote) ==>
            && SiteInv(Site(w, now, b))
            && (NothingAfter(remote, b.cursor) && Pending(mid.db.outbox) == [] ==> Agrees(Site(w, now, b))))
      && (a == b ==> w == mid)
  {
    LevelsTakenCaches(mid, Refetched(remote, a.local, b.local));
    hide SiteInv, Serves, Agrees, P.IsTable, P.PullStep, NothingAfter, Pending;
    if a == b { NothingRefetched(remote, a.local); }
    if SiteInv(Site(mid, now, a)) && Serves(mid.cloud.levels, now, remote) { PulledSite(Site(mid, now, a), remote, b); }
  }

  lemma {:induction false} NothingRefetched(remote: seq<K.Row>, local: P.Local)
    ensures Refetched(remote, local, local) == []
  {
    if remote != [] { NothingRefetched(remote[..|remote| - 1], local); }
  }

  lemma OrderlyNothing(w: World)
    ensures OrderlyPath(w, [], w)
  {
  }

  class SyncEngine {
    const pusher: Pusher
    const puller: P.Puller
    var online: bool
    var lastPullAt: Option<int>

    constructor (pusher: Pusher, puller: P.Puller)
      ensures this.pusher == pusher && this.puller == puller && !online && lastPullAt == None
    {
      this.pusher, this.puller, online, lastPullAt := pusher, puller, false, None;
    }

    /** Till and cloud together, given when the cloud's levels last moved. */
    ghost function SiteAt(stamps: Stamps): Site
      reads this, pusher, pusher.outbox, pusher.outbox.db, pusher.cloud, puller
    {
      Site(pusher.W(), stamps, puller.State())
    }

    /**
      * The last table of a pull.  Each local row it replaced is, to the machine, that product's
      * level taken now.
      */
    method PullLevels(remote: seq<K.Row>, weather: seq<P.Fault>)
      returns (outcome: P.Outcome, ghost last: P.Fault, ghost steps: seq<Step>)
      requires puller.e == LEVELS && puller.pageSize > 0
      requires P.IsTable(LEVELS, remote) && P.Usable(LEVELS, puller.cursor)
      modifies puller, pusher.outbox.db`cached
      ensures pusher.cloud.state == old(pusher.cloud.state)
      ensures P.PullStep(LEVELS, remote, old(puller.State()), puller.State())
      ensures pusher.W() == LevelsTaken(old(pusher.W()), Refetched(remote, old(puller.local), puller.local))
      ensures OrderlyPath(old(pusher.W()), steps, pusher.W())
      ensures outcome == P.Returned && last != P.NoToken ==> NothingAfter(remote, puller.cursor)
      ensures last == P.Fine || last == P.NoToken ==> outcome == P.Returned
      ensures last == P.Fine || last in weather
      ensures weather != [] && weather[0] == P.NoToken ==> last == P.NoToken && puller.State() == old(puller.State())
    {
      hide P.IsTable, P.Usable, P.PullStep, Refetched, OrderlyPath;
      ghost var was := pusher.W();
      var local := puller.local;
      outcome, last := puller.Pull(remote, weather);
      var products := Refetched(remote, local, puller.local);
      var db, cloud := pusher.outbox.db, pusher.cloud;
      ghost var mirror := puller.State();
      assert products[..0] == [];
      for n := 0 to |products|
        invariant pusher.W() == LevelsTaken(was, products[..n])
        invariant cloud.state == old(cloud.state) && puller.State() == mirror
      {
        var p := products[n];
        assert products[..n + 1][..n] == products[..n];
        LevelsTakenCaches(was, products[..n]);
        db.cached := db.cached[p := CachedLevel(At(cloud.state.levels, p), cloud.state.ledger, At(cloud.state.elsewhere, p))];
      }
      assert products[..|products|] == products;
      steps := LevelsTakenSteps(was, products);
    }

    /** Drains the queue; online unless that was stopped. */
    method Push(renewal: Renewal, ghost was: Stamps, ghost now: Stamps) returns (r: DrainResult, ghost steps: seq<Step>)
      requires pusher.batchSize > 0 && SiteInv(SiteAt(was))
      modifies `online, pusher.outbox.db, pusher.cloud
      ensures OrderlyPath(old(pusher.W()), steps, pusher.W()) && Inv(pusher.W())
      ensures online == !r.stoppedEarly && puller.State() == old(puller.State())
      ensures pusher.W().db.cached == old(pusher.W()).db.cached
      ensures !r.stoppedEarly ==> Pending(pusher.W().db.outbox) == []
      ensures Pending(old(pusher.W()).db.outbox) == [] ==> !r.stoppedEarly && pusher.W() == old(pusher.W())
      ensures Evolved(old(pusher.W()).cloud.levels, was, pusher.W().cloud.levels, now) ==> SiteInv(SiteAt(now))
    {
      ghost var w, before := pusher.W(), puller.State();
      assert Inv(w);
      hide OrderlyPath, Inv, Handled, Alone, Pending, SiteInv, Evolved;
      ghost var last, unsaid, unsaidFailed;
      r, last, steps, unsaid, unsaidFailed := pusher.Drain(renewal);
      online := !r.stoppedEarly;
      OrderlyIsPath(w, steps, pusher.W());
      PathKeeps(w, steps, pusher.W());
      if Evolved(w.cloud.levels, was, pusher.W().cloud.levels, now) { DrainedSite(w, pusher.W(), was, now, before); }
    }

    /** Online just when every table's pull returned, and then with a time to show for it. */
    method Pull(reached: bool, remote: seq<K.Row>, weather: seq<P.Fault>, at: int, ghost now: Stamps)
      returns (outcome: Option<P.Outcome>, ghost last: P.Fault, ghost steps: seq<Step>)
      requires puller.e == LEVELS && puller.pageSize > 0
      requires P.IsTable(LEVELS, remote) && P.Usable(LEVELS, puller.cursor) && Inv(pusher.W())
      modifies `online, `lastPullAt, pusher.outbox.db`cached, puller
      ensures OrderlyPath(old(pusher.W()), steps, pusher.W()) && Inv(pusher.W())
      ensures pusher.W() == World(old(pusher.W()).db.(cached := pusher.W().db.cached), old(pusher.W()).cloud)
      ensures outcome.None? <==> !reached
      ensures outcome.None? || (weather != [] && weather[0] == P.NoToken) ==>
        puller.State() == old(puller.State()) && pusher.W() == old(pusher.W())
      ensures online <==> outcome == Some(P.Returned)
      ensures lastPullAt == if online then Some(at) else old(lastPullAt)
      ensures var served := old(SiteInv(SiteAt(now))) && Serves(pusher.W().cloud.levels, now, remote);
        served ==> SiteInv(SiteAt(now)) && (online && last != P.NoToken && Pending(pusher.W().db.outbox) == [] ==> Agrees(SiteAt(now)))
      ensures outcome.Some? && (last == P.Fine || last == P.NoToken) ==> online
      ensures reached && weather != [] && weather[0] == P.NoToken ==> last == P.NoToken
    {
      hide OrderlyPath, Inv, Pending, SiteInv, Serves, Agrees, P.IsTable, P.Usable, P.PullStep, Refetched, LevelsTaken, NothingAfter;
      ghost var w, before := pusher.W(), puller.State();
      outcome, last, steps, online := None, P.FetchFails, [], false;
      if !reached {
        assert OrderlyPath(w, [], w) by { OrderlyNothing(w); }
        return;
      }
      var ended;
      ended, last, steps := PullLevels(remote, weather);
      outcome, online := Some(ended), ended == P.Returned;
      if online { lastPullAt := Some(at); }
      AfterPull(w, remote, before, puller.State(), now);
      OrderlyIsPath(w, steps, pusher.W());
      PathKeeps(w, steps, pusher.W());
    }

    /**
      * A cycle on a terminal in any state it can reach.  It goes online just when the push was not
      * stopped and the pull of every table returned, which a pull does with no token at all.  Online
      * with a token for the last fetch, the queue is empty and the till's own table puts every
      * product short of the truth by exactly the deltas neither queued nor in the cloud.  A till
      * signed out with nothing to send goes online having asked nobody anything.
      *
      * `reached` says the tables before the levels were pulled; `was` and `now` are when the cloud's
      * levels last moved, before the cycle and as the table was served.
      */
    method Cycle(renewal: Renewal, reached: bool, remote: seq<K.Row>, weather: seq<P.Fault>, at: int,
                 ghost was: Stamps, ghost now: Stamps)
      returns (r: DrainResult, outcome: Option<P.Outcome>, ghost last: P.Fault, ghost steps: seq<Step>)
      requires puller.e == LEVELS && puller.pageSize > 0 && pusher.batchSize > 0
      requires P.IsTable(LEVELS, remote) && SiteInv(SiteAt(was))
      modifies this, pusher.outbox.db, pusher.cloud, puller
      ensures OrderlyPath(old(pusher.W()), steps, pusher.W()) && Inv(pusher.W())
      ensures !r.stoppedEarly ==> Pending(pusher.W().db.outbox) == []
      ensures outcome.None? <==> r.stoppedEarly || !reached
      ensures outcome.None? ==> puller.State() == old(puller.State()) && pusher.W().db.cached == old(pusher.W()).db.cached
      ensures online <==> outcome == Some(P.Returned)
      ensures lastPullAt == if online then Some(at) else old(lastPullAt)
      ensures
        var served := Evolved(old(pusher.W()).cloud.levels, was, pusher.W().cloud.levels, now) && Serves(pusher.W().cloud.levels, now, remote);
        served ==> SiteInv(SiteAt(now)) && (online && last != P.NoToken ==> Agrees(SiteAt(now)))
      ensures outcome.Some? && (last == P.Fine || last == P.NoToken) ==> online
      ensures Pending(old(pusher.W()).db.outbox) == [] && reached && weather != [] && weather[0] == P.NoToken ==>
        online && last == P.NoToken && pusher.W() == old(pusher.W()) && puller.State() == old(puller.State())
    {
      assert P.Usable(LEVELS, puller.cursor);
      hide OrderlyPath, Inv, Pending, SiteInv, Serves, Evolved, Agrees, P.IsTable, P.Usable;
      ghost var w := pusher.W();
      outcome, last := None, P.FetchFails;
      r, steps := Push(renewal, was, now);
      if r.stoppedEarly { return; }
      ghost var mid, more := pusher.W(), [];
      outcome, last, more := Pull(reached, remote, weather, at, now);
      OrderlyJoin(w, steps, mid, more, pusher.W());
      steps := steps + more;
    }
  }
}

/// Supervisor overrides: the pruned map at the till against everything that was ever granted.
module Overrides {
  import opened Wrappers

  datatype Session = Session(
    permissions: set<string>, snapshotExpiresAt: int, overrides: map<string, int>, approvers: map<string, nat>)
  {
    predicate IsFresh(now: int) { now < snapshotExpiresAt }

    predicate Allows(permission: string, now: int) {
      && IsFresh(now)
      && (permission in permissions || (permission in overrides && now < overrides[permission]))
    }

    /** Whom the session credits with an override of this key, while one is live. */
    function ApproverFor(permission: string, now: int): Option<nat> {
      if permission in permissions then None
      else if permission !in overrides || now >= overrides[permission] then None
      else if permission in approvers then Some(approvers[permission])
      else None
    }
  }

  datatype Grant = Lending(permission: string, until: int, now: int, approver: Option<nat>)

  datatype Refusal = NotOverridable | WindowClosed | NotSignedIn

  function Live(overrides: map<string, int>, now: int): map<string, int> {
    map key | key in overrides && overrides[key] > now :: overrides[key]
  }

  /** Prunes what has expired, then lends this key without shortening what it already had. */
  function Granted(s: Session, g: Grant): Session {
    var live := Live(s.overrides, g.now);
    var until := if g.permission in live && live[g.permission] > g.until then live[g.permission] else g.until;
    var lent := live[g.permission := until];
    var kept := map key | key in s.approvers && key in lent :: s.approvers[key];
    s.(overrides := lent,
       approvers := if g.approver.Some? then kept[g.permission := g.approver.value] else kept)
  }

  class SessionStore {
    const overridable: set<string>
    var session: Option<Session>

    /** The whole session is replaced by one with the grant in it, for the same user. */
    method Grant(permission: string, until: int, now: int, approver: Option<nat>) returns (refused: Option<Refusal>)
      modifies `session
      ensures refused ==
        if permission !in overridable then Some(NotOverridable)
        else if until <= now then Some(WindowClosed)
        else if old(session) == None then Some(NotSignedIn)
        else None
      ensures refused.Some? ==> session == old(session)
      ensures refused.None? ==>
        session == Some(Granted(old(session).value, Lending(permission, until, now, approver)))
    {
      if permission !in overridable { return Some(NotOverridable); }
      if until <= now { return Some(WindowClosed); }
      if session == None { return Some(NotSignedIn); }
      var s := session.value;
      var live := Live(s.overrides, now);
      live := live[permission := if permission in live && live[permission] > until then live[permission] else until];
      var approvers := map key | key in s.approvers && key in live :: s.approvers[key];
      if approver.Some? { approvers := approvers[permission := approver.value]; }
      session := Some(s.(overrides := live, approvers := approvers));
      refused := None;
    }
  }

  // ---- The full history ----

  /** Grants a store would accept, in time order. */
  ghost predicate IsHistory(gs: seq<Grant>) {
    && (forall k :: 0 <= k < |gs| ==> gs[k].until > gs[k].now)
    && (forall j, k :: 0 <= j < k < |gs| ==> gs[j].now <= gs[k].now)
  }

  function AfterAll(s: Session, gs: seq<Grant>): Session {
    if gs == [] then s else Granted(AfterAll(s, gs[..|gs| - 1]), gs[|gs| - 1])
  }

  /** Some grant of this key is still live. */
  ghost predicate SomeLive(gs: seq<Grant>, permission: string, now: int) {
    exists k :: 0 <= k < |gs| && gs[k].permission == permission && now < gs[k].until
  }

  /** Who granted this key last, if whoever it was is named. */
  function LatestGranter(gs: seq<Grant>, permission: string): Option<nat> {
    if gs == [] then None
    else if gs[|gs| - 1].permission == permission then gs[|gs| - 1].approver
    else LatestGranter(gs[..|gs| - 1], permission)
  }

  /** What the map holds for a key is the latest any grant of it runs to; what it dropped has lapsed. */
  ghost predicate Tracks(s: Session, gs: seq<Grant>, key: string) {
    && (key in s.overrides ==> exists k :: 0 <= k < |gs| && gs[k].permission == key && gs[k].until == s.overrides[key])
    && (forall k :: 0 <= k < |gs| && gs[k].permission == key ==>
          if key in s.overrides then gs[k].until <= s.overrides[key] else gs[k].until <= gs[|gs| - 1].now)
  }

  lemma GrantTracks(s: Session, gs: seq<Grant>, g: Grant, key: string)
    requires IsHistory(gs + [g]) && Tracks(s, gs, key)
    ensures Tracks(Granted(s, g), gs + [g], key)
  {
    var all, s' := gs + [g], Granted(s, g);
    assert forall k :: 0 <= k < |gs| ==> all[k] == gs[k];
    assert all[|gs|] == g && all[|all| - 1] == g;
    if gs != [] { assert all[|gs| - 1].now <= all[|gs|].now; }
    if key in s'.overrides {
      if key == g.permission && s'.overrides[key] == g.until {
        assert all[|gs|].until == s'.overrides[key];
      } else {
        var k :| 0 <= k < |gs| && gs[k].permission == key && gs[k].until == s.overrides[key];
        assert all[k].until == s'.overrides[key];
      }
    }
  }

  lemma {:induction false} HistoryTracked(s: Session, gs: seq<Grant>, key: string)
    requires s.overrides == map[] && IsHistory(gs)
    ensures Tracks(AfterAll(s, gs), gs, key)
    ensures AfterAll(s, gs).permissions == s.permissions && AfterAll(s, gs).snapshotExpiresAt == s.snapshotExpiresAt
    decreases |gs|
  {
    hide Granted, Tracks;
    if gs != [] {
      var n := |gs| - 1;
      assert gs[..n] + [gs[n]] == gs;
      HistoryTracked(s, gs[..n], key);
      GrantTracks(AfterAll(s, gs[..n]), gs[..n], gs[n], key);
      GrantKeepsIdentity(AfterAll(s, gs[..n]), gs[n]);
    } else {
      NothingTracked(s, key);
    }
  }

  lemma NothingTracked(s: Session, key: string)
    requires s.overrides == map[]
    ensures Tracks(s, [], key)
  {
  }

  lemma GrantKeepsIdentity(s: Session, g: Grant)
    ensures Granted(s, g).permissions == s.permissions && Granted(s, g).snapshotExpiresAt == s.snapshotExpiresAt
  {
  }

  /**
    * The pruned map refines its history: at any moment from the last grant on, a key is allowed
    * exactly when the snapshot is fresh and it is held outright or some grant of it is live.
    */
  lemma MapRefinesHistory(s: Session, gs: seq<Grant>, permission: string, now: int)
    requires s.overrides == map[] && IsHistory(gs) && (gs != [] ==> gs[|gs| - 1].now <= now)
    ensures AfterAll(s, gs).Allows(permission, now)
       <==> s.IsFresh(now) && (permission in s.permissions || SomeLive(gs, permission, now))
  {
    HistoryTracked(s, gs, permission);
  }

  /** No grant shortens a window that is still open. */
  lemma NeverShortens(s: Session, g: Grant, key: string)
    requires key in s.overrides && s.overrides[key] > g.now
    ensures key in Granted(s, g).overrides && Granted(s, g).overrides[key] >= s.overrides[key]
  {
  }

  // ---- Who approved it ----

  /** A session as sign-in leaves it. */
  predicate IsSignIn(s: Session) { s.overrides == map[] && s.approvers == map[] }

  /**
    * The name given at grant `k` is still remembered: whenever another key was granted since,
    * this one was live, so its name was not pruned along with it.
    */
  ghost predicate Survives(gs: seq<Grant>, key: string, k: nat) {
    && k < |gs| && gs[k].permission == key && gs[k].approver.Some?
    && forall m :: k < m < |gs| && gs[m].permission != key ==> SomeLive(gs[..m], key, gs[m].now)
  }

  /** No grant of this key after `k` names anybody. */
  ghost predicate IsLastNamed(gs: seq<Grant>, key: string, k: nat) {
    k < |gs| && forall m :: k < m < |gs| && gs[m].permission == key ==> gs[m].approver.None?
  }

  /** The map remembers a name for a key just when one survives, and then it is the last one given. */
  ghost predicate Credits(s: Session, gs: seq<Grant>, key: string) {
    if key in s.approvers then
      exists k: nat :: Survives(gs, key, k) && IsLastNamed(gs, key, k) && gs[k].approver == Some(s.approvers[key])
    else
      forall k: nat :: !Survives(gs, key, k)
  }

  lemma SurvivesNext(gs: seq<Grant>, g: Grant, key: string, k: nat)
    requires k < |gs|
    ensures Survives(gs + [g], key, k)
       <==> Survives(gs, key, k) && (g.permission != key ==> SomeLive(gs, key, g.now))
  {
    var all := gs + [g];
    assert all[..|gs|] == gs;
    assert forall m :: 0 <= m < |gs| ==> all[m] == gs[m] && all[..m] == gs[..m];
    if Survives(all, key, k) && g.permission != key { assert SomeLive(all[..|gs|], key, all[|gs|].now); }
  }

  /** Pruned at a grant of another key exactly when it had lapsed by then. */
  lemma KeptThrough(s: Session, gs: seq<Grant>, g: Grant, key: string)
    requires IsHistory(gs + [g]) && Tracks(s, gs, key)
    ensures (key in s.overrides && s.overrides[key] > g.now) <==> SomeLive(gs, key, g.now)
  {
    var all := gs + [g];
    assert forall k :: 0 <= k < |gs| ==> all[k] == gs[k];
    assert all[|gs|] == g;
    if gs != [] { assert all[|gs| - 1].now <= all[|gs|].now; }
  }

  lemma GrantCredits(s: Session, gs: seq<Grant>, g: Grant, key: string)
    requires IsHistory(gs + [g]) && Tracks(s, gs, key) && Credits(s, gs, key)
    ensures Credits(Granted(s, g), gs + [g], key)
  {
    var all, s' := gs + [g], Granted(s, g);
    KeptThrough(s, gs, g, key);
    forall k: nat | k < |gs| ensures Survives(all, key, k)
       <==> Survives(gs, key, k) && (g.permission != key ==> SomeLive(gs, key, g.now))
    {
      SurvivesNext(gs, g, key, k);
    }
    assert forall k :: 0 <= k < |gs| ==> all[k] == gs[k];
    hide Survives, SomeLive, Tracks;
    if g.permission == key && g.approver.Some? {
      assert IsLastNamed(all, key, |gs|) && all[|gs|] == g;
    } else if key in s'.approvers {
      var k: nat :| Survives(gs, key, k) && IsLastNamed(gs, key, k) && gs[k].approver == Some(s.approvers[key]);
      assert Survives(all, key, k) && IsLastNamed(all, key, k);
    } else {
      forall k: nat ensures !Survives(all, key, k) {
      }
    }
  }

  lemma {:induction false} HistoryCredits(s: Session, gs: seq<Grant>, key: string)
    requires IsSignIn(s) && IsHistory(gs)
    ensures Credits(AfterAll(s, gs), gs, key)
    decreases |gs|
  {
    hide Granted, Tracks;
    if gs != [] {
      hide Credits;
      var n := |gs| - 1;
      assert gs[..n] + [gs[n]] == gs;
      HistoryTracked(s, gs[..n], key);
      HistoryCredits(s, gs[..n], key);
      GrantCredits(AfterAll(s, gs[..n]), gs[..n], gs[n], key);
    }
  }

  lemma {:induction false} LatestAt(gs: seq<Grant>, key: string) returns (k: nat)
    requires exists j :: 0 <= j < |gs| && gs[j].permission == key
    ensures k < |gs| && gs[k].permission == key && gs[k].approver == LatestGranter(gs, key)
    ensures forall m :: k < m < |gs| ==> gs[m].permission != key
  {
    var n := |gs| - 1;
    if gs[n].permission == key {
      k := n;
    } else {
      var j :| 0 <= j < |gs| && gs[j].permission == key;
      assert gs[..n][j].permission == key;
      k := LatestAt(gs[..n], key);
    }
  }

  /** While a key is live, a name given at its last grant is still remembered. */
  lemma LatestSurvives(gs: seq<Grant>, key: string, now: int, k: nat)
    requires IsHistory(gs) && SomeLive(gs, key, now) && (gs != [] ==> gs[|gs| - 1].now <= now)
    requires k < |gs| && gs[k].permission == key && gs[k].approver.Some?
    requires forall m :: k < m < |gs| ==> gs[m].permission != key
    ensures Survives(gs, key, k) && IsLastNamed(gs, key, k)
  {
    var j :| 0 <= j < |gs| && gs[j].permission == key && now < gs[j].until;
    forall m | k < m < |gs| ensures SomeLive(gs[..m], key, gs[m].now) {
      assert gs[..m][j] == gs[j];
      assert gs[m].now <= now;
    }
  }

  /** The name the map gives for a live key. */
  lemma NameGiven(s: Session, gs: seq<Grant>, key: string, now: int, k: nat)
    requires Credits(s, gs, key) && key in s.overrides && now < s.overrides[key] && key !in s.permissions
    requires Survives(gs, key, k) && IsLastNamed(gs, key, k)
    ensures gs[k].approver.Some? && s.ApproverFor(key, now) == gs[k].approver
  {
    if key in s.approvers {
      var j: nat :| Survives(gs, key, j) && IsLastNamed(gs, key, j) && gs[j].approver == Some(s.approvers[key]);
    }
  }

  /**
    * While a grant of a key is live, the one named is whoever granted it last, just when that
    * last grant names somebody, or no earlier name has survived to be named instead.
    */
  lemma NamesLatestGranter(s: Session, gs: seq<Grant>, permission: string, now: int)
    requires IsSignIn(s) && IsHistory(gs) && (gs != [] ==> gs[|gs| - 1].now <= now)
    requires permission !in s.permissions && SomeLive(gs, permission, now)
    ensures AfterAll(s, gs).ApproverFor(permission, now) == LatestGranter(gs, permission)
       <==> LatestGranter(gs, permission).Some? || forall k: nat :: !Survives(gs, permission, k)
    ensures forall k: nat :: Survives(gs, permission, k) && IsLastNamed(gs, permission, k) ==>
      AfterAll(s, gs).ApproverFor(permission, now) == gs[k].approver
  {
    var s' := AfterAll(s, gs);
    HistoryTracked(s, gs, permission);
    HistoryCredits(s, gs, permission);
    var last := LatestAt(gs, permission);
    hide Tracks, AfterAll, Survives, LatestGranter, Credits, IsLastNamed, Session.ApproverFor, SomeLive;
    if gs[last].approver.Some? {
      LatestSurvives(gs, permission, now, last);
      NameGiven(s', gs, permission, now, last);
    }
    forall k: nat | Survives(gs, permission, k) && IsLastNamed(gs, permission, k)
      ensures k < |gs| && s'.ApproverFor(permission, now) == gs[k].approver
    {
      NameGiven(s', gs, permission, now, k);
    }
  }

  /** Nobody is named for a key held outright, nor for one with no live grant. */
  lemma NobodyNamedOtherwise(s: Session, gs: seq<Grant>, permission: string, now: int)
    requires IsSignIn(s) && IsHistory(gs) && (gs != [] ==> gs[|gs| - 1].now <= now)
    requires permission in s.permissions || !SomeLive(gs, permission, now)
    ensures AfterAll(s, gs).ApproverFor(permission, now) == None
  {
    HistoryTracked(s, gs, permission);
  }

  /** An unnamed grant of a key whose earlier grant has lapsed is credited to the lapsed one's approver. */
  lemma UnnamedGrantMiscredited(s: Session)
    requires s == Session({}, 1000, map[], map[])
    ensures var gs := [Lending("k", 10, 0, Some(7)), Lending("k", 30, 20, None)];
      && IsHistory(gs) && LatestGranter(gs, "k") == None
      && AfterAll(s, gs).ApproverFor("k", 25) == Some(7)
  {
    var gs := [Lending("k", 10, 0, Some(7)), Lending("k", 30, 20, None)];
    assert gs[..1] == [gs[0]] && [gs[0]][..0] == [];
    assert AfterAll(s, [gs[0]]) == Granted(s, gs[0]);
    assert AfterAll(s, gs) == Granted(Granted(s, gs[0]), gs[1]);
  }
}

/// Stock levels: moved by the cloud's trigger, paged by the till, and what the till then believes.
module Levels {
  import opened Wrappers
  import Lex
  import opened Keyset
  import opened P = Puller
  import opened SyncStore
  import opened SyncSafety
  import opened Stock

  /** The table is keyed by store and product; the till serves one store and keeps no column for it. */
  const LEVELS := Keyset.Entity.Entity(
    "updated_at", ["store_id", "product_id"], ["product_id", "on_hand", "reorder_point", "updated_at"], ["product_id"])

  const STORE := 1

  function RowOf(p: Product, onHand: int, at: int): Row {
    map["store_id" := STORE, "product_id" := p, "on_hand" := onHand, "updated_at" := at]
  }

  lemma RowFacts(p: Product, onHand: int, at: int)
    ensures var row := RowOf(p, onHand, at);
      && Keyed(LEVELS, row) && KeyOf(LEVELS, row) == [at, STORE, p] && LocalKeyOf(LEVELS, row) == [p]
      && Project(LEVELS, row) == map["product_id" := p, "on_hand" := onHand, "updated_at" := at]
      && row["updated_at"] == at && row["product_id"] == p
  {
    assert Columns(LEVELS) == ["updated_at", "store_id", "product_id"];
  }

  // ---- The cloud's side: a level and when it last moved ----

  /** When each level last moved, and the latest such time. */
  datatype Stamps = Stamps(of: map<Product, int>, clock: int)

  ghost predicate Dated(levels: map<Product, int>, st: Stamps) {
    st.of.Keys == levels.Keys && forall p :: p in st.of ==> EPOCH < st.of[p] <= st.clock
  }

  /** Every level that moved, and any other the trigger touched, is dated after all that went before. */
  ghost predicate Evolved(levels: map<Product, int>, st: Stamps, levels': map<Product, int>, st': Stamps) {
    && Dated(levels', st') && st.clock <= st'.clock && levels.Keys <= levels'.Keys
    && forall p :: p in levels' ==>
         st'.of[p] > st.clock || (p in levels && p in st.of && levels'[p] == levels[p] && st'.of[p] == st.of[p])
  }

  function CurrentRow(levels: map<Product, int>, st: Stamps, p: Product): Row
    requires p in levels && p in st.of
  {
    RowOf(p, levels[p], st.of[p])
  }

  /** The table as the server orders it: each level's current row and nothing else. */
  ghost predicate Serves(levels: map<Product, int>, st: Stamps, remote: seq<Row>) {
    && IsTable(LEVELS, remote)
    && (forall k :: 0 <= k < |remote| ==> IsCurrent(levels, st, remote[k]))
    && (forall p :: p in levels && p in st.of ==> CurrentRow(levels, st, p) in remote)
  }

  ghost predicate IsCurrent(levels: map<Product, int>, st: Stamps, row: Row) {
    exists p :: p in levels && p in st.of && row == CurrentRow(levels, st, p)
  }

  // ---- There is such a table ----

  predicate Before(st: Stamps, p: Product, q: Product)
    requires p in st.of && q in st.of
  {
    st.of[p] < st.of[q] || (st.of[p] == st.of[q] && p < q)
  }

  lemma {:induction false} LastOf(st: Stamps, ps: set<Product>) returns (last: Product)
    requires ps <= st.of.Keys && exists p :: p in ps
    ensures last in ps && forall p :: p in ps && p != last ==> Before(st, p, last)
    decreases ps
  {
    last :| last in ps;
    var rest := ps - {last};
    if exists p :: p in rest {
      var other := LastOf(st, rest);
      forall p | p in ps && p != last ensures p == other || Before(st, p, other) { assert p in rest; }
      if Before(st, last, other) { last := other; }
    } else {
      forall p | p in ps ensures p == last { assert p !in rest; }
    }
  }

  lemma {:induction false} InOrderOf(st: Stamps, ps: set<Product>) returns (qs: seq<Product>)
    requires ps <= st.of.Keys
    ensures forall p :: p in qs <==> p in ps
    ensures forall k :: 0 <= k < |qs| ==> qs[k] in ps
    ensures forall j, k :: 0 <= j < k < |qs| ==> Before(st, qs[j], qs[k])
    decreases ps
  {
    qs := [];
    if exists p :: p in ps {
      var last := LastOf(st, ps);
      var rest := InOrderOf(st, ps - {last});
      qs := rest + [last];
    }
  }

  lemma KeysInOrder(levels: map<Product, int>, st: Stamps, p: Product, q: Product)
    requires p in levels && p in st.of && q in levels && q in st.of && Before(st, p, q)
    ensures var a, b := CurrentRow(levels, st, p), CurrentRow(levels, st, q);
      && Keyed(LEVELS, a) && Keyed(LEVELS, b)
      && Lex.Less(KeyOf(LEVELS, a), KeyOf(LEVELS, b)) && LocalKeyOf(LEVELS, a) != LocalKeyOf(LEVELS, b)
  {
    RowFacts(p, levels[p], st.of[p]);
    RowFacts(q, levels[q], st.of[q]);
    hide RowOf, KeyOf, LocalKeyOf, Keyed;
    var a, b := [st.of[p], STORE, p], [st.of[q], STORE, q];
    assert a[1..] == [STORE, p] && b[1..] == [STORE, q] && [STORE, p][1..] == [p] && [STORE, q][1..] == [q];
    LessSingle(p, q);
    assert [p][0] == p && [q][0] == q;
  }

  lemma TableExists(levels: map<Product, int>, st: Stamps) returns (remote: seq<Row>)
    requires Dated(levels, st)
    ensures Serves(levels, st, remote)
  {
    var qs := InOrderOf(st, levels.Keys);
    remote := seq(|qs|, k requires 0 <= k < |qs| => CurrentRow(levels, st, qs[k]));
    hide CurrentRow, KeyOf, LocalKeyOf, Keyed, Before, Lex.Less;
    forall k | 0 <= k < |remote| ensures Keyed(LEVELS, remote[k]) && IsCurrent(levels, st, remote[k]) {
      CurrentIsKeyed(levels, st, qs[k]);
    }
    forall j, k | 0 <= j < k < |remote|
      ensures Lex.Less(KeyOf(LEVELS, remote[j]), KeyOf(LEVELS, remote[k]))
      ensures LocalKeyOf(LEVELS, remote[j]) != LocalKeyOf(LEVELS, remote[k])
    {
      KeysInOrder(levels, st, qs[j], qs[k]);
    }
    forall p | p in levels && p in st.of ensures CurrentRow(levels, st, p) in remote {
      var k :| 0 <= k < |qs| && qs[k] == p;
      assert remote[k] == CurrentRow(levels, st, p);
    }
  }

  lemma CurrentIsKeyed(levels: map<Product, int>, st: Stamps, p: Product)
    requires p in levels && p in st.of
    ensures Keyed(LEVELS, CurrentRow(levels, st, p))
  {
    RowFacts(p, levels[p], st.of[p]);
  }

  /** What the trigger does: the levels a request touched are dated by its time, the rest keep their dates. */
  function Restamped(levels': map<Product, int>, st: Stamps, touched: set<Product>, now: int): Stamps {
    Stamps(map p | p in levels' :: if p in touched || p !in st.of then now else st.of[p], now)
  }

  lemma TriggerEvolves(levels: map<Product, int>, st: Stamps, levels': map<Product, int>, touched: set<Product>, now: int)
    requires Dated(levels, st) && now > st.clock && now > EPOCH && levels.Keys <= levels'.Keys
    requires forall p :: p in levels && p !in touched ==> levels'[p] == levels[p]
    ensures Evolved(levels, st, levels', Restamped(levels', st, touched, now))
  {
  }

  // ---- The till's side: its row is the cloud's, unless that one lies after the cursor ----

  ghost predicate Mirrored(levels: map<Product, int>, st: Stamps, m: Mirror, p: Product)
    requires p in levels && p in st.of
  {
    var row := CurrentRow(levels, st, p);
    Keyed(LEVELS, row) && (After(LEVELS, m.cursor, row) || Stored(LEVELS, m.local, row))
  }

  ghost predicate MirrorInv(levels: map<Product, int>, st: Stamps, m: Mirror) {
    && Dated(levels, st)
    && Usable(LEVELS, m.cursor) && Watermark(LEVELS, m.cursor) <= st.clock
    && (forall p :: p in levels && p in st.of ==> Mirrored(levels, st, m, p))
    && (forall key :: key in m.local ==> Known(levels, key))
  }

  ghost predicate Known(levels: map<Product, int>, key: seq<int>) {
    |key| == 1 && key[0] in levels
  }

  /** A level that moves lands after every cursor the till can hold. */
  lemma MovedIsAfter(p: Product, onHand: int, at: int, cursor: Position)
    requires Usable(LEVELS, cursor) && Watermark(LEVELS, cursor) < at
    ensures Keyed(LEVELS, RowOf(p, onHand, at)) && After(LEVELS, cursor, RowOf(p, onHand, at))
  {
    var row := RowOf(p, onHand, at);
    RowFacts(p, onHand, at);
    AfterMeans(LEVELS, cursor, row);
    assert PositionValues(LEVELS, cursor)[0] == Watermark(LEVELS, cursor);
  }

  lemma EvolvedMirrors(levels: map<Product, int>, st: Stamps, levels': map<Product, int>, st': Stamps, m: Mirror)
    requires MirrorInv(levels, st, m) && Evolved(levels, st, levels', st')
    ensures MirrorInv(levels', st', m)
  {
    hide Usable, After, Stored, Keyed, RowOf, Watermark;
    forall p | p in levels' && p in st'.of ensures Mirrored(levels', st', m, p) {
      if st'.of[p] > st.clock {
        MovedIsAfter(p, levels'[p], st'.of[p], m.cursor);
      } else {
        assert Mirrored(levels, st, m, p);
      }
    }
  }

  lemma PulledCursor(levels: map<Product, int>, st: Stamps, remote: seq<Row>, a: Mirror, b: Mirror)
    requires Dated(levels, st) && Serves(levels, st, remote) && PullStep(LEVELS, remote, a, b)
    requires Watermark(LEVELS, a.cursor) <= st.clock
    ensures Watermark(LEVELS, b.cursor) <= st.clock
  {
    hide After, Usable, PositionFromRow, Stored, SameAt, RowStep, RowOf, IsTable;
    if b.cursor != a.cursor {
      var k :| 0 <= k < |remote| && PositionFromRow(LEVELS, remote[k]) == Some(b.cursor);
      assert IsCurrent(levels, st, remote[k]);
      var p :| p in levels && p in st.of && remote[k] == CurrentRow(levels, st, p);
      RowFacts(p, levels[p], st.of[p]);
      PositionOf(LEVELS, remote[k]);
      assert PositionValues(LEVELS, b.cursor)[0] == Watermark(LEVELS, b.cursor);
    }
  }

  lemma PulledMirrors(levels: map<Product, int>, st: Stamps, remote: seq<Row>, a: Mirror, b: Mirror)
    requires MirrorInv(levels, st, a) && Serves(levels, st, remote) && PullStep(LEVELS, remote, a, b)
    ensures MirrorInv(levels, st, b)
  {
    PulledCursor(levels, st, remote, a, b);
    assert forall k :: 0 <= k < |remote| ==> Keyed(LEVELS, remote[k]);
    hide After, Usable, Watermark, CursorFrom, IsTable, CurrentRow, LocalKeyOf, Keyed, Mirrored, Stored, RowStep, Known, IsCurrent;
    forall p | p in levels && p in st.of ensures Mirrored(levels, st, b, p) {
      var k :| 0 <= k < |remote| && remote[k] == CurrentRow(levels, st, p);
    }
    forall key | key in b.local ensures Known(levels, key) {
      if !exists k :: 0 <= k < |remote| && LocalKeyOf(LEVELS, remote[k]) == key {
        assert P.Elsewhere(LEVELS, remote, |remote|, key) && SameAt(a.local, b.local, key);
      }
    }
  }

  // ---- What the till reads ----

  /** The level in the till's table; a product with no row has none. */
  function LocalOnHand(local: Local, p: Product): int {
    if [p] in local && "on_hand" in local[[p]] then local[[p]]["on_hand"] else 0
  }

  ghost predicate NothingAfter(remote: seq<Row>, cursor: Position)
    requires IsTable(LEVELS, remote)
  {
    forall k :: 0 <= k < |remote| ==> !After(LEVELS, cursor, remote[k])
  }

  /**
    * Whatever dates the server gives, a completed pull, after any number cut short, leaves the till a
    * product's row if and only if it had it or the row lay beyond the cursor.  One dated at or before
    * the cursor is never asked for.
    */
  lemma {:induction false} TakenExactly(levels: map<Product, int>, st: Stamps, remote: seq<Row>, path: seq<Mirror>, p: Product)
    requires Serves(levels, st, remote) && Pulls(LEVELS, remote, path) && |path| > 1
    requires NothingAfter(remote, path[|path| - 1].cursor) && p in levels && p in st.of
    ensures Keyed(LEVELS, CurrentRow(levels, st, p))
    ensures Stored(LEVELS, path[|path| - 1].local, CurrentRow(levels, st, p)) <==> Mirrored(levels, st, path[0], p)
  {
    hide After, RowOf, Usable, PullStep, LocalKeyOf, Project, Keyed, IsTable, IsCurrent;
    var k :| 0 <= k < |remote| && remote[k] == CurrentRow(levels, st, p);
    CurrentIsKeyed(levels, st, p);
    KeysetPullIsComplete(LEVELS, remote, path, k);
  }

  // ---- The two tables together ----

  /** The terminal and the cloud, with when each level moved and the paged copy of the levels. */
  datatype Site = Site(w: World, stamps: Stamps, mirror: Mirror)

  /** The machine's view of the till's levels is the paged table. */
  ghost predicate Linked(db: Tables, local: Local) {
    forall p: Product :: CachedFor(db, p).onHand == LocalOnHand(local, p)
  }

  ghost predicate SiteInv(s: Site) {
    Inv(s.w) && MirrorInv(s.w.cloud.levels, s.stamps, s.mirror) && Linked(s.w.db, s.mirror.local)
  }

  /** The products whose local row a pull replaced with another. */
  function Refetched(remote: seq<Row>, was: Local, now: Local): (ps: seq<Product>) {
    if remote == [] then []
    else
      var row := remote[|remote| - 1];
      Refetched(remote[..|remote| - 1], was, now) +
        if "product_id" in row && Changed(was, now, [row["product_id"]]) then [row["product_id"]] else []
  }

  predicate Changed(was: Local, now: Local, key: seq<int>) {
    key in now && (key !in was || was[key] != now[key])
  }

  lemma {:induction false} RefetchedMeans(remote: seq<Row>, was: Local, now: Local, p: Product)
    ensures p in Refetched(remote, was, now) <==>
      Changed(was, now, [p]) && exists k :: 0 <= k < |remote| && "product_id" in remote[k] && remote[k]["product_id"] == p
  {
    if remote != [] {
      var n := |remote| - 1;
      RefetchedMeans(remote[..n], was, now, p);
      if k :| 0 <= k < |remote| && "product_id" in remote[k] && remote[k]["product_id"] == p {
        assert k == n || remote[..n][k] == remote[k];
      }
    }
  }

  function LevelsTaken(w: World, ps: seq<Product>): World
    decreases |ps|
  {
    if ps == [] then w else Apply(LevelsTaken(w, ps[..|ps| - 1]), PullLevel(ps[|ps| - 1]))
  }

  lemma {:induction false} LevelsTakenCaches(w: World, ps: seq<Product>)
    ensures var w' := LevelsTaken(w, ps);
      && w' == World(w.db.(cached := w'.db.cached), w.cloud)
      && forall p :: CachedFor(w'.db, p) ==
           if p in ps then CachedLevel(At(w.cloud.levels, p), w.cloud.ledger, At(w.cloud.elsewhere, p)) else CachedFor(w.db, p)
    decreases |ps|
  {
    if ps != [] {
      var n := |ps| - 1;
      LevelsTakenCaches(w, ps[..n]);
      assert ps == ps[..n] + [ps[n]];
    }
  }

  lemma {:induction false} LevelsTakenSteps(w: World, ps: seq<Product>) returns (steps: seq<Step>)
    ensures OrderlyPath(w, steps, LevelsTaken(w, ps))
    decreases |ps|
  {
    if ps == [] {
      steps := [];
    } else {
      var n := |ps| - 1;
      var before := LevelsTakenSteps(w, ps[..n]);
      var mid := LevelsTaken(w, ps[..n]);
      OrderlyStep(mid, PullLevel(ps[n]));
      OrderlyJoin(w, before, mid, [PullLevel(ps[n])], LevelsTaken(w, ps));
      steps := before + [PullLevel(ps[n])];
    }
  }

  /** A product's row after a pull: the cloud's where it was replaced, and otherwise what it was. */
  lemma PulledLevel(levels: map<Product, int>, st: Stamps, remote: seq<Row>, a: Mirror, b: Mirror, p: Product)
    requires MirrorInv(levels, st, a) && Serves(levels, st, remote) && PullStep(LEVELS, remote, a, b)
    ensures LocalOnHand(b.local, p)
         == if p in Refetched(remote, a.local, b.local) then At(levels, p) else LocalOnHand(a.local, p)
  {
    RefetchedMeans(remote, a.local, b.local, p);
    hide After, Usable, Watermark, CursorFrom, IsTable, Refetched, Mirrored;
    if p in levels {
      RowFacts(p, levels[p], st.of[p]);
      var k :| 0 <= k < |remote| && remote[k] == CurrentRow(levels, st, p);
      assert RowStep(LEVELS, a, b, remote[k]);
      hide RowOf, LocalKeyOf, Keyed, Project;
    } else {
      PulledMirrors(levels, st, remote, a, b);
      assert !Known(levels, [p]);
    }
  }

  lemma PulledLinks(s: Site, remote: seq<Row>, m: Mirror)
    requires SiteInv(s) && Serves(s.w.cloud.levels, s.stamps, remote) && PullStep(LEVELS, remote, s.mirror, m)
    ensures Linked(LevelsTaken(s.w, Refetched(remote, s.mirror.local, m.local)).db, m.local)
  {
    var ps := Refetched(remote, s.mirror.local, m.local);
    LevelsTakenCaches(s.w, ps);
    hide Refetched, PullStep, Serves, MirrorInv, LocalOnHand, Inv, LevelsTaken;
    forall p: Product ensures CachedFor(LevelsTaken(s.w, ps).db, p).onHand == LocalOnHand(m.local, p) {
      PulledLevel(s.w.cloud.levels, s.stamps, remote, s.mirror, m, p);
    }
  }

  // ---- A run of the two together ----

  /** Any step but a pull, dated by the server; or a pull of the table as it then is, however it ends. */
  datatype Turn =
    | Does(step: Step, stamps: Stamps)
    | Pulled(remote: seq<Row>, mirror: Mirror)

  ghost predicate Allowed(s: Site, t: Turn) {
    match t
    case Does(step, st) =>
      && !step.PullLevel? && Enabled(s.w, step)
      && Evolved(s.w.cloud.levels, s.stamps, Apply(s.w, step).cloud.levels, st)
    case Pulled(remote, m) =>
      Serves(s.w.cloud.levels, s.stamps, remote) && PullStep(LEVELS, remote, s.mirror, m)
  }

  function Next(s: Site, t: Turn): Site
    requires t.Does? ==> Enabled(s.w, t.step)
  {
    match t
    case Does(step, st) => Site(Apply(s.w, step), st, s.mirror)
    case Pulled(remote, m) => Site(LevelsTaken(s.w, Refetched(remote, s.mirror.local, m.local)), s.stamps, m)
  }

  /** A turn is some steps of the machine, and keeps the till's table tied to the cloud's. */
  lemma TurnKeeps(s: Site, t: Turn) returns (steps: seq<Step>)
    requires SiteInv(s) && Allowed(s, t)
    ensures SiteInv(Next(s, t)) && Path(s.w, steps, Next(s, t).w)
  {
    match t
    case Does(step, st) =>
      steps := [step];
      StepKeeps(s.w, step);
      EvolvedMirrors(s.w.cloud.levels, s.stamps, Apply(s.w, step).cloud.levels, st, s.mirror);
      assert Path(Apply(s.w, step), [], Apply(s.w, step)) && [step][1..] == [];
    case Pulled(remote, m) =>
      var ps := Refetched(remote, s.mirror.local, m.local);
      steps := LevelsTakenSteps(s.w, ps);
      OrderlyIsPath(s.w, steps, LevelsTaken(s.w, ps));
      PathKeeps(s.w, steps, LevelsTaken(s.w, ps));
      LevelsTakenCaches(s.w, ps);
      PulledMirrors(s.w.cloud.levels, s.stamps, remote, s.mirror, m);
      PulledLinks(s, remote, m);
  }

  ghost predicate Run(s: Site, turns: seq<Turn>, s': Site)
    decreases |turns|
  {
    if turns == [] then s' == s else Allowed(s, turns[0]) && Run(Next(s, turns[0]), turns[1..], s')
  }

  lemma {:induction false} RunKeeps(s: Site, turns: seq<Turn>, s': Site) returns (steps: seq<Step>)
    requires SiteInv(s) && Run(s, turns, s')
    ensures SiteInv(s') && Path(s.w, steps, s'.w)
    decreases |turns|
  {
    steps := [];
    if turns != [] {
      var first := TurnKeeps(s, turns[0]);
      hide SiteInv, Allowed, Next, Path;
      var rest := RunKeeps(Next(s, turns[0]), turns[1..], s');
      PathJoin(s.w, first, Next(s, turns[0]).w, rest, s'.w);
      steps := first + rest;
    }
  }

  /** A till that has never pulled, before a cloud whose levels have some dates. */
  ghost predicate Opened(s: Site) {
    && Fresh(s.w) && Dated(s.w.cloud.levels, s.stamps) && EPOCH <= s.stamps.clock
    && s.mirror == Mirror(map[], map["updated_at" := EPOCH])
  }

  lemma OpenedInv(s: Site)
    requires Opened(s)
    ensures SiteInv(s)
  {
    FreshInv(s.w);
    var levels, cursor := s.w.cloud.levels, s.mirror.cursor;
    forall p | p in levels && p in s.stamps.of ensures Mirrored(levels, s.stamps, s.mirror, p) {
      MovedIsAfter(p, levels[p], s.stamps.of[p], cursor);
    }
  }

  /** What the till reports: its own copy of the level, and the deltas it still holds. */
  function Believed(s: Site, p: Product): int {
    LocalOnHand(s.mirror.local, p) + PendingStock(s.w.db, p)
  }

  /** Nothing in the table as it stands lies beyond the cursor: what a completed pull leaves. */
  ghost predicate UpToDate(s: Site) {
    forall p :: p in s.w.cloud.levels && p in s.stamps.of ==>
      Keyed(LEVELS, CurrentRow(s.w.cloud.levels, s.stamps, p))
      && !After(LEVELS, s.mirror.cursor, CurrentRow(s.w.cloud.levels, s.stamps, p))
  }

  /** A pull that returned with a token in hand leaves the till up to date. */
  lemma CompletedIsUpToDate(s: Site, remote: seq<Row>)
    requires Serves(s.w.cloud.levels, s.stamps, remote) && NothingAfter(remote, s.mirror.cursor)
    ensures UpToDate(s)
  {
    hide After, CurrentRow;
    var levels := s.w.cloud.levels;
    forall p | p in levels && p in s.stamps.of
      ensures Keyed(LEVELS, CurrentRow(levels, s.stamps, p)) && !After(LEVELS, s.mirror.cursor, CurrentRow(levels, s.stamps, p))
    {
      var k :| 0 <= k < |remote| && remote[k] == CurrentRow(levels, s.stamps, p);
    }
  }

  /**
    * Over every run of sales, sends, lost answers, other tills' moves and pulls cut off anywhere,
    * the truth differs from what the till reports by what landed since it last took that level,
    * plus what is absent, minus what it counted twice, plus what other tills moved since; and when
    * a pull has completed since and nothing is queued, for every product by the absent deltas alone.
    */
  lemma LevelsAgree(s: Site, turns: seq<Turn>, s': Site, p: Product)
    requires Opened(s) && Run(s, turns, s')
    ensures Truth(s'.w, p) - Believed(s', p)
         == SumWhere(s'.w.db.ledger, p, Unread(s'.w, p))
            + SumWhere(s'.w.db.ledger, p, Absent(s'.w))
            - SumWhere(s'.w.db.ledger, p, CountedTwice(s'.w, p))
            + At(s'.w.cloud.elsewhere, p) - CachedFor(s'.w.db, p).elsewhere
    ensures UpToDate(s') && Pending(s'.w.db.outbox) == [] ==>
      Truth(s'.w, p) - Believed(s', p) == SumWhere(s'.w.db.ledger, p, Absent(s'.w))
  {
    OpenedInv(s);
    var steps := RunKeeps(s, turns, s');
    hide Run, Unread, Absent, CountedTwice, Truth, PendingStock;
    StockAgreement(s.w, steps, s'.w, p);
    assert OnHand(s'.w.db, p) == Believed(s', p);
    if UpToDate(s') && Pending(s'.w.db.outbox) == [] {
      UpToDateLevel(s', p);
      SettledAgreement(s'.w, p);
    }
  }

  lemma UpToDateLevel(s: Site, p: Product)
    requires SiteInv(s) && UpToDate(s)
    ensures CachedFor(s.w.db, p).onHand == At(s.w.cloud.levels, p)
  {
    hide Inv, After, Usable, Watermark;
    var levels := s.w.cloud.levels;
    if p in levels {
      RowFacts(p, levels[p], s.stamps.of[p]);
      assert Mirrored(levels, s.stamps, s.mirror, p);
    } else {
      assert !Known(levels, [p]);
    }
  }
}

/// What the terminal believes it has on the shelf, against the ledger.
module Stock {
  import opened Wrappers
  import opened SyncStore
  import opened SyncSafety

  /** A delta the terminal still holds: the outbox row it travels with is unsynced. */
  predicate IsPending(db: Tables, l: LedgerRow) {
    exists i :: 0 <= i < |db.outbox| && !db.outbox[i].synced && Carries(db.outbox[i].Key(), l)
  }

  function PendingRows(db: Tables): LedgerRow -> bool {
    (l: LedgerRow) => IsPending(db, l)
  }

  function PendingStock(db: Tables, p: Product): int {
    SumWhere(db.ledger, p, PendingRows(db))
  }

  function CachedFor(db: Tables, p: Product): CachedLevel {
    if p in db.cached then db.cached[p] else CachedLevel(0, {}, 0)
  }

  function OnHand(db: Tables, p: Product): int {
    CachedFor(db, p).onHand + PendingStock(db, p)
  }

  // ---- The three kinds of disagreement ----

  function AllRowsOf(): LedgerRow -> bool {
    (l: LedgerRow) => true
  }

  /** Landed and acknowledged, but not in the level last pulled. */
  function Unread(w: World, p: Product): LedgerRow -> bool {
    var counted := CachedFor(w.db, p).counted;
    (l: LedgerRow) => !IsPending(w.db, l) && l.id in w.cloud.ledger && l.id !in counted
  }

  /** No longer queued, yet absent from the cloud: quarantined. */
  function Absent(w: World): LedgerRow -> bool {
    (l: LedgerRow) => !IsPending(w.db, l) && l.id !in w.cloud.ledger
  }

  /** In the level last pulled, yet still queued because the acknowledgement was lost. */
  function CountedTwice(w: World, p: Product): LedgerRow -> bool {
    var counted := CachedFor(w.db, p).counted;
    (l: LedgerRow) => IsPending(w.db, l) && l.id in counted
  }

  /** Everything that ever moved this product, here and on other tills. */
  function Truth(w: World, p: Product): int {
    At(w.cloud.elsewhere, p) + SumWhere(w.db.ledger, p, AllRowsOf())
  }

  lemma {:induction false} Classified(w: World, p: Product, ledger: seq<LedgerRow>)
    requires CachedFor(w.db, p).counted <= w.cloud.ledger
    ensures SumWhere(ledger, p, AllRowsOf())
         == SumWhere(ledger, p, InSet(CachedFor(w.db, p).counted)) + SumWhere(ledger, p, PendingRows(w.db))
            + SumWhere(ledger, p, Unread(w, p)) + SumWhere(ledger, p, Absent(w))
            - SumWhere(ledger, p, CountedTwice(w, p))
  {
    if ledger != [] { Classified(w, p, ledger[..|ledger| - 1]); }
  }

  /**
    * In every state any run reaches, the truth differs from `on_hand` by what landed and was
    * acknowledged since the last pull, plus what is neither queued nor in the cloud, minus
    * what the last pull counted while its acknowledgement was lost, plus what other tills
    * moved since the last pull.
    */
  lemma StockAgreement(w: World, steps: seq<Step>, w': World, p: Product)
    requires Fresh(w) && Path(w, steps, w')
    ensures Truth(w', p) - OnHand(w'.db, p)
         == SumWhere(w'.db.ledger, p, Unread(w', p))
            + SumWhere(w'.db.ledger, p, Absent(w'))
            - SumWhere(w'.db.ledger, p, CountedTwice(w', p))
            + At(w'.cloud.elsewhere, p) - CachedFor(w'.db, p).elsewhere
  {
    FreshInv(w);
    PathKeeps(w, steps, w');
    Classified(w', p, w'.db.ledger);
    if p !in w'.db.cached {
      SumNone(w'.db.ledger, p, InSet({}));
    }
  }

  lemma {:induction false} SumNone(ledger: seq<LedgerRow>, p: Product, keep: LedgerRow -> bool)
    requires forall l :: l in ledger ==> !keep(l)
    ensures SumWhere(ledger, p, keep) == 0
  {
    if ledger != [] { SumNone(ledger[..|ledger| - 1], p, keep); }
  }

  lemma {:induction false} SplitByCloud(w: World, p: Product, ledger: seq<LedgerRow>)
    requires forall l :: l in ledger ==> !IsPending(w.db, l)
    ensures SumWhere(ledger, p, AllRowsOf())
         == SumWhere(ledger, p, InSet(w.cloud.ledger)) + SumWhere(ledger, p, Absent(w))
  {
    if ledger != [] { SplitByCloud(w, p, ledger[..|ledger| - 1]); }
  }

  /** With nothing queued and the cloud's level in hand, only the absent deltas are missing. */
  lemma SettledAgreement(w: World, p: Product)
    requires Inv(w) && Pending(w.db.outbox) == [] && CachedFor(w.db, p).onHand == At(w.cloud.levels, p)
    ensures Truth(w, p) - OnHand(w.db, p) == SumWhere(w.db.ledger, p, Absent(w))
  {
    hide Queued, Owned, Landed, Kept, CachedFaithfully;
    forall i | 0 <= i < |w.db.outbox| ensures w.db.outbox[i].synced { assert i !in Pending(w.db.outbox); }
    SumNone(w.db.ledger, p, PendingRows(w.db));
    SplitByCloud(w, p, w.db.ledger);
  }

  lemma {:induction false} PathJoin(w: World, steps: seq<Step>, mid: World, more: seq<Step>, w': World)
    requires Path(w, steps, mid) && Path(mid, more, w')
    ensures Path(w, steps + more, w')
    decreases |steps|
  {
    hide Enabled, Apply;
    if steps == [] {
      assert steps + more == more;
    } else {
      PathJoin(Apply(w, steps[0]), steps[1..], mid, more, w');
      assert (steps + more)[1..] == steps[1..] + more;
    }
  }

  /** And an absent delta is never silent: its record stands in the failures list. */
  lemma AbsentIsReported(w: World, steps: seq<Step>, w': World, l: LedgerRow)
    requires Fresh(w) && Path(w, steps, w')
    requires l in w'.db.ledger && Absent(w')(l)
    ensures exists i, f :: 0 <= i < |w'.db.outbox| && 0 <= f < |w'.db.failures|
              && Carries(w'.db.outbox[i].Key(), l) && w'.db.failures[f] == Failure(Some(i), false)
  {
    FreshInv(w);
    PathKeeps(w, steps, w');
    var i :| 0 <= i < |w'.db.outbox| && w'.db.outbox[i].Key() == Owner(l);
    assert Carries(w'.db.outbox[i].Key(), l);
    assert SetAside(w'.db, i);
  }
}

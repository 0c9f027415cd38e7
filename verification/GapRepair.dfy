/** Backward repair of gaps in the finalized-block archive. */
module GapRepair {
  import opened Chain
  import opened DispatchGates
  import opened SyncerModel
  import opened SyncerRuns
  import opened SyncerTheorems

  /** What the node holds outside the archives: blocks by digest, and cached certificates by the digest they name. */
  datatype Local = Local(known: set<Digest>, cache: map<Digest, Certificate>)

  function Cached(l: Local, d: Digest): Option<Certificate> {
    if d in l.cache then Some(l.cache[d]) else None
  }

  /** Looks a block up by digest, in local storage and in the archive. */
  function FindBlock(l: Local, a: Archive, d: Digest): (b: Option<Block>)
    ensures b.Some? ==> b.value.Id() == d
  {
    if d.Seed? then None
    else if d in l.known || (d.block.height in a.blocks && a.blocks[d.block.height] == d.block) then Some(d.block)
    else None
  }

  // -------------------- Gaps --------------------

  /** A missing height with something stored above it. */
  ghost predicate IsGap(blocks: map<nat, Block>, start: nat, h: nat) {
    start <= h && h !in blocks && exists k :: k in blocks && k > h
  }

  lemma {:induction false} LeastExists(heights: set<nat>) returns (least: nat)
    requires heights != {}
    ensures least in heights && forall h :: h in heights ==> least <= h
    decreases |heights|
  {
    var x :| x in heights;
    if heights == {x} {
      least := x;
    } else {
      var rest := heights - {x};
      assert rest != {} by {
        assert heights == rest + {x};
      }
      var y := LeastExists(rest);
      least := if x <= y then x else y;
    }
  }

  function Least(heights: set<nat>): (least: nat)
    requires heights != {}
    ensures least in heights && forall h :: h in heights ==> least <= h
  {
    assert exists x :: x in heights && forall h :: h in heights ==> x <= h by {
      var x := LeastExists(heights);
    }
    var x :| x in heights && forall h :: h in heights ==> x <= h;
    x
  }

  function StoredFrom(blocks: map<nat, Block>, h: nat): set<nat> {
    set k | k in blocks && k >= h
  }

  function FirstMissing(blocks: map<nat, Block>, h: nat): (m: nat)
    ensures m >= h && m !in blocks
    ensures forall k :: h <= k < m ==> k in blocks
    decreases StoredFrom(blocks, h)
  {
    if h in blocks then
      assert h in StoredFrom(blocks, h) && h !in StoredFrom(blocks, h + 1);
      assert StoredFrom(blocks, h + 1) <= StoredFrom(blocks, h);
      FirstMissing(blocks, h + 1)
    else h
  }

  datatype Gap = Gap(low: nat, end: nat)

  /** The archive's first gap from `start` on: its lowest missing height and the stored height that ends it. */
  function NextGap(blocks: map<nat, Block>, start: nat): (g: Option<Gap>)
    ensures g.None? <==> forall h :: !IsGap(blocks, start, h)
    ensures g.Some? ==> start <= g.value.low < g.value.end && g.value.end in blocks
    ensures g.Some? ==> forall h :: g.value.low <= h < g.value.end ==> h !in blocks
  {
    var low := FirstMissing(blocks, start);
    var above := set h | h in blocks && h > low;
    if above == {} then
      assert forall h :: h in blocks && h > low ==> h in above;
      None
    else
      assert IsGap(blocks, start, low) by {
        assert Least(above) in blocks;
      }
      assert forall h :: low < h && h in blocks ==> h in above;
      Some(Gap(low, Least(above)))
  }

  // -------------------- Repair --------------------

  /** One walk from the end of a gap down to its low end; it stops at the first block whose parent is not found. */
  function Walk(c: Config, s: Sync, l: Local, cursor: Block, low: nat): (Sync, Option<Block>)
    decreases cursor
  {
    if cursor.height <= low then (s, None)
    else
      var found := FindBlock(l, s.vault.archive, cursor.parent);
      if found.None? then (s, Some(cursor))
      else Walk(c, Store(c, s, found.value, Cached(l, cursor.parent)), l, found.value, low)
  }

  /** `Awaiting` names the child of the missing block; `Diverges` stands for a loop that never ends. */
  datatype Outcome = Blocked | Complete | Awaiting(child: Block) | Diverges

  /** The known blocks whose heights hold nothing yet. */
  function Unstored(l: Local, blocks: map<nat, Block>): set<Digest> {
    set d | d in l.known && d.Hash? && d.block.height !in blocks
  }

  lemma {:induction false} WalkGrows(c: Config, s: Sync, l: Local, cursor: Block, low: nat)
    requires Indexed(s.vault.archive)
    ensures var t := Walk(c, s, l, cursor, low).0;
            && Within(s.vault.archive, t.vault.archive)
            && Indexed(t.vault.archive)
            && t.delivery == s.delivery
            && t.vault.durable == s.vault.durable
            && (t.vault.archive.blocks != s.vault.archive.blocks ==>
                 Unstored(l, t.vault.archive.blocks) < Unstored(l, s.vault.archive.blocks))
            && Unstored(l, t.vault.archive.blocks) <= Unstored(l, s.vault.archive.blocks)
    decreases cursor
  {
    if cursor.height <= low {
    } else {
      var found := FindBlock(l, s.vault.archive, cursor.parent);
      if found.Some? {
        var b := found.value;
        var n := Store(c, s, b, Cached(l, cursor.parent));
        if n.vault.archive.blocks != s.vault.archive.blocks {
          assert b.Id() in Unstored(l, s.vault.archive.blocks) && b.Id() !in Unstored(l, n.vault.archive.blocks);
        }
        WalkGrows(c, n, l, b, low);
      }
    }
  }

  /** `try_repair_gaps` from a processed floor. */
  function Repair(c: Config, s: Sync, l: Local): (Sync, Outcome)
    requires Indexed(s.vault.archive)
    decreases Unstored(l, s.vault.archive.blocks)
  {
    var blocks := s.vault.archive.blocks;
    var gap := NextGap(blocks, s.delivery.floor.height + 1);
    if gap.None? then (s, Complete)
    else
      var walk := Walk(c, s, l, blocks[gap.value.end], gap.value.low);
      WalkGrows(c, s, l, blocks[gap.value.end], gap.value.low);
      if walk.1.Some? then (walk.0, Awaiting(walk.1.value))
      else if walk.0.vault.archive.blocks == blocks then (walk.0, Diverges)
      else Repair(c, walk.0, l)
  }

  function TryRepair(c: Config, s: Sync, l: Local): (Sync, Outcome)
    requires Indexed(s.vault.archive)
  {
    if s.delivery.floor.anchor.Some? then (s, Blocked) else Repair(c, s, l)
  }

  /** Repair is one walk and, if that made progress, the rest of the repair. */
  lemma {:induction false} RepairStep(c: Config, s: Sync, l: Local, t: Sync, stop: Option<Block>)
    requires Indexed(s.vault.archive) && Indexed(t.vault.archive)
    requires var gap := NextGap(s.vault.archive.blocks, s.delivery.floor.height + 1);
             gap.Some? && Walk(c, s, l, s.vault.archive.blocks[gap.value.end], gap.value.low) == (t, stop)
    ensures Repair(c, s, l) == if stop.Some? then (t, Awaiting(stop.value))
                               else if t.vault.archive.blocks == s.vault.archive.blocks then (t, Diverges)
                               else Repair(c, t, l)
  {
  }

  /** What follows a change of the floor: repair, a full sync if it wrote, dispatch. */
  function Resume(c: Config, s: Sync, l: Local): (Sync, Outcome)
    requires Indexed(s.vault.archive)
  {
    var r := TryRepair(c, s, l);
    if r.1.Diverges? then r
    else
      var t := if r.0.vault.writes.heights == s.vault.writes.heights then r.0 else r.0.(vault := SyncAll(r.0.vault));
      (TryDispatch(c, t), r.1)
  }

  // -------------------- Repair is a run of stores --------------------

  lemma {:induction false} ActConcat(c: Config, s: Sync, first: seq<Action>, second: seq<Action>)
    ensures ActAll(c, s, first + second) == ActAll(c, ActAll(c, s, first), second)
    decreases |second|
  {
    var both := first + second;
    if second == [] {
      assert both == first;
    } else {
      assert both[..|both| - 1] == first + second[..|second| - 1];
      ActConcat(c, s, first, second[..|second| - 1]);
    }
  }

  lemma {:induction false} WalkIsStores(c: Config, s: Sync, l: Local, cursor: Block, low: nat)
    returns (stores: seq<Action>)
    ensures forall i :: 0 <= i < |stores| ==> stores[i].StoreFinalized?
    ensures ActAll(c, s, stores) == Walk(c, s, l, cursor, low).0
    decreases cursor
  {
    stores := [];
    if cursor.height <= low {
    } else {
      var found := FindBlock(l, s.vault.archive, cursor.parent);
      if found.Some? {
        var a := StoreFinalized(found.value, Cached(l, cursor.parent));
        var rest := WalkIsStores(c, Act(c, s, a), l, found.value, low);
        stores := [a] + rest;
        ActConcat(c, s, [a], rest);
        assert [a][..0] == [] && ActAll(c, s, [a]) == Act(c, s, a);
      }
    }
  }

  lemma {:induction false} RoundIsStores(c: Config, s: Sync, l: Local, cursor: Block, low: nat)
    returns (t: Sync, stop: Option<Block>, stores: seq<Action>)
    requires Indexed(s.vault.archive)
    ensures Walk(c, s, l, cursor, low) == (t, stop) && ActAll(c, s, stores) == t
    ensures forall i :: 0 <= i < |stores| ==> stores[i].StoreFinalized?
    ensures Indexed(t.vault.archive)
    ensures t.vault.archive.blocks != s.vault.archive.blocks ==>
            Unstored(l, t.vault.archive.blocks) < Unstored(l, s.vault.archive.blocks)
  {
    t, stop := Walk(c, s, l, cursor, low).0, Walk(c, s, l, cursor, low).1;
    WalkGrows(c, s, l, cursor, low);
    stores := WalkIsStores(c, s, l, cursor, low);
  }

  /** Repair does nothing but store blocks, so everything proved of runs holds of runs with repairs. */
  lemma {:induction false} RepairIsStores(c: Config, s: Sync, l: Local) returns (stores: seq<Action>)
    requires Indexed(s.vault.archive)
    ensures forall i :: 0 <= i < |stores| ==> stores[i].StoreFinalized?
    ensures ActAll(c, s, stores) == Repair(c, s, l).0
    decreases Unstored(l, s.vault.archive.blocks)
  {
    stores := [];
    var gap := NextGap(s.vault.archive.blocks, s.delivery.floor.height + 1);
    if gap.None? {
    } else {
      var t, stop;
      t, stop, stores := RoundIsStores(c, s, l, s.vault.archive.blocks[gap.value.end], gap.value.low);
      RepairStep(c, s, l, t, stop);
      if stop.None? && t.vault.archive.blocks != s.vault.archive.blocks {
        var rest := RepairIsStores(c, t, l);
        ActConcat(c, s, stores, rest);
        stores := stores + rest;
      }
    }
  }

  // -------------------- A stuck round repeats --------------------

  /** A store that adds no block adds none either once the archive holds more certificates. */
  lemma {:induction false} StuckStoreRepeats(c: Config, s: Sync, t: Sync, b: Block, cert: Option<Certificate>)
    requires Store(c, s, b, cert).vault.archive.blocks == s.vault.archive.blocks == t.vault.archive.blocks
    requires Within(s.vault.archive, t.vault.archive) && t.delivery == s.delivery
    requires Within(Store(c, s, b, cert).vault.archive, t.vault.archive)
    ensures Store(c, t, b, cert).vault.archive.blocks == t.vault.archive.blocks
    ensures Within(t.vault.archive, Store(c, t, b, cert).vault.archive)
  {
  }

  /**
   A walk that stored nothing new stores nothing new when it is repeated, and
   takes the same path: the loop in the source never ends.
   */
  lemma {:induction false} StuckWalkRepeats(c: Config, s: Sync, t: Sync, l: Local, cursor: Block, low: nat)
    requires Indexed(s.vault.archive)
    requires Walk(c, s, l, cursor, low).0.vault.archive.blocks == s.vault.archive.blocks
    requires t.vault.archive.blocks == s.vault.archive.blocks && t.delivery == s.delivery
    requires Within(Walk(c, s, l, cursor, low).0.vault.archive, t.vault.archive)
    ensures Walk(c, t, l, cursor, low).0.vault.archive.blocks == s.vault.archive.blocks
    ensures Walk(c, t, l, cursor, low).1 == Walk(c, s, l, cursor, low).1
    decreases cursor
  {
    if cursor.height <= low || FindBlock(l, s.vault.archive, cursor.parent).None? {
    } else {
      var b := FindBlock(l, s.vault.archive, cursor.parent).value;
      var cert := Cached(l, cursor.parent);
      var n := Store(c, s, b, cert);
      WalkGrows(c, s, l, cursor, low);
      WalkGrows(c, n, l, b, low);
      BetweenIsSame(s.vault.archive, n.vault.archive, Walk(c, n, l, b, low).0.vault.archive);
      StuckStoreRepeats(c, s, t, b, cert);
      StuckWalkRepeats(c, n, Store(c, t, b, cert), l, b, low);
    }
  }

  lemma {:induction false} BetweenIsSame(a: Archive, b: Archive, z: Archive)
    requires (forall h :: h in a.blocks ==> h in b.blocks && b.blocks[h] == a.blocks[h]) && Within(b, z)
             && z.blocks == a.blocks
    ensures b.blocks == a.blocks
  {
  }

  // -------------------- On one chain --------------------

  /** Parent-linked blocks of consecutive heights. What block 1 names as its parent is the chain's own affair. */
  ghost predicate Linked(canon: nat -> Block) {
    && (forall h: nat :: canon(h).height == h)
    && (forall h: nat {:trigger LinkedAt(canon, h)} :: h > 0 ==> LinkedAt(canon, h))
  }

  ghost predicate LinkedAt(canon: nat -> Block, h: nat) {
    canon(h + 1).parent == canon(h).Id()
  }

  ghost predicate OnCanon(canon: nat -> Block, blocks: map<nat, Block>) {
    forall h :: h in blocks ==> blocks[h] == canon(h)
  }

  /** The archive accepts the block of this height. */
  ghost predicate Accepted(c: Config, s: Sync, l: Local, canon: nat -> Block, h: nat) {
    Storable(c, s.delivery.floor.height, s.vault.archive, canon(h), Cached(l, canon(h).Id()))
  }

  ghost function Missing(blocks: map<nat, Block>, start: nat): set<nat> {
    set k, h | k in blocks && start <= h < k && h !in blocks :: h
  }

  /** Storing at one height does not change what the archive accepts at another. */
  lemma {:induction false} AcceptedElsewhere(c: Config, s: Sync, l: Local, canon: nat -> Block, b: Block,
                                             cert: Option<Certificate>, h: nat)
    requires Linked(canon) && h != b.height
    ensures Accepted(c, Store(c, s, b, cert), l, canon, h) <==> Accepted(c, s, l, canon, h)
  {
  }

  /** `t` is `s` with exactly the accepted blocks between `low` and `end` stored. */
  ghost predicate Filled(c: Config, s: Sync, t: Sync, l: Local, canon: nat -> Block, low: nat, end: nat) {
    && t.delivery == s.delivery
    && OnCanon(canon, t.vault.archive.blocks)
    && (forall h :: h in t.vault.archive.blocks <==>
          h in s.vault.archive.blocks || (low <= h < end && Accepted(c, s, l, canon, h)))
    && (forall h: nat :: h < low || end <= h || !Accepted(c, s, l, canon, h) ==>
          (Accepted(c, t, l, canon, h) <==> Accepted(c, s, l, canon, h)))
  }

  /** A walk over known, missing blocks stores exactly those the archive accepts. */
  lemma {:induction false} WalkFills(c: Config, s: Sync, l: Local, canon: nat -> Block, cursor: Block, low: nat)
    requires Linked(canon) && OnCanon(canon, s.vault.archive.blocks) && cursor == canon(cursor.height) && low > 0
    requires forall h :: low <= h < cursor.height ==> h !in s.vault.archive.blocks && canon(h).Id() in l.known
    ensures var w := Walk(c, s, l, cursor, low);
            w.1.None? && Filled(c, s, w.0, l, canon, low, cursor.height)
    decreases cursor
  {
    if cursor.height <= low {
    } else {
      var h := cursor.height - 1;
      var b := canon(h);
      assert LinkedAt(canon, h);
      var n := Store(c, s, b, Cached(l, b.Id()));
      assert FindBlock(l, s.vault.archive, cursor.parent) == Some(b);
      forall k: nat | k != h
        ensures Accepted(c, n, l, canon, k) <==> Accepted(c, s, l, canon, k)
      {
        AcceptedElsewhere(c, s, l, canon, b, Cached(l, b.Id()), k);
      }
      WalkFills(c, n, l, canon, b, low);
    }
  }

  ghost function Heights(low: nat, end: nat): set<nat> {
    set h: nat {:trigger h in Heights(low, end)} | low <= h < end
  }

  /** Filling part of a gap leaves the other gaps as they are. */
  lemma {:induction false} FillingGaps(before: map<nat, Block>, after: map<nat, Block>, start: nat, g: Gap, h: nat)
    requires g.end in before
    requires forall k :: k in before ==> k in after
    requires forall k :: k in after && k !in before ==> g.low <= k < g.end
    ensures IsGap(after, start, h) <==> IsGap(before, start, h) && h !in after
  {
    if IsGap(after, start, h) {
      var k :| k in after && k > h;
      assert k in before || g.end > h;
    }
  }

  lemma {:induction false} ClosingGap(before: map<nat, Block>, after: map<nat, Block>, start: nat, g: Gap)
    requires NextGap(before, start) == Some(g)
    requires forall h :: h in after <==> h in before || g.low <= h < g.end
    ensures Missing(after, start) == Missing(before, start) - Heights(g.low, g.end)
    ensures Missing(after, start) < Missing(before, start)
  {
    assert g.end in before && g.low in Missing(before, start) && g.low in Heights(g.low, g.end);
    forall h: nat
      ensures h in Missing(before, start) <==> IsGap(before, start, h)
      ensures h in Missing(after, start) <==> IsGap(after, start, h)
    {
    }
    forall h: nat
      ensures h in Missing(after, start) <==> h in Missing(before, start) && h !in Heights(g.low, g.end)
    {
      FillingGaps(before, after, start, g, h);
    }
  }

  /**
   * When every block of the first gap is known and accepted, one round closes it: strictly fewer heights are missing.
   */
  lemma {:induction false} RoundClosesGap(c: Config, s: Sync, l: Local, canon: nat -> Block, g: Gap)
    requires Linked(canon) && OnCanon(canon, s.vault.archive.blocks)
    requires NextGap(s.vault.archive.blocks, s.delivery.floor.height + 1) == Some(g)
    requires forall h :: g.low <= h < g.end ==> canon(h).Id() in l.known && Accepted(c, s, l, canon, h)
    ensures var start := s.delivery.floor.height + 1;
            var w := Walk(c, s, l, s.vault.archive.blocks[g.end], g.low);
            && w.1.None?
            && Missing(w.0.vault.archive.blocks, start) < Missing(s.vault.archive.blocks, start)
            && Missing(w.0.vault.archive.blocks, start) ==
               Missing(s.vault.archive.blocks, start) - Heights(g.low, g.end)
  {
    var before := s.vault.archive.blocks;
    WalkFills(c, s, l, canon, before[g.end], g.low);
    var t := Walk(c, s, l, before[g.end], g.low).0;
    FilledCloses(c, s, t, l, canon, g);
  }

  lemma {:induction false} FilledCloses(c: Config, s: Sync, t: Sync, l: Local, canon: nat -> Block, g: Gap)
    requires NextGap(s.vault.archive.blocks, s.delivery.floor.height + 1) == Some(g)
    requires Filled(c, s, t, l, canon, g.low, g.end)
    requires forall h :: g.low <= h < g.end ==> Accepted(c, s, l, canon, h)
    ensures var start := s.delivery.floor.height + 1;
            && Missing(t.vault.archive.blocks, start) < Missing(s.vault.archive.blocks, start)
            && Missing(t.vault.archive.blocks, start) == Missing(s.vault.archive.blocks, start) - Heights(g.low, g.end)
  {
    ClosingGap(s.vault.archive.blocks, t.vault.archive.blocks, s.delivery.floor.height + 1, g);
  }

  // -------------------- When repair ends --------------------

  ghost predicate KnownAt(l: Local, canon: nat -> Block, h: nat) {
    canon(h).Id() in l.known
  }

  /** Every missing block is known and the archive accepts it. */
  ghost predicate Repairable(c: Config, s: Sync, l: Local, canon: nat -> Block) {
    forall h: nat :: IsGap(s.vault.archive.blocks, s.delivery.floor.height + 1, h) ==>
      KnownAt(l, canon, h) && Accepted(c, s, l, canon, h)
  }

  /** `e` is the first stored height above the missing height `h`. */
  ghost predicate EndsGap(blocks: map<nat, Block>, h: nat, e: nat) {
    h < e && e in blocks && forall k :: h <= k < e ==> k !in blocks
  }

  /** A refused block whose gap, like every gap below it, is known from end to end. */
  ghost predicate StuckAt(c: Config, s: Sync, l: Local, canon: nat -> Block, h: nat, e: nat) {
    var blocks, start := s.vault.archive.blocks, s.delivery.floor.height + 1;
    && start <= h && EndsGap(blocks, h, e) && !Accepted(c, s, l, canon, h)
    && forall k: nat :: start <= k < e && k !in blocks ==> KnownAt(l, canon, k)
  }

  ghost predicate Stuck(c: Config, s: Sync, l: Local, canon: nat -> Block) {
    exists h: nat, e: nat :: StuckAt(c, s, l, canon, h, e)
  }

  lemma {:induction false} GapHeights(blocks: map<nat, Block>, start: nat, g: Gap)
    requires NextGap(blocks, start) == Some(g)
    ensures forall h {:trigger IsGap(blocks, start, h)} :: g.low <= h < g.end ==> IsGap(blocks, start, h)
    ensures forall h :: start <= h < g.low ==> h in blocks
  {
  }

  lemma {:induction false} GapEnd(blocks: map<nat, Block>, start: nat, h: nat) returns (e: nat)
    requires IsGap(blocks, start, h)
    ensures EndsGap(blocks, h, e)
  {
    var above := set k | k in blocks && k > h;
    var k :| k in blocks && k > h;
    assert k in above;
    e := Least(above);
    forall j | h <= j < e
      ensures j !in blocks
    {
      assert j in blocks && j > h ==> j in above;
    }
  }

  /** Where repair gets stuck, the first gap is known throughout. */
  lemma {:induction false} StuckBeyondGap(c: Config, s: Sync, l: Local, canon: nat -> Block, g: Gap, h: nat, e: nat)
    requires NextGap(s.vault.archive.blocks, s.delivery.floor.height + 1) == Some(g)
    requires StuckAt(c, s, l, canon, h, e)
    ensures forall k: nat :: g.low <= k < g.end ==> KnownAt(l, canon, k)
  {
    GapHeights(s.vault.archive.blocks, s.delivery.floor.height + 1, g);
    assert h !in s.vault.archive.blocks && e in s.vault.archive.blocks;
    assert h >= g.low && e >= g.end;
  }

  /** A stuck block is a known gap block. */
  lemma {:induction false} StuckIsKnown(c: Config, s: Sync, l: Local, canon: nat -> Block, h: nat, e: nat)
    requires StuckAt(c, s, l, canon, h, e)
    ensures IsGap(s.vault.archive.blocks, s.delivery.floor.height + 1, h) && KnownAt(l, canon, h)
  {
  }

  /** An unknown block in the first gap stops the walk, and nothing is stuck. */
  lemma {:induction false} UnknownIsNotStuck(c: Config, s: Sync, l: Local, canon: nat -> Block, g: Gap, h: nat)
    requires NextGap(s.vault.archive.blocks, s.delivery.floor.height + 1) == Some(g)
    requires g.low <= h < g.end && !KnownAt(l, canon, h)
    ensures !Stuck(c, s, l, canon) && !Repairable(c, s, l, canon)
  {
    var blocks, start := s.vault.archive.blocks, s.delivery.floor.height + 1;
    GapHeights(blocks, start, g);
    assert IsGap(blocks, start, h);
    forall j: nat, e: nat
      ensures !StuckAt(c, s, l, canon, j, e)
    {
      if StuckAt(c, s, l, canon, j, e) {
        StuckBeyondGap(c, s, l, canon, g, j, e);
      }
    }
  }

  lemma {:induction false} WalkStops(c: Config, s: Sync, l: Local, canon: nat -> Block, cursor: Block, low: nat, h: nat)
    requires Linked(canon) && OnCanon(canon, s.vault.archive.blocks) && cursor == canon(cursor.height)
    requires 0 < low <= h < cursor.height && !KnownAt(l, canon, h)
    requires forall k :: low <= k < cursor.height ==> k !in s.vault.archive.blocks
    ensures Walk(c, s, l, cursor, low).1.Some?
    decreases cursor
  {
    assert LinkedAt(canon, cursor.height - 1);
    var b := canon(cursor.height - 1);
    if FindBlock(l, s.vault.archive, cursor.parent).None? {
    } else {
      WalkStops(c, Store(c, s, b, Cached(l, b.Id())), l, canon, b, low, h);
    }
  }

  /** Storing what is accepted of a known gap leaves a refused block stuck, and nothing else. */
  lemma {:induction false} FilledKeepsStuck(c: Config, s: Sync, t: Sync, l: Local, canon: nat -> Block, g: Gap)
    requires NextGap(s.vault.archive.blocks, s.delivery.floor.height + 1) == Some(g)
    requires Filled(c, s, t, l, canon, g.low, g.end)
    requires forall h: nat :: g.low <= h < g.end ==> KnownAt(l, canon, h)
    ensures Stuck(c, s, l, canon) ==> Stuck(c, t, l, canon)
  {
    var blocks, after := s.vault.archive.blocks, t.vault.archive.blocks;
    var start := s.delivery.floor.height + 1;
    if Stuck(c, s, l, canon) {
      var h: nat, e: nat :| StuckAt(c, s, l, canon, h, e);
      if h < g.end {
        assert h !in after && e in after;
        assert IsGap(after, start, h);
        var f := GapEnd(after, start, h);
        assert StuckAt(c, t, l, canon, h, f);
      } else {
        assert StuckAt(c, t, l, canon, h, e);
      }
    }
  }

  lemma {:induction false} FilledAddsNoStuck(c: Config, s: Sync, t: Sync, l: Local, canon: nat -> Block, g: Gap)
    requires NextGap(s.vault.archive.blocks, s.delivery.floor.height + 1) == Some(g)
    requires Filled(c, s, t, l, canon, g.low, g.end)
    requires forall h: nat :: g.low <= h < g.end ==> KnownAt(l, canon, h)
    ensures Stuck(c, t, l, canon) ==> Stuck(c, s, l, canon)
    ensures t.vault.archive.blocks == s.vault.archive.blocks ==> Stuck(c, s, l, canon) && !Repairable(c, s, l, canon)
  {
    var blocks, after := s.vault.archive.blocks, t.vault.archive.blocks;
    var start := s.delivery.floor.height + 1;
    GapHeights(blocks, start, g);
    if Stuck(c, t, l, canon) {
      var h: nat, e: nat :| StuckAt(c, t, l, canon, h, e);
      if h < g.end {
        assert StuckAt(c, s, l, canon, h, g.end);
      } else {
        assert StuckAt(c, s, l, canon, h, e);
      }
    }
    if after == blocks {
      assert StuckAt(c, s, l, canon, g.low, g.end);
      assert IsGap(blocks, start, g.low);
    }
  }

  lemma {:induction false} FilledKeepsRepairable(c: Config, s: Sync, t: Sync, l: Local, canon: nat -> Block, g: Gap)
    requires NextGap(s.vault.archive.blocks, s.delivery.floor.height + 1) == Some(g)
    requires Filled(c, s, t, l, canon, g.low, g.end)
    requires forall h: nat :: g.low <= h < g.end ==> KnownAt(l, canon, h)
    ensures Repairable(c, t, l, canon) <==> Repairable(c, s, l, canon)
  {
    var start := s.delivery.floor.height + 1;
    var before, after := s.vault.archive.blocks, t.vault.archive.blocks;
    forall h: nat
      ensures IsGap(after, start, h) <==> IsGap(before, start, h) && h !in after
    {
      FillingGaps(before, after, start, g, h);
    }
  }

  /** One round of a repair, seen from what it leaves to decide. */
  lemma {:induction false} RoundDecides(c: Config, s: Sync, l: Local, canon: nat -> Block, g: Gap)
    returns (t: Sync, stop: Option<Block>)
    requires Linked(canon) && Indexed(s.vault.archive) && OnCanon(canon, s.vault.archive.blocks)
    requires NextGap(s.vault.archive.blocks, s.delivery.floor.height + 1) == Some(g)
    ensures Walk(c, s, l, s.vault.archive.blocks[g.end], g.low) == (t, stop)
    ensures Indexed(t.vault.archive)
    ensures t.vault.archive.blocks != s.vault.archive.blocks ==>
              Unstored(l, t.vault.archive.blocks) < Unstored(l, s.vault.archive.blocks)
    ensures stop.Some? ==> !Stuck(c, s, l, canon) && !Repairable(c, s, l, canon)
    ensures stop.None? ==>
              && OnCanon(canon, t.vault.archive.blocks)
              && (Stuck(c, t, l, canon) <==> Stuck(c, s, l, canon))
              && (Repairable(c, t, l, canon) <==> Repairable(c, s, l, canon))
    ensures stop.None? && t.vault.archive.blocks == s.vault.archive.blocks ==>
              Stuck(c, s, l, canon) && !Repairable(c, s, l, canon)
  {
    var cursor := s.vault.archive.blocks[g.end];
    WalkGrows(c, s, l, cursor, g.low);
    t, stop := Walk(c, s, l, cursor, g.low).0, Walk(c, s, l, cursor, g.low).1;
    if h: nat :| g.low <= h < g.end && !KnownAt(l, canon, h) {
      WalkStops(c, s, l, canon, cursor, g.low, h);
      UnknownIsNotStuck(c, s, l, canon, g, h);
    } else {
      assert cursor.height == g.end;
      forall h | g.low <= h < g.end
        ensures canon(h).Id() in l.known
      {
        assert KnownAt(l, canon, h);
      }
      WalkFills(c, s, l, canon, cursor, g.low);
      FilledKeepsStuck(c, s, t, l, canon, g);
      FilledAddsNoStuck(c, s, t, l, canon, g);
      FilledKeepsRepairable(c, s, t, l, canon, g);
    }
  }

  /**
   Repair completes exactly when every missing block is known and accepted. It
   never ends exactly when some block is refused although its gap and all gaps
   below it are known from end to end. In every other case it stops for a block.
   */
  lemma {:induction false} RepairExact(c: Config, s: Sync, l: Local, canon: nat -> Block)
    requires Linked(canon) && Indexed(s.vault.archive) && OnCanon(canon, s.vault.archive.blocks)
    ensures Repair(c, s, l).1.Complete? <==> Repairable(c, s, l, canon)
    ensures Repair(c, s, l).1.Diverges? <==> Stuck(c, s, l, canon)
    ensures !Repair(c, s, l).1.Blocked?
    decreases Unstored(l, s.vault.archive.blocks)
  {
    var gap := NextGap(s.vault.archive.blocks, s.delivery.floor.height + 1);
    if gap.None? {
      NoGapNotStuck(c, s, l, canon);
    } else {
      var t, stop := RoundDecides(c, s, l, canon, gap.value);
      RepairStep(c, s, l, t, stop);
      if stop.None? && t.vault.archive.blocks != s.vault.archive.blocks {
        RepairExact(c, t, l, canon);
      }
    }
  }

  lemma {:induction false} NoGapNotStuck(c: Config, s: Sync, l: Local, canon: nat -> Block)
    requires NextGap(s.vault.archive.blocks, s.delivery.floor.height + 1).None?
    ensures !Stuck(c, s, l, canon) && Repairable(c, s, l, canon)
  {
    forall h: nat, e: nat
      ensures !StuckAt(c, s, l, canon, h, e)
    {
      assert !IsGap(s.vault.archive.blocks, s.delivery.floor.height + 1, h);
    }
  }

  /** If the archive accepts every missing block that is known, repair ends. */
  lemma {:induction false} RepairEnds(c: Config, s: Sync, l: Local, canon: nat -> Block)
    requires Linked(canon) && Indexed(s.vault.archive) && OnCanon(canon, s.vault.archive.blocks)
    requires forall h: nat :: IsGap(s.vault.archive.blocks, s.delivery.floor.height + 1, h) && KnownAt(l, canon, h) ==>
               Accepted(c, s, l, canon, h)
    ensures Repair(c, s, l).1.Complete? || Repair(c, s, l).1.Awaiting?
  {
    RepairExact(c, s, l, canon);
    var blocks, start := s.vault.archive.blocks, s.delivery.floor.height + 1;
    forall h: nat, e: nat
      ensures !StuckAt(c, s, l, canon, h, e)
    {
      if StuckAt(c, s, l, canon, h, e) {
        StuckIsKnown(c, s, l, canon, h, e);
      }
    }
  }

  /** With every missing block known, repair completes exactly when none is refused, and otherwise never ends. */
  lemma {:induction false} KnownGapsExact(c: Config, s: Sync, l: Local, canon: nat -> Block)
    requires Linked(canon) && Indexed(s.vault.archive) && OnCanon(canon, s.vault.archive.blocks)
    requires forall h: nat :: IsGap(s.vault.archive.blocks, s.delivery.floor.height + 1, h) ==> KnownAt(l, canon, h)
    ensures Repair(c, s, l).1 == if Repairable(c, s, l, canon) then Complete else Diverges
  {
    RepairExact(c, s, l, canon);
    var blocks, start := s.vault.archive.blocks, s.delivery.floor.height + 1;
    if !Repairable(c, s, l, canon) {
      var h: nat :| IsGap(blocks, start, h) && !Accepted(c, s, l, canon, h);
      var e := GapEnd(blocks, start, h);
      forall k: nat | start <= k < e && k !in blocks
        ensures KnownAt(l, canon, k)
      {
        assert IsGap(blocks, start, k);
      }
      assert StuckAt(c, s, l, canon, h, e);
    }
  }

  /** The walk never leaves the chain, and where it stops the parent is unknown. */
  lemma {:induction false} WalkOnChain(c: Config, s: Sync, l: Local, canon: nat -> Block, cursor: Block, low: nat)
    requires Linked(canon) && OnCanon(canon, s.vault.archive.blocks) && cursor == canon(cursor.height) && low > 0
    ensures var w := Walk(c, s, l, cursor, low);
            && OnCanon(canon, w.0.vault.archive.blocks)
            && w.0.delivery == s.delivery
            && (w.1.Some? ==>
                  var h := w.1.value.height;
                  && low < h <= cursor.height && w.1.value == canon(h)
                  && canon(h - 1).Id() !in l.known && h - 1 !in w.0.vault.archive.blocks)
    decreases cursor
  {
    if cursor.height <= low {
    } else {
      assert LinkedAt(canon, cursor.height - 1);
      var b := canon(cursor.height - 1);
      var found := FindBlock(l, s.vault.archive, cursor.parent);
      if found.Some? {
        WalkOnChain(c, Store(c, s, b, Cached(l, b.Id())), l, canon, b, low);
      }
    }
  }

  /** What is stored above `start` reaches down to it without a gap, each block naming the one below as its parent. */
  ghost predicate OneChain(blocks: map<nat, Block>, start: nat) {
    forall h :: h in blocks && h > start ==> h - 1 in blocks && blocks[h].parent == blocks[h - 1].Id()
  }

  lemma {:induction false} NoGapIsOneChain(blocks: map<nat, Block>, start: nat, canon: nat -> Block)
    requires Linked(canon) && OnCanon(canon, blocks) && NextGap(blocks, start).None? && start > 0
    ensures OneChain(blocks, start)
  {
    forall h | h in blocks && h > start
      ensures h - 1 in blocks && blocks[h].parent == blocks[h - 1].Id()
    {
      assert !IsGap(blocks, start, h - 1);
      assert LinkedAt(canon, h - 1);
    }
  }

  /** `child` is a block of the chain above `start` whose parent is neither stored nor known. */
  ghost predicate LacksParent(l: Local, canon: nat -> Block, start: nat, blocks: map<nat, Block>, child: Block) {
    var h := child.height;
    start < h && child == canon(h) && IsGap(blocks, start, h - 1) && !KnownAt(l, canon, h - 1)
  }

  ghost predicate Repaired(l: Local, canon: nat -> Block, start: nat, blocks: map<nat, Block>, o: Outcome) {
    && OnCanon(canon, blocks)
    && (o.Complete? ==> OneChain(blocks, start))
    && (o.Awaiting? ==> LacksParent(l, canon, start, blocks, o.child))
  }

  /** One round: what it leaves in the archive, and what is left of the repair after it. */
  lemma {:induction false} RoundOnChain(c: Config, s: Sync, l: Local, canon: nat -> Block, g: Gap)
    returns (t: Sync, stop: Option<Block>)
    requires Linked(canon) && Indexed(s.vault.archive) && OnCanon(canon, s.vault.archive.blocks)
    requires NextGap(s.vault.archive.blocks, s.delivery.floor.height + 1) == Some(g)
    ensures Walk(c, s, l, s.vault.archive.blocks[g.end], g.low) == (t, stop)
    ensures t.delivery == s.delivery && Indexed(t.vault.archive)
    ensures t.vault.archive.blocks != s.vault.archive.blocks ==>
              Unstored(l, t.vault.archive.blocks) < Unstored(l, s.vault.archive.blocks)
    ensures OnCanon(canon, t.vault.archive.blocks)
    ensures stop.Some? ==> LacksParent(l, canon, s.delivery.floor.height + 1, t.vault.archive.blocks, stop.value)
  {
    var cursor := s.vault.archive.blocks[g.end];
    assert cursor == canon(g.end);
    WalkGrows(c, s, l, cursor, g.low);
    WalkOnChain(c, s, l, canon, cursor, g.low);
    t, stop := Walk(c, s, l, cursor, g.low).0, Walk(c, s, l, cursor, g.low).1;
  }

  /**
   Repair stays on the chain. If it stops for a block, that block is missing and
   unknown; if it completes, what is stored from the processed height on is one
   hash-linked chain without a gap.
   */
  lemma {:induction false} RepairLeavesChain(c: Config, s: Sync, l: Local, canon: nat -> Block)
    returns (t: Sync, o: Outcome)
    requires Linked(canon) && Indexed(s.vault.archive) && OnCanon(canon, s.vault.archive.blocks)
    ensures Repair(c, s, l) == (t, o) && t.delivery == s.delivery
    ensures Repaired(l, canon, s.delivery.floor.height + 1, t.vault.archive.blocks, o)
    decreases Unstored(l, s.vault.archive.blocks)
  {
    var gap := NextGap(s.vault.archive.blocks, s.delivery.floor.height + 1);
    if gap.None? {
      NoGapIsOneChain(s.vault.archive.blocks, s.delivery.floor.height + 1, canon);
      t, o := s, Complete;
    } else {
      var next, stop := RoundOnChain(c, s, l, canon, gap.value);
      RepairStep(c, s, l, next, stop);
      if stop.Some? {
        t, o := next, Awaiting(stop.value);
      } else if next.vault.archive.blocks == s.vault.archive.blocks {
        t, o := next, Diverges;
      } else {
        t, o := RepairLeavesChain(c, next, l, canon);
      }
    }
  }

  // -------------------- Requests --------------------

  /** A request to peers: the finalization of a height, or a block by digest when its height is known. */
  datatype Request = FinalizedAt(height: nat) | BlockAt(digest: Digest, height: nat)

  /** Requests at or below the processed height are not sent. */
  predicate Permits(f: Floor, r: Request) {
    r.height > f.height
  }

  function Permitted(f: Floor, requests: seq<Request>): seq<Request> {
    if requests == [] then []
    else (if Permits(f, requests[0]) then [requests[0]] else []) + Permitted(f, requests[1..])
  }

  /** The archive's lowest missing heights from `start` on, at most `count` of them. */
  function MissingItems(blocks: map<nat, Block>, start: nat, count: nat): seq<nat>
    decreases count
  {
    var gap := NextGap(blocks, start);
    if count == 0 || gap.None? then [] else [gap.value.low] + MissingItems(blocks, gap.value.low + 1, count - 1)
  }

  lemma {:induction false} NextIsLeast(blocks: map<nat, Block>, start: nat, g: Gap)
    requires NextGap(blocks, start) == Some(g)
    ensures IsGap(blocks, start, g.low)
    ensures forall h: nat :: IsGap(blocks, start, h) <==> h == g.low || IsGap(blocks, g.low + 1, h)
  {
    GapHeights(blocks, start, g);
  }

  ghost predicate Ascends(items: seq<nat>) {
    forall i, j :: 0 <= i < j < |items| ==> items[i] < items[j]
  }

  lemma {:induction false} AscendsCons(low: nat, rest: seq<nat>)
    requires Ascends(rest) && forall h :: h in rest ==> h > low
    ensures Ascends([low] + rest)
  {
    var items := [low] + rest;
    forall i, j | 0 <= i < j < |items|
      ensures items[i] < items[j]
    {
      assert items[j] == rest[j - 1] && rest[j - 1] in rest;
    }
  }

  /** Only missing heights, and every missing height unless there are `count` items, all below it. */
  ghost predicate Lowest(blocks: map<nat, Block>, start: nat, count: nat, items: seq<nat>) {
    && |items| <= count
    && (forall h {:trigger h in items} :: h in items ==> IsGap(blocks, start, h))
    && (forall h: nat {:trigger IsGap(blocks, start, h)} :: IsGap(blocks, start, h) && h !in items ==>
          |items| == count && forall k :: k in items ==> k < h)
  }

  lemma {:induction false} LowestCons(blocks: map<nat, Block>, start: nat, g: Gap, count: nat, rest: seq<nat>)
    requires NextGap(blocks, start) == Some(g) && Lowest(blocks, g.low + 1, count, rest)
    ensures Lowest(blocks, start, count + 1, [g.low] + rest)
    ensures forall h :: h in rest ==> h > g.low
  {
    var items := [g.low] + rest;
    NextIsLeast(blocks, start, g);
    forall h | h in items
      ensures IsGap(blocks, start, h)
    {
      assert h == g.low || h in rest;
    }
    forall h: nat | IsGap(blocks, start, h) && h !in items
      ensures |items| == count + 1 && forall k :: k in items ==> k < h
    {
      assert g.low in items && h !in rest;
      assert IsGap(blocks, g.low + 1, h);
      assert forall k :: k in items ==> k == g.low || k in rest;
    }
  }

  /** The items are the lowest missing heights in ascending order, as many as the quota allows. */
  lemma {:induction false} MissingItemsOk(blocks: map<nat, Block>, start: nat, count: nat)
    ensures Lowest(blocks, start, count, MissingItems(blocks, start, count))
    ensures Ascends(MissingItems(blocks, start, count))
    decreases count
  {
    var gap := NextGap(blocks, start);
    if count == 0 || gap.None? {
    } else {
      var rest := MissingItems(blocks, gap.value.low + 1, count - 1);
      MissingItemsOk(blocks, gap.value.low + 1, count - 1);
      LowestCons(blocks, start, gap.value, count - 1, rest);
      AscendsCons(gap.value.low, rest);
    }
  }

  function Finalizations(heights: seq<nat>): seq<Request> {
    if heights == [] then [] else [FinalizedAt(heights[0])] + Finalizations(heights[1..])
  }

  /** What a repair asks peers for: nothing unless it stopped, then the block it lacks and missing finalizations. */
  function RequestsAfter(c: Config, f: Floor, blocks: map<nat, Block>, o: Outcome): seq<Request> {
    if !o.Awaiting? || o.child.height == 0 then []
    else
      Permitted(f, [BlockAt(o.child.parent, o.child.height - 1)]) +
      Permitted(f, Finalizations(MissingItems(blocks, f.height + 1, c.maxRepair)))
  }

  function AskedBy(c: Config, r: (Sync, Outcome)): seq<Request> {
    RequestsAfter(c, r.0.delivery.floor, r.0.vault.archive.blocks, r.1)
  }

  lemma {:induction false} AllPermitted(f: Floor, heights: seq<nat>)
    requires forall h :: h in heights ==> h > f.height
    ensures Permitted(f, Finalizations(heights)) == Finalizations(heights)
  {
    if heights == [] {
    } else {
      assert forall h :: h in heights[1..] ==> h in heights;
      assert heights[0] in heights;
      assert Finalizations(heights)[1..] == Finalizations(heights[1..]);
      AllPermitted(f, heights[1..]);
    }
  }

  lemma {:induction false} ItemsPermitted(c: Config, f: Floor, blocks: map<nat, Block>) returns (items: seq<nat>)
    ensures items == MissingItems(blocks, f.height + 1, c.maxRepair)
    ensures Lowest(blocks, f.height + 1, c.maxRepair, items) && Ascends(items)
    ensures Permitted(f, Finalizations(items)) == Finalizations(items)
  {
    items := MissingItems(blocks, f.height + 1, c.maxRepair);
    MissingItemsOk(blocks, f.height + 1, c.maxRepair);
    forall h | h in items
      ensures h > f.height
    {
      assert IsGap(blocks, f.height + 1, h);
    }
    AllPermitted(f, items);
  }

  /** The requests for the block of height `h` and for finalizations of the lowest missing heights. */
  ghost predicate AsksFor(c: Config, f: Floor, blocks: map<nat, Block>, canon: nat -> Block, h: nat, items: seq<nat>,
                          asked: seq<Request>) {
    && asked == [BlockAt(canon(h).Id(), h)] + Finalizations(items)
    && Lowest(blocks, f.height + 1, c.maxRepair, items) && Ascends(items)
  }

  lemma {:induction false} ParentIsAsked(c: Config, f: Floor, blocks: map<nat, Block>, canon: nat -> Block, h: nat)
    returns (items: seq<nat>)
    requires Linked(canon) && f.height + 1 < h
    ensures AsksFor(c, f, blocks, canon, h - 1, items, RequestsAfter(c, f, blocks, Awaiting(canon(h))))
  {
    assert LinkedAt(canon, h - 1);
    var asked := [BlockAt(canon(h).parent, h - 1)];
    assert Permitted(f, asked) == asked;
    items := ItemsPermitted(c, f, blocks);
  }

  /** A stopped repair asks for the block it lacks and for the lowest missing heights, any other for nothing. */
  ghost predicate Asked(c: Config, f: Floor, l: Local, canon: nat -> Block, blocks: map<nat, Block>, o: Outcome,
                        items: seq<nat>) {
    if !o.Awaiting? then RequestsAfter(c, f, blocks, o) == []
    else
      && LacksParent(l, canon, f.height + 1, blocks, o.child)
      && AsksFor(c, f, blocks, canon, o.child.height - 1, items, RequestsAfter(c, f, blocks, o))
  }

  lemma {:induction false} RepairedAsks(c: Config, f: Floor, l: Local, canon: nat -> Block, blocks: map<nat, Block>,
                                        o: Outcome)
    returns (items: seq<nat>)
    requires Linked(canon) && Repaired(l, canon, f.height + 1, blocks, o)
    ensures Asked(c, f, l, canon, blocks, o, items)
  {
    items := [];
    if o.Awaiting? {
      items := ParentIsAsked(c, f, blocks, canon, o.child.height);
    }
  }

  /**
   A repair that stopped asks for exactly the block it lacks and for the lowest
   missing heights up to the quota; no request is dropped at the floor. A repair
   that did not stop asks for nothing.
   */
  lemma {:induction false} StoppedRepairAsks(c: Config, s: Sync, l: Local, canon: nat -> Block)
    returns (t: Sync, o: Outcome, items: seq<nat>)
    requires Linked(canon) && Indexed(s.vault.archive) && OnCanon(canon, s.vault.archive.blocks)
    ensures Repair(c, s, l) == (t, o) && t.delivery == s.delivery
    ensures Asked(c, t.delivery.floor, l, canon, t.vault.archive.blocks, o, items)
  {
    t, o := RepairLeavesChain(c, s, l, canon);
    items := RepairedAsks(c, t.delivery.floor, l, canon, t.vault.archive.blocks, o);
  }

  /** A chain on a configured genesis hash. */
  ghost function SeedChain(h: nat): (b: Block)
    ensures b.height == h
  {
    Block(if h <= 1 then Digest.Seed(0) else SeedChain(h - 1).Id(), h, 0, h, h, 0)
  }

  lemma {:induction false} SeedChainIsLinked() returns (canon: nat -> Block)
    ensures Linked(canon) && canon(1) == Block(Digest.Seed(0), 1, 0, 1, 1, 0)
    ensures canon(2) == Block(canon(1).Id(), 2, 0, 2, 2, 0)
  {
    canon := (h: nat) => SeedChain(h);
    forall h: nat | h > 0
      ensures LinkedAt(canon, h)
    {
    }
  }

  /** A known parent whose cached certificate was signed in another view is refused again and again. */
  lemma {:induction false} RepairCanDiverge() returns (c: Config, s: Sync, l: Local, canon: nat -> Block)
    ensures Linked(canon) && Indexed(s.vault.archive) && OnCanon(canon, s.vault.archive.blocks)
    ensures Stuck(c, s, l, canon) && Repair(c, s, l).1 == Diverges
  {
    canon := SeedChainIsLinked();
    var b1, b2 := canon(1), canon(2);
    c := Config(h => 0, 1, 1);
    s := SyncBoot(Archive(map[2 := b2], map[]), 0, Round(0, 0));
    l := Local({b1.Id()}, map[b1.Id() := Certificate(Round(0, 7), b1.Id())]);
    assert EndsGap(s.vault.archive.blocks, 1, 2);
    assert !Accepted(c, s, l, canon, 1);
    assert StuckAt(c, s, l, canon, 1, 2);
    RepairExact(c, s, l, canon);
  }
}

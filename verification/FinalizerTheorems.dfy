/**
 The finalizer's guarantees, stated for every run from any consistent database,
 with any interleaving of deliveries, retries, queries and restarts.
 */
module FinalizerTheorems {
  import opened Chain
  import opened FinalizerModel
  import opened ForkTree
  import opened FinalizerInvariants
  import opened FinalizerRuns
  import opened FinalizerCommits
  import opened FinalizerHistory

  /** Every event of the run is admissible in the state it meets. */
  ghost predicate AdmissibleRun(p: Params, m: Machine, events: seq<Event>) {
    events == [] ||
    var before := events[..|events| - 1];
    AdmissibleRun(p, m, before) && Admissible(p, Run(p, m, before), events[|events| - 1])
  }

  /** `m` is where some admissible run over the database `db` ends. */
  ghost predicate Reached(p: Params, db: Db, events: seq<Event>, m: Machine) {
    && Contiguous(p.epochOf)
    && DiskOk(p, db, {})
    && AdmissibleRun(p, Boot(p, db, 0, {}), events)
    && m == Run(p, Boot(p, db, 0, {}), events)
  }

  lemma {:induction false} RunInv(p: Params, m: Machine, events: seq<Event>)
    requires Contiguous(p.epochOf)
    requires Inv(p, m) && AdmissibleRun(p, m, events)
    ensures Inv(p, Run(p, m, events))
  {
    if events == [] {
    } else {
      var before := events[..|events| - 1];
      RunInv(p, m, before);
      StepInv(p, Run(p, m, before), events[|events| - 1]);
    }
  }

  lemma {:induction false} ReachedInv(p: Params, db: Db, events: seq<Event>, m: Machine)
    requires Reached(p, db, events, m)
    ensures Inv(p, m)
  {
    BootInv(p, db, 0, {});
    RunInv(p, Boot(p, db, 0, {}), events);
  }

  lemma {:induction false} RunRecorded(p: Params, base: nat, m: Machine, events: seq<Event>)
    requires Contiguous(p.epochOf)
    requires Inv(p, m) && Recorded(p, base, m) && AdmissibleRun(p, m, events)
    ensures Recorded(p, base, Run(p, m, events))
  {
    if events == [] {
    } else {
      var before := events[..|events| - 1];
      RunRecorded(p, base, m, before);
      RunInv(p, m, before);
      StepRecorded(p, base, Run(p, m, before), events[|events| - 1]);
    }
  }

  lemma {:induction false} ReachedRecorded(p: Params, db: Db, events: seq<Event>, m: Machine)
    requires Reached(p, db, events, m)
    ensures Recorded(p, Recovered(p, db).epoch, m)
  {
    BootInv(p, db, 0, {});
    BootRecorded(p, Recovered(p, db).epoch, db, 0, {});
    RunRecorded(p, Recovered(p, db).epoch, Boot(p, db, 0, {}), events);
  }

  // -------------------- Schedule independence --------------------

  /**
   The canonical state of a running process is the fold of the blocks finalized
   since its start, a parent linked chain of consecutive heights. Live forks all
   belong to the current epoch.
   */
  lemma {:induction false} ScheduleIndependence(p: Params, db: Db, events: seq<Event>, m: Machine)
    requires Reached(p, db, events, m) && !m.halted
    ensures m.canon == Fold(p, m.past.start, m.past.applied)
    ensures ChainedFrom(m.past.start, m.past.applied)
    ensures forall k :: k in m.tree.forks ==> k.digest.Hash? && k.digest.block.epoch == m.canon.epoch
  {
    ReachedInv(p, db, events, m);
    forall k | k in m.tree.forks
      ensures k.digest.Hash? && k.digest.block.epoch == m.canon.epoch
    {
      assert ForkOk(p, m.canon, m.tree.forks, k);
    }
  }

  lemma {:induction false} HeadFixesChain(s: State, a: seq<Block>, b: seq<Block>)
    requires ChainedFrom(s, a) && ChainedFrom(s, b)
    requires |a| == |b| && HeadOf(s, a) == HeadOf(s, b)
    ensures a == b
    decreases |a|
  {
    if a == [] {
    } else {
      var n := |a| - 1;
      assert a[n] == b[n];
      Prefix(s, a, n);
      Prefix(s, b, n);
      HeadFixesChain(s, a[..n], b[..n]);
      assert a == a[..n] + [a[n]] && b == b[..n] + [b[n]];
    }
  }

  lemma {:induction false} Prefix(s: State, chain: seq<Block>, n: nat)
    requires ChainedFrom(s, chain) && n <= |chain|
    ensures ChainedFrom(s, chain[..n])
  {
    forall i | 0 <= i < n
      ensures chain[..n][i].parent == HeadOf(s, chain[..n][..i])
    {
      assert chain[..n][..i] == chain[..i];
    }
  }

  lemma {:induction false} FoldIgnoresEnvironment(p: Params, q: Params, s: State, chain: seq<Block>)
    requires q.execute == p.execute && q.boundary == p.boundary && q.epochOf == p.epochOf
    ensures Fold(p, s, chain) == Fold(q, s, chain)
    decreases |chain|
  {
    if chain == [] {
    } else {
      FoldIgnoresEnvironment(p, q, s, chain[..|chain| - 1]);
    }
  }

  /**
   Two processes that started from the same state and reached the same head hold
   the same canonical state, however differently their execution layers, disks,
   notarizations, duplicates and retries behaved.
   */
  lemma {:induction false} SameHeadSameState(p: Params, q: Params, db: Db, other: Db, es: seq<Event>, fs: seq<Event>,
                                             m: Machine, n: Machine)
    requires Reached(p, db, es, m) && Reached(q, other, fs, n)
    requires !m.halted && !n.halted
    requires q.execute == p.execute && q.boundary == p.boundary && q.epochOf == p.epochOf
    requires m.past.start == n.past.start
    requires HeadKey(m.canon) == HeadKey(n.canon)
    ensures m.canon == n.canon
  {
    ReachedInv(p, db, es, m);
    ReachedInv(q, other, fs, n);
    HeadFixesChain(m.past.start, m.past.applied, n.past.applied);
    FoldIgnoresEnvironment(p, q, m.past.start, m.past.applied);
  }

  // -------------------- Fork tree --------------------

  lemma {:induction false} RootedDescends(p: Params, canon: State, forks: map<Key, Fork>, k: Key)
    requires Rooted(p, canon, forks)
    requires canon.height > 0 && k in forks
    ensures Descends(forks, k, HeadKey(canon))
    decreases k.height
  {
    assert ForkOk(p, canon, forks, k);
    if k.height <= canon.height + 1 {
    } else {
      RootedDescends(p, canon, forks, ParentKey(k.digest.block));
    }
  }

  /** Once the canonical height is positive, every live fork descends from the canonical head; none is a tombstone. */
  lemma {:induction false} ForksDescendFromHead(p: Params, db: Db, events: seq<Event>, m: Machine)
    requires Reached(p, db, events, m) && !m.halted && m.canon.height > 0
    ensures forall k :: k in m.tree.forks ==> Descends(m.tree.forks, k, HeadKey(m.canon))
    ensures m.tree.dead !! m.tree.forks.Keys
    ensures forall k :: k in m.tree.dead ==> k.height > m.canon.height
  {
    ReachedInv(p, db, events, m);
    forall k | k in m.tree.forks
      ensures Descends(m.tree.forks, k, HeadKey(m.canon))
    {
      RootedDescends(p, m.canon, m.tree.forks, k);
    }
  }

  lemma {:induction false} QueuedBlock(p: Params, q: Queues, b: Block)
    requires QueueInv(p, q) && b.Id() in q.keys
    ensures b in q.notarized
  {
    var i :| 0 <= i < |q.notarized| && q.notarized[i].Id() == b.Id();
    assert q.notarized[i] == b;
  }

  lemma {:induction false} SettledOrphan(p: Params, m: Machine, k: Key, b: Block)
    requires Speculative(p, m, [])
    requires k in m.tree.orphans && b in m.tree.orphans[k]
    requires b.height > 0 && ParentKey(b) in m.tree.forks
    ensures KeyOf(b) in m.tree.forks || b in m.queues.notarized || KeyOf(b) in m.tree.dead || b in m.past.rejected
  {
    assert IsSettled(m.tree, m.queues.keys, m.past.rejected, b);
    if b.Id() in m.queues.keys {
      QueuedBlock(p, m.queues, b);
    }
  }

  /** No orphan is forgotten: one whose parent is live was executed, queued, tombstoned or rejected. */
  lemma {:induction false} OrphansAccountedFor(p: Params, db: Db, events: seq<Event>, m: Machine, k: Key, b: Block)
    requires Reached(p, db, events, m) && !m.halted
    requires k in m.tree.orphans && b in m.tree.orphans[k]
    requires b.height > 0 && ParentKey(b) in m.tree.forks
    ensures KeyOf(b) in m.tree.forks || b in m.queues.notarized || KeyOf(b) in m.tree.dead || b in m.past.rejected
  {
    ReachedInv(p, db, events, m);
    SettledOrphan(p, m, k, b);
  }

  /** Orphans of the canonical head are re-adopted when it is finalized: none is left waiting for it. */
  lemma {:induction false} HeadHasNoOrphans(p: Params, db: Db, events: seq<Event>, m: Machine, k: Key, b: Block)
    requires Reached(p, db, events, m) && !m.halted
    requires k in m.tree.orphans && b in m.tree.orphans[k]
    ensures b.height > m.canon.height
    ensures !(b.height == m.canon.height + 1 && b.parent == m.canon.head)
  {
    ReachedPlaced(p, db, events, m);
    OrphanPlace(p, m, k, b);
  }

  ghost predicate Placed(p: Params, m: Machine) {
    OrphansOk(p, m.canon, m.tree.orphans) && SlotFree(m)
  }

  lemma {:induction false} ReachedPlaced(p: Params, db: Db, events: seq<Event>, m: Machine)
    requires Reached(p, db, events, m) && !m.halted
    ensures Placed(p, m)
  {
    ReachedOrphans(p, db, events, m);
    ReachedSlot(p, db, events, m);
  }

  lemma {:induction false} ReachedOrphans(p: Params, db: Db, events: seq<Event>, m: Machine)
    requires Reached(p, db, events, m) && !m.halted
    ensures OrphansOk(p, m.canon, m.tree.orphans)
  {
    ReachedInv(p, db, events, m);
  }

  lemma {:induction false} ReachedSlot(p: Params, db: Db, events: seq<Event>, m: Machine)
    requires Reached(p, db, events, m) && !m.halted
    ensures SlotFree(m)
  {
    ReachedRecorded(p, db, events, m);
  }

  lemma {:induction false} OrphanPlace(p: Params, m: Machine, k: Key, b: Block)
    requires Placed(p, m) && k in m.tree.orphans && b in m.tree.orphans[k]
    ensures b.height > m.canon.height
    ensures !(b.height == m.canon.height + 1 && b.parent == m.canon.head)
  {
    assert k == Key(b.height, b.parent);
  }

  // -------------------- Execution layer --------------------

  /** Delivered as finalized, and applied or on offer. */
  ghost predicate FinalBlock(past: Past, b: Block) {
    Delivered(past.arrived, b) && (b in past.applied || past.offering == Some(b))
  }

  lemma {:induction false} ClearedIsFinal(p: Params, base: nat, m: Machine, f: EthHash)
    requires Recorded(p, base, m) && f in Cleared(m.past)
    ensures f == m.past.start.fork.finalized || exists b :: FinalBlock(m.past, b) && b.eth == f
  {
    if b :| b in m.past.applied && b.eth == f {
      assert Delivered(m.past.arrived, b);
      assert FinalBlock(m.past, b);
    } else if f != m.past.start.fork.finalized {
      assert FinalBlock(m.past, m.past.offering.value);
    }
  }

  /**
   In every run, up to and including its last call before a fatal end: the
   execution layer is told that a block is final only if it is the one finalized
   at the start, or was delivered as finalized and is applied or on offer. Every
   applied block extended the canonical head of its time, and the block on offer
   extends the head now. While the process runs the offer heads the retry queue.
   */
  lemma {:induction false} EngineSafety(p: Params, db: Db, events: seq<Event>, m: Machine, i: nat)
    requires Reached(p, db, events, m)
    ensures i < |m.log| && !m.log[i].CheckPayload? ==>
              var f := m.log[i].fork.finalized;
              f == m.past.start.fork.finalized || exists b :: FinalBlock(m.past, b) && b.eth == f
    ensures i < |m.past.applied| ==>
              Extends(Fold(p, m.past.start, m.past.applied[..i]), m.past.applied[i])
                && Delivered(m.past.arrived, m.past.applied[i])
    ensures m.past.offering.Some? ==>
              Extends(m.canon, m.past.offering.value) && Delivered(m.past.arrived, m.past.offering.value)
    ensures m.past.offering.Some? && !m.halted ==>
              m.queues.finalized != [] && m.queues.finalized[0].block == m.past.offering.value
  {
    ReachedInv(p, db, events, m);
    ReachedRecorded(p, db, events, m);
    if i < |m.log| && !m.log[i].CheckPayload? {
      LoggedIsCleared(m, i);
      ClearedIsFinal(p, Recovered(p, db).epoch, m, m.log[i].fork.finalized);
    }
    if i < |m.past.applied| {
      ValidAt(p, m.past.start, m.past.applied, i);
      assert m.past.applied[i] in m.past.applied;
    }
  }

  lemma {:induction false} LoggedIsCleared(m: Machine, i: nat)
    requires LogOk(m.log, m.past) && i < |m.log| && !m.log[i].CheckPayload?
    ensures m.log[i].fork.finalized in Cleared(m.past)
  {
  }

  // -------------------- Finalized order --------------------

  /**
   Finalized blocks are handled in arrival order: the acknowledgements are those
   of a prefix of the arrivals, and while the process runs the rest is exactly
   the retry queue. A terminal block is acknowledged only once a restart would
   load a state at or above it.
   */
  lemma {:induction false} FinalizedFifo(p: Params, db: Db, events: seq<Event>, m: Machine)
    requires Reached(p, db, events, m)
    ensures var n := |m.past.acked|;
            && n <= |m.past.arrived|
            && m.past.acked == seq(n, i requires 0 <= i < n => m.past.arrived[i].ack)
            && (!m.halted ==> m.queues.finalized == m.past.arrived[n..])
    ensures forall i :: 0 <= i < |m.past.acked| && IsLastOfEpoch(p.epochOf, m.past.arrived[i].block.height) ==>
              m.past.arrived[i].block.height <= Recovered(p, m.disk.db).height
  {
    ReachedInv(p, db, events, m);
  }

  // -------------------- Waiters --------------------

  /** Open requests are for blocks that are not decided yet; answers said yes exactly to live blocks. */
  lemma {:induction false} WaitersSound(p: Params, db: Db, events: seq<Event>, m: Machine)
    requires Reached(p, db, events, m)
    ensures forall w :: w in m.notices.answered ==>
              var r := m.notices.answered[w];
              && (r.yes <==> w.key == r.head || w.key in r.live)
              && (!r.yes ==> w.key.height <= r.head.height || w.key in r.dead)
    ensures !m.halted ==> forall w :: w in m.notices.waiters ==>
              && w.key.height > m.canon.height
              && w.key !in m.tree.forks && w.key !in m.tree.dead
              && w !in m.notices.answered
  {
    ReachedInv(p, db, events, m);
  }

  // -------------------- Epoch genesis --------------------

  /**
   Over the whole run, restarts included, an epoch has one genesis: any two
   answers for it agree. For every epoch entered since the start of the run the
   answer is the digest of the terminal block of the epoch before, whose header is
   stored; for an epoch loaded at the start it is once that header is there.
   */
  lemma {:induction false} GenesisStable(p: Params, db: Db, events: seq<Event>, m: Machine, epoch: nat, d: Digest,
                                         d': Digest)
    requires Reached(p, db, events, m)
    requires (epoch, d) in m.served && (epoch, d') in m.served
    ensures d == d' && epoch > 0
    ensures epoch > Recovered(p, db).epoch ==> epoch - 1 in m.disk.db.headers
    ensures epoch - 1 in m.disk.db.headers ==>
              && d == m.disk.db.headers[epoch - 1]
              && d.Hash? && d.block.epoch == epoch - 1 && IsLastOfEpoch(p.epochOf, d.block.height)
  {
    ReachedInv(p, db, events, m);
    ReachedRecorded(p, db, events, m);
    ServedAgree(p, m.disk.db, m.served, epoch, d, d');
  }

  lemma {:induction false} ServedAgree(p: Params, db: Db, served: set<(nat, Digest)>, epoch: nat, d: Digest, d': Digest)
    requires DiskOk(p, db, served) && (epoch, d) in served && (epoch, d') in served
    ensures d == d' && 0 < epoch <= Recovered(p, db).epoch
    ensures epoch - 1 in db.headers ==>
              && d == db.headers[epoch - 1]
              && d.Hash? && d.block.epoch == epoch - 1 && IsLastOfEpoch(p.epochOf, d.block.height)
  {
    assert (epoch, d).0 == (epoch, d').0;
  }

  // -------------------- Aux data --------------------

  lemma {:induction false} EpochOfParent(p: Params, canon: State, forks: map<Key, Fork>, k: Key)
    requires Rooted(p, canon, forks) && Aligned(p, canon)
    ensures k in forks ==> k.digest.Hash? && forks[k].state.epoch == k.digest.block.epoch == p.epochOf(k.height)
    ensures k == HeadKey(canon) ==> canon.epoch == p.epochOf(k.height + 1)
  {
    if k in forks {
      assert ForkOk(p, canon, forks, k);
    }
  }

  /**
   The epoch in aux data: that of the parent itself while it is speculative, that
   of the next height once it is the head.
   */
  lemma {:induction false} AuxEpochFromParent(p: Params, db: Db, events: seq<Event>, m: Machine, k: Key)
    requires Reached(p, db, events, m) && !m.halted && AuxFor(p, m, k).Some?
    ensures var epoch := AuxFor(p, m, k).value.epoch;
            || (k.digest.Hash? && epoch == k.digest.block.epoch == p.epochOf(k.height))
            || (k == HeadKey(m.canon) && epoch == p.epochOf(k.height + 1))
  {
    ReachedInv(p, db, events, m);
    EpochOfParent(p, m.canon, m.tree.forks, k);
  }

  lemma {:induction false} LatestHeaderIsGenesis(p: Params, db: Db, served: set<(nat, Digest)>, epoch: nat)
    requires DiskOk(p, db, served) && Recovered(p, db).epoch == epoch && epoch > 0 && epoch - 1 in db.headers
    ensures LatestHeader(p, db.headers) == db.headers[epoch - 1] == Recovered(p, db).epochGenesis
    ensures var d := db.headers[epoch - 1];
            d.Hash? && d.block.epoch == epoch - 1 && IsLastOfEpoch(p.epochOf, d.block.height)
  {
    var last := LastEpoch(db.headers.Keys);
    assert epoch - 1 in db.headers.Keys && last in db.headers;
    assert last == epoch - 1;
  }

  lemma {:induction false} HeaderOfEpoch(p: Params, m: Machine, base: nat)
    requires DiskOk(p, m.disk.db, m.served) && RecoverableOk(p, m) && HeadersFrom(p, base, m.disk.db)
    requires m.canon.epoch > base
    ensures EpochHeader(p, m)
  {
    LatestHeaderIsGenesis(p, m.disk.db, m.served, m.canon.epoch);
  }

  /** The most recent header is the genesis of the current epoch, a terminal block of the one before. */
  ghost predicate EpochHeader(p: Params, m: Machine) {
    var d := LatestHeader(p, m.disk.db.headers);
    && d == m.canon.epochGenesis && m.canon.epoch > 0
    && d.Hash? && d.block.epoch == m.canon.epoch - 1 && IsLastOfEpoch(p.epochOf, d.block.height)
  }

  lemma {:induction false} ReachedEpochHeader(p: Params, db: Db, events: seq<Event>, m: Machine)
    requires Reached(p, db, events, m) && !m.halted
    ensures m.canon.epoch > Recovered(p, db).epoch ==> EpochHeader(p, m)
  {
    ReachedInv(p, db, events, m);
    ReachedRecorded(p, db, events, m);
    if m.canon.epoch > Recovered(p, db).epoch {
      HeaderOfEpoch(p, m, Recovered(p, db).epoch);
    }
  }

  lemma {:induction false} PreviousIsLatest(p: Params, m: Machine, k: Key)
    requires AuxFor(p, m, k).Some?
    ensures AuxFor(p, m, k).value.previous ==
            if IsLastOfEpoch(p.epochOf, k.height + 1) then Some(LatestHeader(p, m.disk.db.headers)) else None
  {
  }

  /**
   What the last block of an epoch names as the previous header: in every epoch
   entered since the start of the run the genesis of that epoch, which is the
   digest of the terminal block of the epoch before. On other blocks it is absent.
   */
  lemma {:induction false} AuxNamesPreviousEpoch(p: Params, db: Db, events: seq<Event>, m: Machine, k: Key)
    requires Reached(p, db, events, m) && !m.halted && AuxFor(p, m, k).Some?
    ensures var previous := AuxFor(p, m, k).value.previous;
            && (previous.Some? <==> IsLastOfEpoch(p.epochOf, k.height + 1))
            && (previous.Some? && m.canon.epoch > Recovered(p, db).epoch ==>
                  var d := previous.value;
                  && d == m.canon.epochGenesis
                  && d.Hash? && d.block.epoch == m.canon.epoch - 1 && IsLastOfEpoch(p.epochOf, d.block.height))
  {
    ReachedEpochHeader(p, db, events, m);
    PreviousIsLatest(p, m, k);
  }
}

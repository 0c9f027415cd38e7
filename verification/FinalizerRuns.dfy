/**
 Safety of the finalizer over whole runs.
 */
module FinalizerRuns {
  import opened Chain
  import opened FinalizerModel
  import opened ForkTree
  import opened FinalizerInvariants

  // -------------------- Finality --------------------

  function HeadOf(s: State, chain: seq<Block>): Digest {
    if chain == [] then s.head else chain[|chain| - 1].Id()
  }

  /** Consecutive heights from `s` upward, each block naming its predecessor as parent. */
  ghost predicate ChainedFrom(s: State, chain: seq<Block>) {
    forall i :: 0 <= i < |chain| ==>
      chain[i].height == s.height + 1 + i && chain[i].parent == HeadOf(s, chain[..i])
  }

  /** The canonical state is the fold of the blocks finalized since the start. */
  ghost predicate LedgerOk(p: Params, m: Machine) {
    && m.canon == Fold(p, m.past.start, m.past.applied)
    && ChainedFrom(m.past.start, m.past.applied)
    && m.canon.height == m.past.start.height + |m.past.applied|
    && m.canon.head == HeadOf(m.past.start, m.past.applied)
    && Aligned(p, m.canon)
    && m.canon.fork.finalized in FinalizedHashes(m.past)
    && (m.past.offering.Some? ==> Extends(m.canon, m.past.offering.value))
  }

  /** What a restart would load: the same epoch, at or below the canonical height. */
  ghost predicate RecoverableOk(p: Params, m: Machine) {
    var r := Recovered(p, m.disk.db);
    r.epoch == m.canon.epoch && r.epochGenesis == m.canon.epochGenesis && r.height <= m.canon.height
  }

  /** Acknowledgements follow arrival order, and a terminal block is durable before its own. */
  ghost predicate AcksOk(p: Params, db: Db, past: Past) {
    && |past.acked| <= |past.arrived|
    && forall i :: 0 <= i < |past.acked| ==>
         && past.acked[i] == past.arrived[i].ack
         && (IsLastOfEpoch(p.epochOf, past.arrived[i].block.height) ==>
               past.arrived[i].block.height <= Recovered(p, db).height)
  }

  /** The entries not acknowledged yet are exactly `next`, in arrival order. */
  ghost predicate InOrder(past: Past, next: seq<Entry>) {
    && |past.acked| <= |past.arrived|
    && past.arrived[|past.acked|..] == next
    && (past.offering.Some? ==> next != [] && next[0].block == past.offering.value)
  }

  /** Headers and served answers agree with what a restart would load. */
  ghost predicate DiskOk(p: Params, db: Db, served: set<(nat, Digest)>) {
    var r := Recovered(p, db);
    && Aligned(p, r)
    && (forall e :: e in db.headers ==>
          && e < r.epoch && db.headers[e].Hash? && db.headers[e].block.epoch == e
          && IsLastOfEpoch(p.epochOf, db.headers[e].block.height))
    && (r.epoch > 0 && r.epoch - 1 in db.headers ==> db.headers[r.epoch - 1] == r.epochGenesis)
    && (forall a :: a in served ==>
          && 0 < a.0 <= r.epoch
          && (a.0 == r.epoch ==> a.1 == r.epochGenesis)
          && (a.0 - 1 in db.headers ==> a.1 == db.headers[a.0 - 1]))
    && (forall a, b :: a in served && b in served && a.0 == b.0 ==> a.1 == b.1)
  }

  ghost predicate Always(p: Params, m: Machine) {
    && Messages(m)
    && AcksOk(p, m.disk.db, m.past)
    && DiskOk(p, m.disk.db, m.served)
  }

  ghost predicate Live(p: Params, m: Machine, next: seq<Entry>) {
    && Speculative(p, m, [])
    && LedgerOk(p, m)
    && RecoverableOk(p, m)
    && InOrder(m.past, next)
  }

  /** Holds between the parts of a handler, with `next` as the entries still to acknowledge. */
  ghost predicate Steady(p: Params, m: Machine, next: seq<Entry>) {
    Always(p, m) && (!m.halted ==> Live(p, m, next))
  }

  ghost predicate Inv(p: Params, m: Machine) {
    Always(p, m) && (!m.halted ==> Live(p, m, m.queues.finalized))
  }

  // -------------------- Finalizing one block --------------------

  /** Pruning never unsettles an orphan whose parent stays live. */
  lemma {:induction false} SettledSurvives(p: Params, canon: State, t: Tree, keys: set<Digest>, rejected: set<Block>,
                                           b: Block, x: Block)
    requires Rooted(p, canon, t.forks) && DeadOk(canon, t)
    requires b.height == canon.height + 1
    requires x.height > b.height && ParentKey(x) in PruneTree(t, b).forks
    requires IsSettled(t, keys, rejected, x)
    ensures IsSettled(PruneTree(t, b), keys, rejected, x)
  {
    PruneIsExact(p, canon, t, b);
    if KeyOf(x) in t.forks {
      var above := Above(t.forks, b.height);
      assert ForkOk(p, canon, t.forks, KeyOf(x));
      assert Descends(above, ParentKey(x), KeyOf(b));
      assert Descends(above, KeyOf(x), KeyOf(b));
    }
  }

  lemma {:induction false} PromoteSettled(p: Params, canon: State, t: Tree, keys: set<Digest>, rejected: set<Block>,
                                          b: Block)
    requires TreeInv(p, canon, t, keys, rejected, [])
    requires b.height == canon.height + 1
    ensures OrphansSettled(PruneTree(t, b), keys, rejected, [])
  {
    var u := PruneTree(t, b);
    PruneIsExact(p, canon, t, b);
    forall k, x | k in u.orphans && x in u.orphans[k] && x.height > 0 && ParentKey(x) in u.forks
      ensures IsSettled(u, keys, rejected, x)
    {
      assert k in t.orphans && x in t.orphans[k];
      SettledSurvives(p, canon, t, keys, rejected, b, x);
    }
  }

  lemma {:induction false} PromoteTree(p: Params, canon: State, t: Tree, keys: set<Digest>, rejected: set<Block>,
                                       b: Block)
    requires Contiguous(p.epochOf)
    requires TreeInv(p, canon, t, keys, rejected, [])
    requires Aligned(p, canon)
    requires Extends(canon, b) && b.epoch == canon.epoch
    ensures TreeInv(p, Finalize(p, canon, b), PruneTree(t, b), keys, rejected, [])
  {
    PruneKeepsRooted(p, canon, t, b);
    PruneIsExact(p, canon, t, b);
    PromoteSettled(p, canon, t, keys, rejected, b);
  }

  lemma {:induction false} PromoteNotices(p: Params, canon: State, t: Tree, n: Notices, b: Block, next: State)
    requires Rooted(p, canon, t.forks) && DeadOk(canon, t)
    requires NoticesInv(canon, t, n)
    requires Extends(canon, b)
    requires next.height == b.height && next.head == b.Id()
    ensures NoticesInv(next, PruneTree(t, b), PruneNotices(n, next, t, PruneTree(t, b), b))
  {
    var u := PruneTree(t, b);
    PruneIsExact(p, canon, t, b);
    var yes := ReplyNow(next, u, true);
    var no := ReplyNow(next, u, false);
    var cut := WaitersFor(n, CutBy(t, b));
    var gone := ReplyNow(next, u.(dead := t.dead + CutBy(t, b)), false);
    RespondKeepsReplies(n, cut, gone);
    var n1 := Respond(n, cut, gone);
    var hit := WaitersFor(n1, {KeyOf(b)});
    RespondKeepsReplies(n1, hit, yes);
    var n2 := Respond(n1, hit, yes);
    var miss := set w | w in n2.waiters && w.key.height <= b.height;
    forall w | w in miss
      ensures ReplyOk(w.key, no)
    {
      assert w !in hit;
    }
    RespondKeepsReplies(n2, miss, no);
  }

  lemma {:induction false} PromoteLedger(p: Params, m: Machine, b: Block)
    requires LedgerOk(p, m)
    requires Extends(m.canon, b)
    ensures var chain := m.past.applied + [b];
            && Fold(p, m.past.start, chain) == Finalize(p, m.canon, b)
            && ChainedFrom(m.past.start, chain)
            && HeadOf(m.past.start, chain) == b.Id()
  {
    var chain := m.past.applied + [b];
    assert chain[..|chain| - 1] == m.past.applied;
    forall i | 0 <= i < |chain|
      ensures chain[i].height == m.past.start.height + 1 + i && chain[i].parent == HeadOf(m.past.start, chain[..i])
    {
      if i < |m.past.applied| {
        assert chain[..i] == m.past.applied[..i];
      }
    }
  }

  /** Crossing into the next epoch commits the header it is rooted in together with its first state. */
  lemma {:induction false} BoundaryDisk(p: Params, db: Db, served: set<(nat, Digest)>, canon: State, b: Block)
    requires Contiguous(p.epochOf)
    requires DiskOk(p, db, served)
    requires Recovered(p, db).epoch == canon.epoch
    requires Aligned(p, canon)
    requires b.height == canon.height + 1 && b.epoch == canon.epoch && IsLastOfEpoch(p.epochOf, b.height)
    ensures DiskOk(p, Db(db.headers[canon.epoch := b.Id()], Some(Finalize(p, canon, b))), served)
    ensures Aligned(p, Finalize(p, canon, b))
  {
    assert p.epochOf(b.height + 1) == p.epochOf(b.height) + 1;
  }

  /** A terminal height at or below the canonical one is already covered by what a restart loads. */
  lemma {:induction false} TerminalIsRecovered(p: Params, r: State, canon: State, height: nat)
    requires Contiguous(p.epochOf)
    requires Aligned(p, r) && Aligned(p, canon) && r.epoch == canon.epoch
    requires height <= canon.height && IsLastOfEpoch(p.epochOf, height)
    ensures height <= r.height
  {
    if height > r.height {
      EpochsMonotone(p.epochOf, r.height + 1, height);
      EpochsMonotone(p.epochOf, height + 1, canon.height + 1);
    }
  }

  lemma {:induction false} ClearedAfterPromote(past: Past, b: Block)
    requires past.offering == Some(b)
    ensures Cleared(past.(applied := past.applied + [b], offering := None)) == Cleared(past)
  {
    var after := past.(applied := past.applied + [b], offering := None);
    forall h
      ensures h in Cleared(after) <==> h in Cleared(past)
    {
      assert forall x :: x in after.applied <==> x in past.applied || x == b;
    }
  }

  lemma {:induction false} PromoteInv(p: Params, m: Machine, b: Block)
    requires Contiguous(p.epochOf)
    requires Speculative(p, m, []) && Messages(m) && LedgerOk(p, m)
    requires m.past.offering == Some(b) && b.epoch == m.canon.epoch
    ensures var n := Promote(m, b, Execute(p, m.canon, b));
            && n.canon == Execute(p, m.canon, b)
            && Messages(n)
            && Speculative(p, n.(canon := Finalize(p, m.canon, b)), [])
  {
    PromoteTree(p, m.canon, m.tree, m.queues.keys, m.past.rejected, b);
    PromoteNotices(p, m.canon, m.tree, m.notices, b, Execute(p, m.canon, b));
    ClearedAfterPromote(m.past, b);
  }

  ghost predicate Settling(p: Params, m: Machine, e: Entry) {
    && Always(p, m)
    && Live(p, m, [e] + m.queues.finalized)
    && m.past.offering == Some(e.block)
    && e.block.epoch == m.canon.epoch
  }

  lemma {:induction false} SettledAcks(p: Params, m: Machine, e: Entry, db: Db)
    requires Settling(p, m, e)
    requires Recovered(p, db).height >= Recovered(p, m.disk.db).height
    requires IsLastOfEpoch(p.epochOf, e.block.height) ==> e.block.height <= Recovered(p, db).height
    ensures var past := m.past.(applied := m.past.applied + [e.block], offering := None,
                                    acked := m.past.acked + [e.ack]);
            AcksOk(p, db, past) && InOrder(past, m.queues.finalized)
  {
    var acked := m.past.acked + [e.ack];
    assert m.past.arrived[|m.past.acked|..] == [e] + m.queues.finalized;
    assert m.past.arrived[|m.past.acked|] == e;
    assert m.past.arrived[|acked|..] == m.past.arrived[|m.past.acked|..][1..];
  }

  lemma {:induction false} FinalizeAligned(p: Params, s: State, b: Block)
    requires Contiguous(p.epochOf)
    requires Aligned(p, s) && Extends(s, b)
    ensures Aligned(p, Finalize(p, s, b))
  {
    assert p.epochOf(b.height) <= p.epochOf(b.height + 1) <= p.epochOf(b.height) + 1;
  }

  lemma {:induction false} LastIsFinalized(p: Params, s: State, b: Block, past: Past)
    requires b in past.applied
    ensures Finalize(p, s, b).fork.finalized in FinalizedHashes(past)
    ensures Finalize(p, s, b).height == b.height && Finalize(p, s, b).head == b.Id()
  {
  }

  lemma {:induction false} SettledLedger(p: Params, m: Machine, e: Entry, n: Machine)
    requires Contiguous(p.epochOf)
    requires LedgerOk(p, m) && m.past.offering == Some(e.block)
    requires n.canon == Finalize(p, m.canon, e.block)
    requires n.past == m.past.(applied := m.past.applied + [e.block], offering := None, acked := n.past.acked)
    ensures LedgerOk(p, n)
  {
    PromoteLedger(p, m, e.block);
    FinalizeAligned(p, m.canon, e.block);
    LastIsFinalized(p, m.canon, e.block, n.past);
  }

  lemma {:induction false} SettleInside(p: Params, m: Machine, e: Entry)
    requires Contiguous(p.epochOf)
    requires !m.halted && Settling(p, m, e)
    requires !IsLastOfEpoch(p.epochOf, e.block.height)
    ensures var n := Settle(p, m, e, Execute(p, m.canon, e.block));
            Always(p, n) && !n.halted && Live(p, n, n.queues.finalized)
  {
    var n := Settle(p, m, e, Execute(p, m.canon, e.block));
    PromoteInv(p, m, e.block);
    SettledAcks(p, m, e, m.disk.db);
    SettledLedger(p, m, e, n);
  }

  lemma {:induction false} BoundaryShape(p: Params, m: Machine, e: Entry)
    requires IsLastOfEpoch(p.epochOf, e.block.height)
    ensures var promoted := Promote(m, e.block, Execute(p, m.canon, e.block));
            var n := Settle(p, m, e, Execute(p, m.canon, e.block));
            && n.tree == promoted.tree && n.notices == promoted.notices && n.log == promoted.log
            && n.queues == m.queues && n.served == m.served
            && (n.halted ==> n.past == promoted.past && n.disk.db == m.disk.db)
            && (!n.halted ==>
                  && n.canon == Finalize(p, m.canon, e.block)
                  && n.past == promoted.past.(acked := m.past.acked + [e.ack])
                  && n.disk.db == Db(m.disk.db.headers[m.canon.epoch := e.block.Id()], Some(n.canon)))
  {
  }

  lemma {:induction false} SettleBoundary(p: Params, m: Machine, e: Entry)
    requires Contiguous(p.epochOf)
    requires !m.halted && Settling(p, m, e)
    requires IsLastOfEpoch(p.epochOf, e.block.height)
    ensures var n := Settle(p, m, e, Execute(p, m.canon, e.block));
            && Always(p, n)
            && (!n.halted ==> Live(p, n, n.queues.finalized))
  {
    BoundaryShape(p, m, e);
    PromoteInv(p, m, e.block);
    BoundaryDisk(p, m.disk.db, m.served, m.canon, e.block);
    var db := Db(m.disk.db.headers[m.canon.epoch := e.block.Id()], Some(Finalize(p, m.canon, e.block)));
    SettledAcks(p, m, e, db);
    var n := Settle(p, m, e, Execute(p, m.canon, e.block));
    if !n.halted {
      SettledLedger(p, m, e, n);
    }
  }

  lemma {:induction false} SettleInv(p: Params, m: Machine, e: Entry)
    requires Contiguous(p.epochOf)
    requires !m.halted && Settling(p, m, e)
    ensures var n := Settle(p, m, e, Execute(p, m.canon, e.block));
            && Always(p, n)
            && (!n.halted ==> Live(p, n, n.queues.finalized))
  {
    if IsLastOfEpoch(p.epochOf, e.block.height) {
      SettleBoundary(p, m, e);
    } else {
      SettleInside(p, m, e);
    }
  }

  // -------------------- Notarized blocks do not touch finality --------------------

  lemma {:induction false} FinalityFrame(p: Params, m: Machine, n: Machine, next: seq<Entry>)
    requires SameFinality(m, n)
    requires AcksOk(p, m.disk.db, m.past) && DiskOk(p, m.disk.db, m.served)
    ensures AcksOk(p, n.disk.db, n.past) && DiskOk(p, n.disk.db, n.served)
    ensures LedgerOk(p, m) && RecoverableOk(p, m) && InOrder(m.past, next) ==>
              LedgerOk(p, n) && RecoverableOk(p, n) && InOrder(n.past, next)
  {
  }

  lemma {:induction false} NotarizeLive(p: Params, m: Machine, b: Block, next: seq<Entry>)
    requires Always(p, m) && !m.halted
    requires Speculative(p, m, [b])
    requires LedgerOk(p, m) && RecoverableOk(p, m) && InOrder(m.past, next)
    ensures var n := Notarize(p, m, [b], false).m;
            Always(p, n) && (!n.halted ==> Live(p, n, next))
  {
    NotarizeInv(p, m, [b], false);
    NotarizeFrame(p, m, [b], false);
    FinalityFrame(p, m, Notarize(p, m, [b], false).m, next);
  }

  lemma {:induction false} OneMoreBlock(p: Params, m: Machine, b: Block)
    requires Speculative(p, m, []) && WellLabelled(p, b)
    ensures Speculative(p, m, [b])
  {
  }

  lemma {:induction false} NotarizeAllLive(p: Params, m: Machine, children: seq<Block>, next: seq<Entry>)
    requires Always(p, m) && (!m.halted ==> Live(p, m, next))
    requires AllLabelled(p, children)
    ensures var n := NotarizeAll(p, m, children);
            Always(p, n) && (!n.halted ==> Live(p, n, next))
    decreases |children|
  {
    if m.halted || children == [] {
    } else {
      OneMoreBlock(p, m, children[0]);
      NotarizeLive(p, m, children[0], next);
      NotarizeAllLive(p, Notarize(p, m, [children[0]], false).m, children[1..], next);
    }
  }

  lemma {:induction false} DropSlot(p: Params, m: Machine, slot: Key, next: seq<Entry>)
    requires Always(p, m) && Live(p, m, next) && slot in m.tree.orphans
    ensures Always(p, TakeOrphans(m, slot)) && Live(p, TakeOrphans(m, slot), next)
    ensures AllLabelled(p, m.tree.orphans[slot])
  {
    SlotDropped(p, m.canon, m.tree, m.queues.keys, m.past.rejected, slot);
    FinalityFrame(p, m, TakeOrphans(m, slot), next);
  }

  lemma {:induction false} SlotDropped(p: Params, canon: State, t: Tree, keys: set<Digest>, rejected: set<Block>,
                                       slot: Key)
    requires TreeInv(p, canon, t, keys, rejected, [])
    ensures TreeInv(p, canon, t.(orphans := t.orphans - {slot}), keys, rejected, [])
  {
    assert Rooted(p, canon, t.forks);
  }

  lemma {:induction false} ReadoptSlot(p: Params, m: Machine, slot: Key, next: seq<Entry>)
    requires Steady(p, m, next) && !m.halted && slot in m.tree.orphans
    ensures Steady(p, NotarizeAll(p, TakeOrphans(m, slot), m.tree.orphans[slot]), next)
  {
    DropSlot(p, m, slot, next);
    NotarizeAllLive(p, TakeOrphans(m, slot), m.tree.orphans[slot], next);
  }

  lemma {:induction false} ReadoptLive(p: Params, m: Machine, b: Block, next: seq<Entry>)
    requires Steady(p, m, next)
    ensures Steady(p, Readopt(p, m, b), next)
  {
    var slot := Key(b.height + 1, b.Id());
    if m.halted || slot !in m.tree.orphans {
      assert Readopt(p, m, b) == m;
    } else {
      ReadoptSlot(p, m, slot, next);
    }
  }

  // -------------------- Finalized blocks --------------------

  lemma {:induction false} TryFinalizeLog(p: Params, m: Machine, b: Block)
    requires LogOk(m.log, m.past) && LedgerOk(p, m)
    requires m.past.offering.Some? ==> m.past.offering.value == b
    ensures LogOk(TryFinalize(p, m, b).log, m.past.(offering := Some(b)))
  {
    var past := m.past.(offering := Some(b));
    assert Cleared(m.past) <= Cleared(past);
    TryExecuteLog(p, m.canon, b, None, m.disk.boots, m.log, past);
  }

  lemma {:induction false} OfferInv(p: Params, m: Machine, e: Entry)
    requires !m.halted && Always(p, m) && Live(p, m, [e] + m.queues.finalized)
    requires Extends(m.canon, e.block)
    ensures var n := Offer(m, e.block, TryFinalize(p, m, e.block).log);
            Always(p, n) && Live(p, n, [e] + n.queues.finalized)
  {
    TryFinalizeLog(p, m, e.block);
  }

  lemma {:induction false} DuplicateInv(p: Params, m: Machine, e: Entry)
    requires Contiguous(p.epochOf)
    requires !m.halted && Always(p, m) && Live(p, m, [e] + m.queues.finalized)
    requires e.block.height <= m.canon.height
    ensures Always(p, Ack(m, e)) && Live(p, Ack(m, e), m.queues.finalized)
  {
    var acked := m.past.acked + [e.ack];
    assert m.past.arrived[|m.past.acked|..][0] == e;
    assert m.past.arrived[|acked|..] == m.past.arrived[|m.past.acked|..][1..];
    if IsLastOfEpoch(p.epochOf, e.block.height) {
      TerminalIsRecovered(p, Recovered(p, m.disk.db), m.canon, e.block.height);
    }
  }

  lemma {:induction false} ConcludeInv(p: Params, m: Machine, e: Entry, a: Attempt)
    requires Contiguous(p.epochOf)
    requires !m.halted && Always(p, m) && Live(p, m, [e] + m.queues.finalized)
    requires m.past.offering == Some(e.block)
    requires a.outcome == Applied ==> e.block.epoch == m.canon.epoch && a.state == Execute(p, m.canon, e.block)
    ensures var r := Conclude(p, m, e, a);
            && Always(p, r.m)
            && (!r.m.halted ==> Live(p, r.m, if r.deferred then [e] + r.m.queues.finalized else r.m.queues.finalized))
  {
    if a.outcome == Applied {
      SettleInv(p, m, e);
      var settled := Settle(p, m, e, a.state);
      ReadoptLive(p, settled, e.block, settled.queues.finalized);
      ReadoptFrame(p, settled, e.block);
    }
  }

  lemma {:induction false} HandleFinalizedInv(p: Params, m: Machine, e: Entry)
    requires Contiguous(p.epochOf)
    requires !m.halted && Always(p, m) && Live(p, m, [e] + m.queues.finalized)
    ensures var r := HandleFinalized(p, m, e);
            && Always(p, r.m)
            && (!r.m.halted ==> Live(p, r.m, if r.deferred then [e] + r.m.queues.finalized else r.m.queues.finalized))
  {
    if e.block.height <= m.canon.height {
      DuplicateInv(p, m, e);
    } else if Extends(m.canon, e.block) {
      var a := TryFinalize(p, m, e.block);
      OfferInv(p, m, e);
      if a.outcome == Applied {
        PromotionIsExecution(p, m, e.block);
      }
      ConcludeInv(p, Offer(m, e.block, a.log), e, a);
    }
  }

  // -------------------- Retries --------------------

  lemma {:induction false} DrainFinalizedInv(p: Params, m: Machine)
    requires Contiguous(p.epochOf)
    requires Inv(p, m)
    ensures Inv(p, DrainFinalized(p, m).m)
    decreases |m.queues.finalized|
  {
    if m.halted || m.queues.finalized == [] {
    } else {
      var e := m.queues.finalized[0];
      var popped := PopFinalized(m);
      assert [e] + popped.queues.finalized == m.queues.finalized;
      HandleFinalizedInv(p, popped, e);
      HandleFinalizedFrame(p, popped, e);
      var r := HandleFinalized(p, popped, e);
      if !r.deferred {
        DrainFinalizedInv(p, r.m);
      }
    }
  }

  lemma {:induction false} PopNotarizedInv(p: Params, m: Machine)
    requires Speculative(p, m, []) && m.queues.notarized != []
    ensures Speculative(p, PopNotarized(m), [m.queues.notarized[0]])
  {
    var q := m.queues;
    var b := q.notarized[0];
    var r := PopNotarized(m).queues;
    forall d
      ensures d in r.keys <==> exists i :: 0 <= i < |r.notarized| && r.notarized[i].Id() == d
    {
      if d in r.keys {
        var i :| 0 <= i < |q.notarized| && q.notarized[i].Id() == d;
        assert r.notarized[i - 1].Id() == d;
      }
      if i :| 0 <= i < |r.notarized| && r.notarized[i].Id() == d {
        assert q.notarized[i + 1].Id() == d;
        assert q.notarized[0] != q.notarized[i + 1];
      }
    }
    assert b in q.notarized;
    assert AllLabelled(p, r.notarized);
    assert Rooted(p, m.canon, m.tree.forks);
    assert OrphansSettled(m.tree, r.keys, m.past.rejected, [b]);
  }

  lemma {:induction false} DrainNotarizedInv(p: Params, m: Machine)
    requires Inv(p, m)
    ensures Inv(p, DrainNotarized(p, m))
    decreases |m.queues.notarized|
  {
    if m.halted || m.queues.notarized == [] {
    } else {
      var b := m.queues.notarized[0];
      PopNotarizedInv(p, m);
      NotarizeLive(p, PopNotarized(m), b, m.queues.finalized);
      NotarizeFrame(p, PopNotarized(m), [b], false);
      var r := Notarize(p, PopNotarized(m), [b], false);
      if !r.buffered && !r.m.halted {
        DrainNotarizedInv(p, r.m);
      }
    }
  }

  // -------------------- Events --------------------

  /** What the environment owes: correctly labelled notarized blocks and fresh request ids. */
  ghost predicate Admissible(p: Params, m: Machine, e: Event) {
    match e
    case DeliverNotarized(b) => WellLabelled(p, b)
    case NotifyAtHeight(w) => w !in m.notices.waiters && w !in m.notices.answered
    case _ => true
  }

  lemma {:induction false} ArrivalInv(p: Params, m: Machine, e: Entry)
    requires Inv(p, m) && !m.halted
    ensures var n := m.(past := m.past.(arrived := m.past.arrived + [e]));
            Always(p, n) && Live(p, n, m.queues.finalized + [e])
  {
    var n := m.(past := m.past.(arrived := m.past.arrived + [e]));
    assert n.past.arrived[|m.past.acked|..] == m.past.arrived[|m.past.acked|..] + [e];
    FinalityOfArrival(p, m, n);
  }

  lemma {:induction false} FinalityOfArrival(p: Params, m: Machine, n: Machine)
    requires LedgerOk(p, m) && LogOk(m.log, m.past)
    requires n.canon == m.canon && n.log == m.log && n.past == m.past.(arrived := n.past.arrived)
    ensures LedgerOk(p, n) && LogOk(n.log, n.past)
  {
  }

  lemma {:induction false} PushInv(p: Params, m: Machine, e: Entry)
    requires Always(p, m) && Live(p, m, m.queues.finalized + [e])
    ensures Inv(p, PushFinalized(m, e))
  {
    var n := PushFinalized(m, e);
    assert QueueInv(p, n.queues);
    assert LedgerOk(p, n);
  }

  lemma {:induction false} OnFinalizedInv(p: Params, m: Machine, e: Entry)
    requires Contiguous(p.epochOf)
    requires Inv(p, m) && !m.halted
    ensures Inv(p, OnFinalized(p, m, e))
  {
    var n := m.(past := m.past.(arrived := m.past.arrived + [e]));
    ArrivalInv(p, m, e);
    if m.queues.finalized != [] {
      PushInv(p, n, e);
    } else {
      assert [] + [e] == [e] + [];
      HandleFinalizedInv(p, n, e);
      HandleFinalizedFrame(p, n, e);
      var r := HandleFinalized(p, n, e);
      if r.deferred && !r.m.halted {
        PushInv(p, r.m, e);
      }
    }
  }

  lemma {:induction false} OnNotifyInv(p: Params, m: Machine, w: Waiter)
    requires Inv(p, m) && !m.halted
    requires w !in m.notices.waiters && w !in m.notices.answered
    ensures Inv(p, OnNotify(m, w))
  {
    var now := NotifyNow(m.canon, m.tree, w.key);
    if now.Some? {
      if w.key in m.tree.forks {
        assert ForkOk(p, m.canon, m.tree.forks, w.key);
      }
      RespondKeepsReplies(m.notices, {w}, ReplyNow(m.canon, m.tree, now.value));
    }
  }

  lemma {:induction false} BootInv(p: Params, db: Db, boots: nat, served: set<(nat, Digest)>)
    requires DiskOk(p, db, served)
    ensures Inv(p, Boot(p, db, boots, served))
  {
  }

  lemma {:induction false} OnNotarizedInv(p: Params, m: Machine, b: Block)
    requires Inv(p, m) && !m.halted && WellLabelled(p, b)
    ensures Inv(p, Notarize(p, m, [b], false).m)
  {
    OneMoreBlock(p, m, b);
    NotarizeLive(p, m, b, m.queues.finalized);
    NotarizeFrame(p, m, [b], false);
  }

  lemma {:induction false} DrainInv(p: Params, m: Machine)
    requires Contiguous(p.epochOf)
    requires Inv(p, m)
    ensures Inv(p, Drain(p, m))
  {
    DrainFinalizedInv(p, m);
    DrainNotarizedInv(p, DrainFinalized(p, m).m);
  }

  lemma {:induction false} OnAuxDataInv(p: Params, m: Machine, parent: Key)
    requires Inv(p, m) && !m.halted
    ensures Inv(p, OnAuxData(p, m, parent))
  {
    var n := OnAuxData(p, m, parent);
    assert LogOk(n.log, n.past);
  }

  /** One more answer that agrees with what a restart would load. */
  lemma {:induction false} ServedDisk(p: Params, db: Db, served: set<(nat, Digest)>, epoch: nat, d: Digest)
    requires DiskOk(p, db, served)
    requires var r := Recovered(p, db);
             && 0 < epoch <= r.epoch
             && (if epoch == r.epoch then d == r.epochGenesis
                 else epoch - 1 in db.headers && d == db.headers[epoch - 1])
    ensures DiskOk(p, db, served + {(epoch, d)})
  {
  }

  lemma {:induction false} OnGenesisInv(p: Params, m: Machine, epoch: nat)
    requires Inv(p, m) && !m.halted
    ensures Inv(p, OnGenesis(p, m, epoch))
  {
    if epoch > 0 && GenesisOf(p, m, epoch).Some? {
      ServedDisk(p, m.disk.db, m.served, epoch, GenesisOf(p, m, epoch).value);
    }
  }

  lemma {:induction false} QueryInv(p: Params, m: Machine, e: Event)
    requires Inv(p, m) && !m.halted && Admissible(p, m, e)
    requires e.NotifyAtHeight? || e.AuxData? || e.EpochGenesis?
    ensures Inv(p, Handle(p, m, e))
  {
    match e
    case NotifyAtHeight(w) => OnNotifyInv(p, m, w);
    case AuxData(parent) => OnAuxDataInv(p, m, parent);
    case EpochGenesis(epoch) => OnGenesisInv(p, m, epoch);
  }

  lemma {:induction false} DeliveryInv(p: Params, m: Machine, e: Event)
    requires Contiguous(p.epochOf)
    requires Inv(p, m) && !m.halted && Admissible(p, m, e)
    requires e.DeliverFinalized? || e.DeliverNotarized? || e.Tick?
    ensures Inv(p, Handle(p, m, e))
  {
    match e
    case DeliverFinalized(entry) => OnFinalizedInv(p, m, entry);
    case DeliverNotarized(b) => OnNotarizedInv(p, m, b);
    case Tick => DrainInv(p, m);
  }

  lemma {:induction false} RestartInv(p: Params, m: Machine)
    requires Contiguous(p.epochOf)
    requires Always(p, m)
    ensures Inv(p, Handle(p, m, Restart))
  {
    BootInv(p, m.disk.db, m.disk.boots + 1, m.served);
  }

  /** Every event preserves the invariant, whatever the execution layer and the disk answer. */
  lemma {:induction false} StepInv(p: Params, m: Machine, e: Event)
    requires Contiguous(p.epochOf)
    requires Inv(p, m) && Admissible(p, m, e)
    ensures Inv(p, Step(p, m, e))
  {
    if e.Restart? {
      RestartInv(p, m);
    } else if m.halted {
      assert Step(p, m, e) == m;
    } else if e.DeliverFinalized? || e.DeliverNotarized? || e.Tick? {
      DeliveryInv(p, m, e);
    } else {
      QueryInv(p, m, e);
    }
  }
}

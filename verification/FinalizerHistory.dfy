/**
 What a run leaves behind, halted or not: applied and offered blocks were
 delivered and extended the canonical head, every epoch crossed has its header,
 and no block waits for a parent that is the head.
 */
module FinalizerHistory {
  import opened Chain
  import opened FinalizerModel
  import opened ForkTree
  import opened FinalizerInvariants
  import opened FinalizerRuns
  import opened FinalizerCommits

  /** The block passed every check against the state it was executed on. */
  ghost predicate ValidNext(p: Params, s: State, b: Block) {
    Extends(s, b) && b.epoch == s.epoch && p.payoutsMatch(s, b)
  }

  ghost predicate ValidChain(p: Params, s: State, chain: seq<Block>)
    decreases |chain|
  {
    chain == [] ||
    var front := chain[..|chain| - 1];
    ValidChain(p, s, front) && ValidNext(p, Fold(p, s, front), chain[|chain| - 1])
  }

  /** The block on offer to the execution layer was delivered and extends the head. */
  ghost predicate OfferOk(canon: State, past: Past) {
    past.offering.Some? ==> Extends(canon, past.offering.value) && Delivered(past.arrived, past.offering.value)
  }

  /** Every epoch from `base` up to the recovered one has its header. */
  ghost predicate HeadersFrom(p: Params, base: nat, db: Db) {
    forall e :: base <= e < Recovered(p, db).epoch ==> e in db.headers
  }

  /** No orphan waits for the canonical head. */
  ghost predicate SlotFree(m: Machine) {
    Key(m.canon.height + 1, m.canon.head) !in m.tree.orphans
  }

  ghost predicate Recorded(p: Params, base: nat, m: Machine) {
    && ValidChain(p, m.past.start, m.past.applied)
    && OfferOk(m.canon, m.past)
    && AllDelivered(m.past.arrived, m.past.applied)
    && HeadersFrom(p, base, m.disk.db)
    && (!m.halted ==> SlotFree(m))
  }

  // -------------------- Chains --------------------

  lemma {:induction false} ValidAt(p: Params, s: State, chain: seq<Block>, i: nat)
    requires ValidChain(p, s, chain) && i < |chain|
    ensures ValidNext(p, Fold(p, s, chain[..i]), chain[i])
    decreases |chain|
  {
    var n := |chain| - 1;
    if i == n {
    } else {
      ValidAt(p, s, chain[..n], i);
      assert chain[..n][..i] == chain[..i];
    }
  }

  lemma {:induction false} ValidSplit(p: Params, s: State, a: seq<Block>, b: seq<Block>)
    requires ValidChain(p, s, a + b)
    ensures ValidChain(p, s, a) && ValidChain(p, Fold(p, s, a), b)
    decreases |b|
  {
    if b == [] {
      assert a + b == a;
    } else {
      var n := |b| - 1;
      assert (a + b)[..|a + b| - 1] == a + b[..n];
      ValidSplit(p, s, a, b[..n]);
      FoldAppend(p, s, a, b[..n]);
    }
  }

  // -------------------- Speculation --------------------

  lemma {:induction false} NotarizeSlot(p: Params, m: Machine, work: seq<Block>, buffered: bool)
    requires SlotFree(m)
    ensures SlotFree(Notarize(p, m, work, buffered).m)
    decreases |Unexecuted(m.tree, work)|, |work|
  {
    if m.halted || work == [] {
    } else {
      var b := work[|work| - 1];
      var step := NotarizeOne(p, m, b);
      WorklistShrinks(p, m, work);
      NotarizeOneSlot(p, m, b);
      NotarizeSlot(p, step.m, work[..|work| - 1] + step.children, buffered || step.buffered);
    }
  }

  lemma {:induction false} NotarizeOneSlot(p: Params, m: Machine, b: Block)
    requires SlotFree(m)
    ensures SlotFree(NotarizeOne(p, m, b).m)
  {
  }

  lemma {:induction false} NotarizeAllSlot(p: Params, m: Machine, children: seq<Block>)
    requires SlotFree(m)
    ensures SlotFree(NotarizeAll(p, m, children))
    decreases |children|
  {
    if m.halted || children == [] {
    } else {
      NotarizeSlot(p, m, [children[0]], false);
      NotarizeAllSlot(p, Notarize(p, m, [children[0]], false).m, children[1..]);
    }
  }

  /** Re-adopting the orphans of the new head empties its slot for good. */
  lemma {:induction false} ReadoptSlot(p: Params, m: Machine, b: Block)
    requires m.canon.height == b.height && m.canon.head == b.Id()
    ensures !m.halted ==> SlotFree(Readopt(p, m, b))
  {
    var slot := Key(b.height + 1, b.Id());
    if !m.halted && slot in m.tree.orphans {
      NotarizeAllSlot(p, TakeOrphans(m, slot), m.tree.orphans[slot]);
    }
  }

  // -------------------- Finalized blocks --------------------

  lemma {:induction false} SameFinalityRecorded(p: Params, base: nat, m: Machine, n: Machine)
    requires Recorded(p, base, m) && SameFinality(m, n) && (!n.halted ==> SlotFree(n))
    ensures Recorded(p, base, n)
  {
  }

  lemma {:induction false} HeadersAfter(p: Params, base: nat, m: Machine, b: Block)
    requires HeadersFrom(p, base, m.disk.db) && Recovered(p, m.disk.db).epoch == m.canon.epoch
    requires IsLastOfEpoch(p.epochOf, b.height)
    ensures HeadersFrom(p, base, Db(m.disk.db.headers[m.canon.epoch := b.Id()], Some(Finalize(p, m.canon, b))))
  {
  }

  lemma {:induction false} ValidAppend(p: Params, s: State, chain: seq<Block>, b: Block)
    requires ValidChain(p, s, chain) && ValidNext(p, Fold(p, s, chain), b)
    ensures ValidChain(p, s, chain + [b])
  {
    assert (chain + [b])[..|chain|] == chain;
  }

  /** Settling a block records it; only its orphans are still waiting. */
  lemma {:induction false} SettleRecorded(p: Params, base: nat, m: Machine, e: Entry)
    requires ValidChain(p, m.past.start, m.past.applied) && m.canon == Fold(p, m.past.start, m.past.applied)
    requires AllDelivered(m.past.arrived, m.past.applied) && Delivered(m.past.arrived, e.block)
    requires HeadersFrom(p, base, m.disk.db) && Recovered(p, m.disk.db).epoch == m.canon.epoch
    requires ValidNext(p, m.canon, e.block)
    ensures var n := Settle(p, m, e, Execute(p, m.canon, e.block));
            && ValidChain(p, n.past.start, n.past.applied)
            && OfferOk(n.canon, n.past)
            && AllDelivered(n.past.arrived, n.past.applied)
            && HeadersFrom(p, base, n.disk.db)
            && n.canon.height == e.block.height && n.canon.head == e.block.Id()
  {
    SettleShape(p, m, e);
    ValidAppend(p, m.past.start, m.past.applied, e.block);
    DeliveredGrows(m.past.arrived, m.past.applied, e);
    if IsLastOfEpoch(p.epochOf, e.block.height) {
      HeadersAfter(p, base, m, e.block);
    }
  }

  lemma {:induction false} FinishRecorded(p: Params, base: nat, s: Machine, b: Block)
    requires ValidChain(p, s.past.start, s.past.applied) && OfferOk(s.canon, s.past)
    requires AllDelivered(s.past.arrived, s.past.applied) && HeadersFrom(p, base, s.disk.db)
    requires s.canon.height == b.height && s.canon.head == b.Id()
    ensures Recorded(p, base, Readopt(p, s, b))
  {
    ReadoptFrame(p, s, b);
    ReadoptSlot(p, s, b);
  }

  /** The part of the invariant a running process needs here. */
  ghost predicate Running(p: Params, m: Machine) {
    && m.canon == Fold(p, m.past.start, m.past.applied)
    && Recovered(p, m.disk.db).epoch == m.canon.epoch
    && Rooted(p, m.canon, m.tree.forks)
  }

  lemma {:induction false} HandleFinalizedRecorded(p: Params, base: nat, m: Machine, e: Entry)
    requires !m.halted && Running(p, m)
    requires Recorded(p, base, m) && Delivered(m.past.arrived, e.block)
    ensures Recorded(p, base, HandleFinalized(p, m, e).m)
  {
    var b := e.block;
    if Extends(m.canon, b) {
      var a := TryFinalize(p, m, b);
      var n := Offer(m, b, a.log);
      assert Recorded(p, base, n);
      if a.outcome == Applied {
        PromotionIsExecution(p, m, b);
        SettleRecorded(p, base, n, e);
        FinishRecorded(p, base, Settle(p, n, e, a.state), b);
      }
    }
  }

  lemma {:induction false} FirstIsDelivered(past: Past, e: Entry, rest: seq<Entry>)
    requires InOrder(past, [e] + rest)
    ensures Delivered(past.arrived, e.block)
  {
    assert past.arrived[|past.acked|..][0] == e;
    assert past.arrived[|past.acked|].block == e.block;
  }

  lemma {:induction false} PoppedInv(p: Params, m: Machine)
    requires Contiguous(p.epochOf)
    requires Inv(p, m) && !m.halted && m.queues.finalized != []
    ensures var r := HandleFinalized(p, PopFinalized(m), m.queues.finalized[0]);
            (!r.deferred ==> Inv(p, r.m)) && |r.m.queues.finalized| < |m.queues.finalized|
  {
    var e, popped := m.queues.finalized[0], PopFinalized(m);
    assert [e] + popped.queues.finalized == m.queues.finalized;
    HandleFinalizedInv(p, popped, e);
    HandleFinalizedFrame(p, popped, e);
  }

  lemma {:induction false} PoppedRecorded(p: Params, base: nat, m: Machine)
    requires Inv(p, m) && !m.halted && m.queues.finalized != [] && Recorded(p, base, m)
    ensures Recorded(p, base, HandleFinalized(p, PopFinalized(m), m.queues.finalized[0]).m)
  {
    var e, popped := m.queues.finalized[0], PopFinalized(m);
    PoppedFacts(p, m);
    FirstIsDelivered(popped.past, e, popped.queues.finalized);
    assert Recorded(p, base, popped);
    HandleFinalizedRecorded(p, base, popped, e);
  }

  lemma {:induction false} PoppedFacts(p: Params, m: Machine)
    requires Inv(p, m) && !m.halted && m.queues.finalized != []
    ensures var popped := PopFinalized(m);
            && Running(p, popped)
            && InOrder(popped.past, [m.queues.finalized[0]] + popped.queues.finalized)
  {
    assert [m.queues.finalized[0]] + m.queues.finalized[1..] == m.queues.finalized;
  }

  lemma {:induction false} DrainFinalizedRecorded(p: Params, base: nat, m: Machine)
    requires Contiguous(p.epochOf)
    requires Inv(p, m) && Recorded(p, base, m)
    ensures Recorded(p, base, DrainFinalized(p, m).m)
    decreases |m.queues.finalized|
  {
    if m.halted || m.queues.finalized == [] {
    } else {
      PoppedInv(p, m);
      PoppedRecorded(p, base, m);
      var r := HandleFinalized(p, PopFinalized(m), m.queues.finalized[0]);
      if !r.deferred {
        DrainFinalizedRecorded(p, base, r.m);
      }
    }
  }

  lemma {:induction false} DrainNotarizedRecorded(p: Params, base: nat, m: Machine)
    requires Recorded(p, base, m)
    ensures Recorded(p, base, DrainNotarized(p, m))
    decreases |m.queues.notarized|
  {
    if m.halted || m.queues.notarized == [] {
    } else {
      var b := m.queues.notarized[0];
      var popped := PopNotarized(m);
      NotarizeFrame(p, popped, [b], false);
      NotarizeSlot(p, popped, [b], false);
      var r := Notarize(p, popped, [b], false);
      SameFinalityRecorded(p, base, popped, r.m);
      if !r.buffered && !r.m.halted {
        DrainNotarizedRecorded(p, base, r.m);
      }
    }
  }

  lemma {:induction false} ArrivalRecorded(p: Params, base: nat, m: Machine, e: Entry)
    requires Recorded(p, base, m)
    ensures var n := m.(past := m.past.(arrived := m.past.arrived + [e]));
            Recorded(p, base, n) && Delivered(n.past.arrived, e.block)
  {
    var arrived := m.past.arrived + [e];
    assert arrived[|m.past.arrived|].block == e.block;
    forall b | Delivered(m.past.arrived, b)
      ensures Delivered(arrived, b)
    {
      var j :| 0 <= j < |m.past.arrived| && m.past.arrived[j].block == b;
      assert arrived[j].block == b;
    }
    assert AllDelivered(arrived, m.past.applied) by {
      forall b | b in m.past.applied
        ensures Delivered(arrived, b)
      {
        assert Delivered(m.past.arrived, b);
      }
    }
  }

  lemma {:induction false} OnFinalizedRecorded(p: Params, base: nat, m: Machine, e: Entry)
    requires Inv(p, m) && !m.halted && Recorded(p, base, m)
    ensures Recorded(p, base, OnFinalized(p, m, e))
  {
    var n := m.(past := m.past.(arrived := m.past.arrived + [e]));
    ArrivalRecorded(p, base, m, e);
    ArrivalFacts(p, m, e);
    if n.queues.finalized == [] {
      HandleFinalizedRecorded(p, base, n, e);
      PushedRecorded(p, base, HandleFinalized(p, n, e).m, e);
    } else {
      PushedRecorded(p, base, n, e);
    }
  }

  lemma {:induction false} PushedRecorded(p: Params, base: nat, m: Machine, e: Entry)
    requires Recorded(p, base, m)
    ensures Recorded(p, base, PushFinalized(m, e))
  {
  }

  lemma {:induction false} ArrivalFacts(p: Params, m: Machine, e: Entry)
    requires Inv(p, m) && !m.halted
    ensures var n := m.(past := m.past.(arrived := m.past.arrived + [e]));
            Running(p, n)
  {
    ArrivalInv(p, m, e);
  }

  // -------------------- Runs --------------------

  lemma {:induction false} BootRecorded(p: Params, base: nat, db: Db, boots: nat, served: set<(nat, Digest)>)
    requires HeadersFrom(p, base, db)
    ensures Recorded(p, base, Boot(p, db, boots, served))
  {
  }

  lemma {:induction false} QueryRecorded(p: Params, base: nat, m: Machine, e: Event)
    requires Recorded(p, base, m)
    requires e.NotifyAtHeight? || e.AuxData? || e.EpochGenesis?
    ensures Recorded(p, base, Handle(p, m, e))
  {
  }

  lemma {:induction false} NotarizedRecorded(p: Params, base: nat, m: Machine, b: Block)
    requires !m.halted && Recorded(p, base, m)
    ensures Recorded(p, base, Notarize(p, m, [b], false).m)
  {
    NotarizeFrame(p, m, [b], false);
    NotarizeSlot(p, m, [b], false);
    SameFinalityRecorded(p, base, m, Notarize(p, m, [b], false).m);
  }

  lemma {:induction false} DrainRecorded(p: Params, base: nat, m: Machine)
    requires Contiguous(p.epochOf)
    requires Inv(p, m) && Recorded(p, base, m)
    ensures Recorded(p, base, Drain(p, m))
  {
    DrainFinalizedRecorded(p, base, m);
    DrainNotarizedRecorded(p, base, DrainFinalized(p, m).m);
  }

  /** Every event, and every restart, keeps the record. */
  lemma {:induction false} StepRecorded(p: Params, base: nat, m: Machine, e: Event)
    requires Contiguous(p.epochOf)
    requires Inv(p, m) && Recorded(p, base, m)
    ensures Recorded(p, base, Step(p, m, e))
  {
    if e.Restart? {
      BootRecorded(p, base, m.disk.db, m.disk.boots + 1, m.served);
      assert Step(p, m, e) == Boot(p, m.disk.db, m.disk.boots + 1, m.served);
    } else if m.halted {
      assert Step(p, m, e) == m;
    } else if e.DeliverFinalized? {
      OnFinalizedRecorded(p, base, m, e.entry);
    } else if e.DeliverNotarized? {
      NotarizedRecorded(p, base, m, e.block);
    } else if e.Tick? {
      DrainRecorded(p, base, m);
    } else {
      QueryRecorded(p, base, m, e);
    }
  }
}

/**
 What the database holds: at every moment a restart would load the fold of a
 prefix of the blocks finalized by this process, and that prefix only grows.
 */
module FinalizerCommits {
  import opened Chain
  import opened FinalizerModel
  import opened ForkTree
  import opened FinalizerInvariants
  import opened FinalizerRuns

  /** The recovered state is the fold of the first blocks of `applied`. */
  ghost predicate CommittedPrefix(p: Params, db: Db, start: State, applied: seq<Block>) {
    var r := Recovered(p, db);
    && start.height <= r.height <= start.height + |applied|
    && r == Fold(p, start, applied[..r.height - start.height])
  }

  ghost predicate Delivered(arrived: seq<Entry>, b: Block) {
    exists j :: 0 <= j < |arrived| && arrived[j].block == b
  }

  /** Only delivered blocks are ever applied. */
  ghost predicate AllDelivered(arrived: seq<Entry>, applied: seq<Block>) {
    forall b {:trigger Delivered(arrived, b)} :: b in applied ==> Delivered(arrived, b)
  }

  ghost predicate Consecutive(start: State, applied: seq<Block>) {
    forall i :: 0 <= i < |applied| ==> applied[i].height == start.height + 1 + i
  }

  ghost predicate Committed(p: Params, m: Machine) {
    && CommittedPrefix(p, m.disk.db, m.past.start, m.past.applied)
    && Consecutive(m.past.start, m.past.applied)
    && AllDelivered(m.past.arrived, m.past.applied)
  }

  /** From `m` to `n` within one process. */
  ghost predicate Advances(p: Params, m: Machine, n: Machine) {
    && n.past.start == m.past.start
    && n.past.arrived == m.past.arrived
    && Recovered(p, n.disk.db).height >= Recovered(p, m.disk.db).height
    && Committed(p, n)
  }

  lemma {:induction false} PrefixGrows(p: Params, db: Db, start: State, applied: seq<Block>, b: Block)
    requires CommittedPrefix(p, db, start, applied)
    ensures CommittedPrefix(p, db, start, applied + [b])
  {
    var n := Recovered(p, db).height - start.height;
    assert (applied + [b])[..n] == applied[..n];
  }

  lemma {:induction false} ConsecutiveGrows(start: State, applied: seq<Block>, b: Block)
    requires Consecutive(start, applied) && b.height == start.height + 1 + |applied|
    ensures Consecutive(start, applied + [b])
  {
  }

  lemma {:induction false} DeliveredGrows(arrived: seq<Entry>, applied: seq<Block>, e: Entry)
    requires AllDelivered(arrived, applied) && Delivered(arrived, e.block)
    ensures AllDelivered(arrived, applied + [e.block])
  {
    forall b | b in applied + [e.block]
      ensures Delivered(arrived, b)
    {
      assert b in applied || b == e.block;
    }
  }

  /** The boundary stores exactly the fold of everything applied so far. */
  lemma {:induction false} BoundaryPrefix(p: Params, m: Machine, b: Block, db: Db)
    requires LedgerOk(p, m) && Extends(m.canon, b)
    requires db.latest == Some(Finalize(p, m.canon, b))
    ensures CommittedPrefix(p, db, m.past.start, m.past.applied + [b])
  {
    PromoteLedger(p, m, b);
    var applied := m.past.applied + [b];
    assert applied[..|applied|] == applied;
  }

  lemma {:induction false} SettleShape(p: Params, m: Machine, e: Entry)
    ensures var n := Settle(p, m, e, Execute(p, m.canon, e.block));
            && n.past.start == m.past.start && n.past.arrived == m.past.arrived
            && n.past.applied == m.past.applied + [e.block]
            && n.past.offering == None
            && (|| n.disk.db == m.disk.db
                || (&& IsLastOfEpoch(p.epochOf, e.block.height)
                    && n.disk.db == Db(m.disk.db.headers[m.canon.epoch := e.block.Id()],
                                       Some(Finalize(p, m.canon, e.block)))))
  {
  }

  lemma {:induction false} GrowthCommits(p: Params, m: Machine, n: Machine, e: Entry)
    requires Committed(p, m) && Delivered(m.past.arrived, e.block)
    requires e.block.height == m.past.start.height + 1 + |m.past.applied|
    requires n.past.start == m.past.start && n.past.arrived == m.past.arrived
             && n.past.applied == m.past.applied + [e.block]
    requires n.disk.db == m.disk.db
          || (CommittedPrefix(p, n.disk.db, n.past.start, n.past.applied)
              && Recovered(p, n.disk.db).height == e.block.height)
    ensures Advances(p, m, n)
  {
    PrefixGrows(p, m.disk.db, m.past.start, m.past.applied, e.block);
    ConsecutiveGrows(m.past.start, m.past.applied, e.block);
    DeliveredGrows(m.past.arrived, m.past.applied, e);
  }

  lemma {:induction false} SettleCommits(p: Params, m: Machine, e: Entry)
    requires LedgerOk(p, m) && Extends(m.canon, e.block)
    requires Committed(p, m) && Delivered(m.past.arrived, e.block)
    ensures Advances(p, m, Settle(p, m, e, Execute(p, m.canon, e.block)))
  {
    var n := Settle(p, m, e, Execute(p, m.canon, e.block));
    SettleShape(p, m, e);
    if n.disk.db != m.disk.db {
      BoundaryPrefix(p, m, e.block, n.disk.db);
    }
    GrowthCommits(p, m, n, e);
  }

  lemma {:induction false} HandleFinalizedCommits(p: Params, m: Machine, e: Entry)
    requires !m.halted && Live(p, m, [e] + m.queues.finalized)
    requires Committed(p, m)
    ensures Advances(p, m, HandleFinalized(p, m, e).m)
  {
    var b := e.block;
    if Extends(m.canon, b) {
      var a := TryFinalize(p, m, b);
      if a.outcome == Applied {
        PromotionIsExecution(p, m, b);
        var n := Offer(m, b, a.log);
        assert m.past.arrived[|m.past.acked|..][0] == e;
        assert m.past.arrived[|m.past.acked|].block == b;
        SettleCommits(p, n, e);
        ReadoptFrame(p, Settle(p, n, e, a.state), b);
      }
    }
  }

  lemma {:induction false} DrainFinalizedCommits(p: Params, m: Machine)
    requires Contiguous(p.epochOf)
    requires Inv(p, m) && Committed(p, m)
    ensures Advances(p, m, DrainFinalized(p, m).m)
    decreases |m.queues.finalized|
  {
    if m.halted || m.queues.finalized == [] {
    } else {
      var e := m.queues.finalized[0];
      var popped := PopFinalized(m);
      assert [e] + popped.queues.finalized == m.queues.finalized;
      HandleFinalizedInv(p, popped, e);
      HandleFinalizedFrame(p, popped, e);
      HandleFinalizedCommits(p, popped, e);
      var r := HandleFinalized(p, popped, e);
      if !r.deferred {
        DrainFinalizedCommits(p, r.m);
      }
    }
  }

  lemma {:induction false} DrainNotarizedCommits(p: Params, m: Machine)
    requires Committed(p, m)
    ensures Advances(p, m, DrainNotarized(p, m))
    decreases |m.queues.notarized|
  {
    if m.halted || m.queues.notarized == [] {
    } else {
      var b := m.queues.notarized[0];
      NotarizeFrame(p, PopNotarized(m), [b], false);
      var r := Notarize(p, PopNotarized(m), [b], false);
      if !r.buffered && !r.m.halted {
        DrainNotarizedCommits(p, r.m);
      }
    }
  }

  lemma {:induction false} OnFinalizedCommits(p: Params, m: Machine, e: Entry)
    requires Inv(p, m) && !m.halted && Committed(p, m)
    ensures var n := OnFinalized(p, m, e);
            && n.past.start == m.past.start
            && n.past.arrived == m.past.arrived + [e]
            && Recovered(p, n.disk.db).height >= Recovered(p, m.disk.db).height
            && Committed(p, n)
  {
    var n := m.(past := m.past.(arrived := m.past.arrived + [e]));
    ArrivalInv(p, m, e);
    forall b | b in n.past.applied
      ensures Delivered(n.past.arrived, b)
    {
      assert Delivered(m.past.arrived, b);
      var j :| 0 <= j < |m.past.arrived| && m.past.arrived[j].block == b;
      assert n.past.arrived[j].block == b;
    }
    if m.queues.finalized == [] {
      assert [] + [e] == [e] + [];
      HandleFinalizedCommits(p, n, e);
    }
  }

  /** Within one process every event keeps the start, appends to the arrivals, and only moves the database forward. */
  lemma {:induction false} StepCommits(p: Params, m: Machine, e: Event)
    requires Contiguous(p.epochOf)
    requires Inv(p, m) && Committed(p, m) && !e.Restart? && !m.halted
    ensures var n := Step(p, m, e);
            && n.past.start == m.past.start
            && n.past.arrived == m.past.arrived + (if e.DeliverFinalized? then [e.entry] else [])
            && Recovered(p, n.disk.db).height >= Recovered(p, m.disk.db).height
            && Committed(p, n)
  {
    assert m.past.arrived + [] == m.past.arrived;
    match e
    case DeliverFinalized(entry) => OnFinalizedCommits(p, m, entry);
    case DeliverNotarized(b) => NotarizeFrame(p, m, [b], false);
    case Tick =>
      DrainFinalizedCommits(p, m);
      DrainNotarizedCommits(p, DrainFinalized(p, m).m);
    case NotifyAtHeight(w) =>
    case AuxData(parent) =>
    case EpochGenesis(epoch) =>
  }

  lemma {:induction false} BootCommitted(p: Params, db: Db, boots: nat, served: set<(nat, Digest)>)
    ensures Committed(p, Boot(p, db, boots, served))
  {
  }

  lemma {:induction false} FoldAppend(p: Params, s: State, a: seq<Block>, b: seq<Block>)
    ensures Fold(p, s, a + b) == Fold(p, Fold(p, s, a), b)
    decreases |b|
  {
    if b == [] {
      assert a + b == a;
    } else {
      var n := |b| - 1;
      assert (a + b)[..|a + b| - 1] == a + b[..n];
      FoldAppend(p, s, a, b[..n]);
    }
  }
}

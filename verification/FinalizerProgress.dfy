/** Once the execution layer and the disk accept, finalized blocks are applied: nothing stays deferred. */
module FinalizerProgress {
  import opened Chain
  import opened FinalizerModel
  import opened ForkTree
  import opened FinalizerInvariants
  import opened FinalizerRuns
  import opened FinalizerCommits

  /** From call `call` and commit `commit` of this process on, everything is accepted. */
  ghost predicate AcceptsFrom(p: Params, boot: nat, call: nat, commit: nat) {
    && (forall i :: i >= call ==> p.engine(boot, i) == Valid)
    && (forall i :: i >= commit ==> p.disk(boot, i))
  }

  ghost predicate AcceptsNow(p: Params, m: Machine) {
    AcceptsFrom(p, m.disk.boots, |m.log|, m.disk.commits)
  }

  /** The entry carries a valid successor of `s`, certified where it must be. */
  ghost predicate Acceptable(p: Params, s: State, e: Entry) {
    && Extends(s, e.block)
    && e.block.epoch == s.epoch
    && p.payoutsMatch(s, e.block)
    && (e.certified.Some? ==> e.certified.value == e.block.Id())
    && (IsLastOfEpoch(p.epochOf, e.block.height) ==> e.certified.Some?)
  }

  ghost predicate AcceptableChain(p: Params, s: State, chain: seq<Entry>)
    decreases |chain|
  {
    chain == [] || (Acceptable(p, s, chain[0]) && AcceptableChain(p, Finalize(p, s, chain[0].block), chain[1..]))
  }

  function BlocksOf(chain: seq<Entry>): seq<Block> {
    seq(|chain|, i requires 0 <= i < |chain| => chain[i].block)
  }

  function AcksOf(chain: seq<Entry>): seq<nat> {
    seq(|chain|, i requires 0 <= i < |chain| => chain[i].ack)
  }

  // -------------------- Speculation never stops the process --------------------

  /** Later in the same process, with nothing new deferred. */
  ghost predicate Later(m: Machine, n: Machine) {
    && n.halted == m.halted
    && n.disk == m.disk
    && |n.log| >= |m.log|
  }

  lemma {:induction false} ExecuteAccepted(p: Params, s: State, b: Block, finalized: Option<EthHash>, boot: nat,
                                           log: seq<Call>, commit: nat)
    requires AcceptsFrom(p, boot, |log|, commit)
    ensures var a := TryExecute(p, s, b, finalized, boot, log);
            && |a.log| >= |log|
            && a.outcome == (if b.epoch == s.epoch && p.payoutsMatch(s, b) then Applied else InvalidPayload)
  {
  }

  lemma {:induction false} NotarizeOneAccepted(p: Params, m: Machine, b: Block)
    requires AcceptsNow(p, m)
    ensures Later(m, NotarizeOne(p, m, b).m)
  {
    if !Ignored(m, b) {
      var parent := ParentState(m.canon, m.tree.forks, b);
      if parent.Some? {
        ExecuteAccepted(p, parent.value, b, Some(m.canon.fork.finalized), m.disk.boots, m.log, m.disk.commits);
      }
    }
  }

  lemma {:induction false} NotarizeAccepted(p: Params, m: Machine, work: seq<Block>, buffered: bool)
    requires AcceptsNow(p, m)
    ensures Later(m, Notarize(p, m, work, buffered).m)
    decreases |Unexecuted(m.tree, work)|, |work|
  {
    if m.halted || work == [] {
    } else {
      var step := NotarizeOne(p, m, work[|work| - 1]);
      WorklistShrinks(p, m, work);
      NotarizeOneAccepted(p, m, work[|work| - 1]);
      NotarizeAccepted(p, step.m, work[..|work| - 1] + step.children, buffered || step.buffered);
    }
  }

  lemma {:induction false} NotarizeAllAccepted(p: Params, m: Machine, children: seq<Block>)
    requires AcceptsNow(p, m)
    ensures Later(m, NotarizeAll(p, m, children))
    decreases |children|
  {
    if m.halted || children == [] {
    } else {
      NotarizeAccepted(p, m, [children[0]], false);
      NotarizeAllAccepted(p, Notarize(p, m, [children[0]], false).m, children[1..]);
    }
  }

  lemma {:induction false} ReadoptAccepted(p: Params, m: Machine, b: Block)
    requires AcceptsNow(p, m)
    ensures Later(m, Readopt(p, m, b))
  {
    var slot := Key(b.height + 1, b.Id());
    if !m.halted && slot in m.tree.orphans {
      NotarizeAllAccepted(p, TakeOrphans(m, slot), m.tree.orphans[slot]);
    }
  }

  // -------------------- Finalized blocks are applied --------------------

  /** `n` is `m` with the entry finalized and acknowledged. */
  ghost predicate AppliedTo(p: Params, m: Machine, e: Entry, n: Machine) {
    && !n.halted
    && n.canon == Finalize(p, m.canon, e.block)
    && n.past.acked == m.past.acked + [e.ack]
    && n.queues.finalized == m.queues.finalized
    && AcceptsNow(p, n)
  }

  lemma {:induction false} SettleAccepted(p: Params, m: Machine, e: Entry)
    requires !m.halted && AcceptsNow(p, m) && Acceptable(p, m.canon, e)
    ensures AppliedTo(p, m, e, Settle(p, m, e, Execute(p, m.canon, e.block)))
  {
  }

  lemma {:induction false} OfferAccepted(p: Params, m: Machine, e: Entry)
    requires !m.halted && Rooted(p, m.canon, m.tree.forks) && AcceptsNow(p, m) && Acceptable(p, m.canon, e)
    ensures var a := TryFinalize(p, m, e.block);
            a.outcome == Applied && a.state == Execute(p, m.canon, e.block) && AcceptsNow(p, Offer(m, e.block, a.log))
  {
    if KeyOf(e.block) !in m.tree.forks {
      ExecuteAccepted(p, m.canon, e.block, None, m.disk.boots, m.log, m.disk.commits);
    }
    PromotionIsExecution(p, m, e.block);
  }

  /** An acceptable finalized block is applied and acknowledged at once, whatever forks and orphans are around. */
  lemma {:induction false} HandleAccepted(p: Params, m: Machine, e: Entry)
    requires !m.halted && Rooted(p, m.canon, m.tree.forks) && AcceptsNow(p, m) && Acceptable(p, m.canon, e)
    ensures var v := HandleFinalized(p, m, e); !v.deferred && AppliedTo(p, m, e, v.m)
  {
    var a := TryFinalize(p, m, e.block);
    OfferAccepted(p, m, e);
    var n := Offer(m, e.block, a.log);
    SettleAccepted(p, n, e);
    var s := Settle(p, n, e, a.state);
    ReadoptAccepted(p, s, e.block);
    ReadoptFrame(p, s, e.block);
  }

  /** `n` is `m` with a whole chain finalized and acknowledged in order. */
  ghost predicate CaughtUp(p: Params, m: Machine, chain: seq<Entry>, n: Machine) {
    && !n.halted
    && n.canon == Fold(p, m.canon, BlocksOf(chain))
    && n.past.acked == m.past.acked + AcksOf(chain)
    && n.queues.finalized == []
    && AcceptsNow(p, n)
  }

  lemma {:induction false} CaughtUpStep(p: Params, m: Machine, chain: seq<Entry>, mid: Machine, n: Machine)
    requires chain != [] && m.queues.finalized == chain && AppliedTo(p, PopFinalized(m), chain[0], mid)
             && CaughtUp(p, mid, chain[1..], n)
    ensures CaughtUp(p, m, chain, n)
  {
    var first := [chain[0].block];
    assert first[..0] == [] && Fold(p, m.canon, first) == Finalize(p, m.canon, chain[0].block);
    assert BlocksOf(chain) == first + BlocksOf(chain[1..]);
    FoldAppend(p, m.canon, first, BlocksOf(chain[1..]));
    assert AcksOf(chain) == [chain[0].ack] + AcksOf(chain[1..]);
  }

  lemma {:induction false} PoppedIsLive(p: Params, m: Machine)
    requires Inv(p, m) && !m.halted && m.queues.finalized != []
    ensures Always(p, PopFinalized(m))
            && Live(p, PopFinalized(m), [m.queues.finalized[0]] + PopFinalized(m).queues.finalized)
    ensures Rooted(p, m.canon, m.tree.forks)
  {
    assert [m.queues.finalized[0]] + m.queues.finalized[1..] == m.queues.finalized;
  }

  /** The first deferred block is applied and the drain goes on with the rest. */
  lemma {:induction false} FirstIsApplied(p: Params, m: Machine) returns (n: Machine)
    requires Contiguous(p.epochOf)
    requires Inv(p, m) && !m.halted && AcceptsNow(p, m)
    requires m.queues.finalized != [] && Acceptable(p, m.canon, m.queues.finalized[0])
    ensures Inv(p, n) && AppliedTo(p, PopFinalized(m), m.queues.finalized[0], n)
    ensures DrainFinalized(p, m) == DrainFinalized(p, n)
  {
    var e := m.queues.finalized[0];
    var popped := PopFinalized(m);
    PoppedIsLive(p, m);
    HandleAccepted(p, popped, e);
    HandleFinalizedInv(p, popped, e);
    n := HandleFinalized(p, popped, e).m;
  }

  /** One retry after the execution layer caught up applies everything that had been deferred, in order. */
  lemma {:induction false} DrainCatchesUp(p: Params, m: Machine)
    requires Contiguous(p.epochOf)
    requires Inv(p, m) && !m.halted && AcceptsNow(p, m)
    requires AcceptableChain(p, m.canon, m.queues.finalized)
    ensures CaughtUp(p, m, m.queues.finalized, DrainFinalized(p, m).m)
    decreases |m.queues.finalized|
  {
    var chain := m.queues.finalized;
    if chain == [] {
      assert m.past.acked + AcksOf(chain) == m.past.acked;
    } else {
      var mid := FirstIsApplied(p, m);
      DrainCatchesUp(p, mid);
      CaughtUpStep(p, m, chain, mid, DrainFinalized(p, mid).m);
    }
  }

  /** With nothing deferred, an acceptable delivery is applied and acknowledged on arrival. */
  lemma {:induction false} DeliveryIsApplied(p: Params, m: Machine, e: Entry)
    requires Inv(p, m) && !m.halted && AcceptsNow(p, m) && m.queues.finalized == []
    requires Acceptable(p, m.canon, e)
    ensures AppliedTo(p, m, e, Step(p, m, DeliverFinalized(e)))
  {
    HandleAccepted(p, m.(past := m.past.(arrived := m.past.arrived + [e])), e);
  }

  /** An acceptable notarized block on a live parent becomes a fork, and its waiters are told. */
  lemma {:induction false} NotarizedIsExecuted(p: Params, m: Machine, b: Block, parent: State)
    requires AcceptsNow(p, m) && !Ignored(m, b)
    requires b.height > m.canon.height && ParentState(m.canon, m.tree.forks, b) == Some(parent)
    requires b.epoch == parent.epoch && p.payoutsMatch(parent, b)
    ensures var n := NotarizeOne(p, m, b);
            && KeyOf(b) in n.m.tree.forks && n.m.tree.forks[KeyOf(b)] == Fork(b.parent, Execute(p, parent, b))
            && n.children == At(m.tree.orphans, Key(b.height + 1, b.Id()))
            && forall w :: w in m.notices.waiters && w.key == KeyOf(b) ==>
               w in n.m.notices.answered && n.m.notices.answered[w].yes
  {
    ExecuteAccepted(p, parent, b, Some(m.canon.fork.finalized), m.disk.boots, m.log, m.disk.commits);
  }
}

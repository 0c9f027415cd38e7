/**
 Height notification requests are conserved: no answer is ever revised and no
 request disappears unanswered while the process lives.
 */
module FinalizerRequests {
  import opened Chain
  import opened FinalizerModel

  ghost predicate Separate(n: Notices) {
    n.waiters !! n.answered.Keys
  }

  /** From `a` to `b`, answers are final and every open request stays open or gets its one answer. */
  ghost predicate Kept(a: Notices, b: Notices) {
    && (forall w :: w in a.answered ==> w in b.answered && b.answered[w] == a.answered[w])
    && (forall w :: w in a.waiters ==> w in b.waiters || w in b.answered)
    && (Separate(a) ==> Separate(b))
  }

  lemma {:induction false} RespondKeeps(n: Notices, keys: set<Key>, r: Reply)
    requires Separate(n)
    ensures Kept(n, Respond(n, WaitersFor(n, keys), r))
  {
  }

  lemma {:induction false} NotarizeOneKeeps(p: Params, m: Machine, b: Block)
    requires Separate(m.notices)
    ensures Kept(m.notices, NotarizeOne(p, m, b).m.notices)
  {
    var step := NotarizeOne(p, m, b);
    if step.m.notices != m.notices {
      var parent := ParentState(m.canon, m.tree.forks, b);
      var a := TryExecute(p, parent.value, b, Some(m.canon.fork.finalized), m.disk.boots, m.log);
      RespondKeeps(m.notices, {KeyOf(b)}, ReplyNow(m.canon, AddFork(m.tree, b, a.state), true));
    }
  }

  lemma {:induction false} NotarizeKeeps(p: Params, m: Machine, work: seq<Block>, buffered: bool)
    requires Separate(m.notices)
    ensures Kept(m.notices, Notarize(p, m, work, buffered).m.notices)
    decreases |Unexecuted(m.tree, work)|, |work|
  {
    if m.halted || work == [] {
    } else {
      var step := NotarizeOne(p, m, work[|work| - 1]);
      NotarizeOneKeeps(p, m, work[|work| - 1]);
      WorklistShrinks(p, m, work);
      NotarizeKeeps(p, step.m, work[..|work| - 1] + step.children, buffered || step.buffered);
    }
  }

  lemma {:induction false} NotarizeAllKeeps(p: Params, m: Machine, children: seq<Block>)
    requires Separate(m.notices)
    ensures Kept(m.notices, NotarizeAll(p, m, children).notices)
    decreases |children|
  {
    if m.halted || children == [] {
    } else {
      NotarizeKeeps(p, m, [children[0]], false);
      NotarizeAllKeeps(p, Notarize(p, m, [children[0]], false).m, children[1..]);
    }
  }

  lemma {:induction false} ReadoptKeeps(p: Params, m: Machine, b: Block)
    requires Separate(m.notices)
    ensures Kept(m.notices, Readopt(p, m, b).notices)
  {
    var slot := Key(b.height + 1, b.Id());
    if !m.halted && slot in m.tree.orphans {
      NotarizeAllKeeps(p, TakeOrphans(m, slot), m.tree.orphans[slot]);
    }
  }

  lemma {:induction false} PromoteKeeps(n: Notices, canon: State, t: Tree, u: Tree, b: Block)
    requires Separate(n)
    ensures Kept(n, PruneNotices(n, canon, t, u, b))
  {
    var gone := ReplyNow(canon, u.(dead := t.dead + CutBy(t, b)), false);
    var cut := Respond(n, WaitersFor(n, CutBy(t, b)), gone);
    RespondKeeps(n, CutBy(t, b), gone);
    RespondKeeps(cut, {KeyOf(b)}, ReplyNow(canon, u, true));
  }

  lemma {:induction false} SettleKeeps(p: Params, m: Machine, e: Entry, s: State)
    requires Separate(m.notices)
    ensures Kept(m.notices, Settle(p, m, e, s).notices)
  {
    PromoteKeeps(m.notices, Promote(m, e.block, s).canon, m.tree, PruneTree(m.tree, e.block), e.block);
  }

  lemma {:induction false} ConcludeKeeps(p: Params, m: Machine, e: Entry, a: Attempt)
    requires Separate(m.notices)
    ensures Kept(m.notices, Conclude(p, m, e, a).m.notices)
  {
    if a.outcome == Applied {
      SettleKeeps(p, m, e, a.state);
      ReadoptKeeps(p, Settle(p, m, e, a.state), e.block);
    }
  }

  lemma {:induction false} HandleFinalizedKeeps(p: Params, m: Machine, e: Entry)
    requires Separate(m.notices)
    ensures Kept(m.notices, HandleFinalized(p, m, e).m.notices)
  {
    var a := TryFinalize(p, m, e.block);
    ConcludeKeeps(p, Offer(m, e.block, a.log), e, a);
  }

  lemma {:induction false} DrainFinalizedKeeps(p: Params, m: Machine)
    requires Separate(m.notices)
    ensures Kept(m.notices, DrainFinalized(p, m).m.notices)
    decreases |m.queues.finalized|
  {
    if m.halted || m.queues.finalized == [] {
    } else {
      var e := m.queues.finalized[0];
      HandleFinalizedKeeps(p, PopFinalized(m), e);
      HandleFinalizedFrame(p, PopFinalized(m), e);
      var r := HandleFinalized(p, PopFinalized(m), e);
      if !r.deferred {
        DrainFinalizedKeeps(p, r.m);
      }
    }
  }

  lemma {:induction false} DrainNotarizedKeeps(p: Params, m: Machine)
    requires Separate(m.notices)
    ensures Kept(m.notices, DrainNotarized(p, m).notices)
    decreases |m.queues.notarized|
  {
    if m.halted || m.queues.notarized == [] {
    } else {
      var b := m.queues.notarized[0];
      NotarizeKeeps(p, PopNotarized(m), [b], false);
      NotarizeFrame(p, PopNotarized(m), [b], false);
      var r := Notarize(p, PopNotarized(m), [b], false);
      if !r.buffered && !r.m.halted {
        DrainNotarizedKeeps(p, r.m);
      }
    }
  }

  /** At most one answer per request: no event of a living process revises or drops one. */
  lemma {:induction false} RequestsConserved(p: Params, m: Machine, e: Event)
    requires Separate(m.notices) && !e.Restart?
    requires e.NotifyAtHeight? ==> e.waiter !in m.notices.waiters && e.waiter !in m.notices.answered
    ensures Kept(m.notices, Step(p, m, e).notices)
    ensures e.NotifyAtHeight? && !m.halted ==>
              var n := Step(p, m, e).notices; e.waiter in n.waiters || e.waiter in n.answered
  {
    if !m.halted {
      match e
      case DeliverFinalized(entry) =>
        HandleFinalizedKeeps(p, m.(past := m.past.(arrived := m.past.arrived + [entry])), entry);
      case DeliverNotarized(b) => NotarizeKeeps(p, m, [b], false);
      case Tick =>
        DrainFinalizedKeeps(p, m);
        DrainNotarizedKeeps(p, DrainFinalized(p, m).m);
      case NotifyAtHeight(w) =>
      case AuxData(parent) =>
      case EpochGenesis(epoch) =>
    }
  }
}

/**
 What every handler of the finalizer keeps.

 `Inv` is split by concern: the fork tree and its buffers, the waiters, the
 messages to the execution layer, the order of finalized blocks, and the
 database. Handling notarized blocks touches only the first three.
 */
module FinalizerInvariants {
  import opened Chain
  import opened FinalizerModel
  import opened ForkTree

  // -------------------- Tree and buffers --------------------

  ghost predicate OrphansOk(p: Params, canon: State, orphans: map<Key, seq<Block>>) {
    forall k, b :: k in orphans && b in orphans[k] ==>
      b.height == k.height && b.parent == k.digest && WellLabelled(p, b) && k.height > canon.height
  }

  /** A block that needs no further attempt, or whose next attempt is already queued. */
  ghost predicate IsSettled(t: Tree, keys: set<Digest>, rejected: set<Block>, b: Block) {
    KeyOf(b) in t.forks || b.Id() in keys || KeyOf(b) in t.dead || b in rejected
  }

  /** Every orphan whose parent is a live fork is settled or still on the worklist. */
  ghost predicate OrphansSettled(t: Tree, keys: set<Digest>, rejected: set<Block>, work: seq<Block>) {
    forall k, b :: k in t.orphans && b in t.orphans[k] && b.height > 0 && ParentKey(b) in t.forks ==>
      b in work || IsSettled(t, keys, rejected, b)
  }

  ghost predicate AllLabelled(p: Params, blocks: seq<Block>) {
    forall b :: b in blocks ==> WellLabelled(p, b)
  }

  ghost predicate DeadOk(canon: State, t: Tree) {
    t.dead !! t.forks.Keys && forall k :: k in t.dead ==> k.height > canon.height
  }

  ghost predicate TreeInv(p: Params, canon: State, t: Tree, keys: set<Digest>, rejected: set<Block>, work: seq<Block>) {
    && Rooted(p, canon, t.forks)
    && DeadOk(canon, t)
    && OrphansOk(p, canon, t.orphans)
    && OrphansSettled(t, keys, rejected, work)
    && AllLabelled(p, work)
  }

  ghost predicate QueueInv(p: Params, q: Queues) {
    && AllLabelled(p, q.notarized)
    && (forall d :: d in q.keys <==> exists i :: 0 <= i < |q.notarized| && q.notarized[i].Id() == d)
    && (forall i, j :: 0 <= i < j < |q.notarized| ==> q.notarized[i] != q.notarized[j])
  }

  // -------------------- Waiters --------------------

  /** Yes exactly to the canonical head and to live forks; no only to what can never become live. */
  ghost predicate ReplyOk(key: Key, r: Reply) {
    && (r.yes <==> key == r.head || key in r.live)
    && (!r.yes ==> key.height <= r.head.height || key in r.dead)
  }

  ghost predicate NoticesInv(canon: State, t: Tree, n: Notices) {
    && (forall w :: w in n.waiters ==> w.key.height > canon.height && w.key !in t.forks && w.key !in t.dead)
    && RepliesOk(n)
  }

  ghost predicate RepliesOk(n: Notices) {
    && n.waiters !! n.answered.Keys
    && forall w :: w in n.answered ==> ReplyOk(w.key, n.answered[w])
  }

  // -------------------- Execution layer --------------------

  /** The hashes of the start state and of every block finalized since. */
  ghost function FinalizedHashes(past: Past): set<EthHash> {
    {past.start.fork.finalized} + set b | b in past.applied :: b.eth
  }

  ghost function Cleared(past: Past): set<EthHash> {
    FinalizedHashes(past) + if past.offering.Some? then {past.offering.value.eth} else {}
  }

  ghost predicate LogOk(log: seq<Call>, past: Past) {
    forall i :: 0 <= i < |log| && !log[i].CheckPayload? ==> log[i].fork.finalized in Cleared(past)
  }

  // -------------------- One turn of the worklist --------------------

  lemma {:induction false} IgnoredKeepsTree(p: Params, m: Machine, work: seq<Block>)
    requires work != []
    requires TreeInv(p, m.canon, m.tree, m.queues.keys, m.past.rejected, work)
    requires Ignored(m, work[|work| - 1])
    ensures TreeInv(p, m.canon, m.tree, m.queues.keys, m.past.rejected, work[..|work| - 1])
  {
    var b := work[|work| - 1];
    var rest := work[..|work| - 1];
    forall k, x | k in m.tree.orphans && x in m.tree.orphans[k] && x.height > 0 && ParentKey(x) in m.tree.forks
      ensures x in rest || IsSettled(m.tree, m.queues.keys, m.past.rejected, x)
    {
      assert ForkOk(p, m.canon, m.tree.forks, ParentKey(x));
      assert x in work ==> x in rest || x == b;
    }
  }

  lemma {:induction false} OrphanSlots(t: Tree, b: Block, k: Key, x: Block)
    requires k in AddOrphan(t, b).orphans && x in AddOrphan(t, b).orphans[k]
    ensures (x == b && k == Key(b.height, b.parent)) || (k in t.orphans && x in t.orphans[k])
  {
  }

  lemma {:induction false} OrphanKeepsTree(p: Params, canon: State, t: Tree, keys: set<Digest>, rejected: set<Block>,
                                           work: seq<Block>)
    requires work != []
    requires TreeInv(p, canon, t, keys, rejected, work)
    requires var b := work[|work| - 1]; b.height > canon.height + 1 && ParentKey(b) !in t.forks
    ensures TreeInv(p, canon, AddOrphan(t, work[|work| - 1]), keys, rejected, work[..|work| - 1])
  {
    var b := work[|work| - 1];
    var rest := work[..|work| - 1];
    var u := AddOrphan(t, b);
    assert WellLabelled(p, b) by {
      assert b in work;
    }
    forall k, x | k in u.orphans && x in u.orphans[k]
      ensures x.height == k.height && x.parent == k.digest && WellLabelled(p, x) && k.height > canon.height
    {
      OrphanSlots(t, b, k, x);
    }
    forall k, x | k in u.orphans && x in u.orphans[k] && x.height > 0 && ParentKey(x) in u.forks
      ensures x in rest || IsSettled(u, keys, rejected, x)
    {
      OrphanSlots(t, b, k, x);
      assert x in work ==> x in rest || x == b;
    }
  }

  /** The block of this turn was rejected or queued for a retry: it counts as settled. */
  lemma {:induction false} SettledKeepsTree(p: Params, canon: State, t: Tree, keys: set<Digest>, rejected: set<Block>,
                                            work: seq<Block>, keys': set<Digest>, rejected': set<Block>)
    requires work != []
    requires TreeInv(p, canon, t, keys, rejected, work)
    requires keys <= keys' && rejected <= rejected'
    requires IsSettled(t, keys', rejected', work[|work| - 1])
    ensures TreeInv(p, canon, t, keys', rejected', work[..|work| - 1])
  {
    var b := work[|work| - 1];
    var rest := work[..|work| - 1];
    forall k, x | k in t.orphans && x in t.orphans[k] && x.height > 0 && ParentKey(x) in t.forks
      ensures x in rest || IsSettled(t, keys', rejected', x)
    {
      assert x in work ==> x in rest || x == b;
    }
  }

  /** A notarized block ready to execute: above the head, new, and with a live parent. */
  ghost predicate Ready(canon: State, t: Tree, b: Block) {
    && b.height > canon.height
    && KeyOf(b) !in t.forks && KeyOf(b) !in t.dead
    && (b.height == canon.height + 1 && canon.height > 0 ==> b.parent == canon.head)
    && ParentState(canon, t.forks, b).Some?
  }

  lemma {:induction false} ParentEpoch(p: Params, canon: State, forks: map<Key, Fork>, b: Block)
    requires Rooted(p, canon, forks)
    requires b.height > canon.height && ParentState(canon, forks, b).Some?
    ensures ParentState(canon, forks, b).value.epoch == canon.epoch
  {
    if b.height > canon.height + 1 {
      assert ForkOk(p, canon, forks, ParentKey(b));
    }
  }

  lemma {:induction false} AdoptKeepsRooted(p: Params, canon: State, t: Tree, b: Block, s: State)
    requires Rooted(p, canon, t.forks)
    requires Ready(canon, t, b)
    requires WellLabelled(p, b) && b.epoch == canon.epoch
    requires s == Execute(p, ParentState(canon, t.forks, b).value, b)
             && p.payoutsMatch(ParentState(canon, t.forks, b).value, b)
    ensures Rooted(p, canon, AddFork(t, b, s).forks)
  {
    var u := AddFork(t, b, s);
    ParentEpoch(p, canon, t.forks, b);
    forall k | k in u.forks
      ensures ForkOk(p, canon, u.forks, k)
    {
      if k != KeyOf(b) {
        assert ForkOk(p, canon, t.forks, k);
      }
    }
  }

  /** The block of this turn was executed: a new fork, and its orphans join the worklist. */
  lemma {:induction false} AdoptKeepsTree(p: Params, canon: State, t: Tree, keys: set<Digest>, rejected: set<Block>,
                                          work: seq<Block>, s: State)
    requires work != []
    requires TreeInv(p, canon, t, keys, rejected, work)
    requires Ready(canon, t, work[|work| - 1])
    requires work[|work| - 1].epoch == canon.epoch
    requires var parent := ParentState(canon, t.forks, work[|work| - 1]).value;
             s == Execute(p, parent, work[|work| - 1]) && p.payoutsMatch(parent, work[|work| - 1])
    ensures var b := work[|work| - 1];
            TreeInv(p, canon, AddFork(t, b, s), keys, rejected,
                    work[..|work| - 1] + At(t.orphans, Key(b.height + 1, b.Id())))
  {
    var b := work[|work| - 1];
    var rest := work[..|work| - 1];
    var u := AddFork(t, b, s);
    var slot := Key(b.height + 1, b.Id());
    var children := At(t.orphans, slot);
    assert WellLabelled(p, b) by {
      assert b in work;
    }
    AdoptKeepsRooted(p, canon, t, b, s);
    forall k, x | k in u.orphans && x in u.orphans[k] && x.height > 0 && ParentKey(x) in u.forks
      ensures x in rest + children || IsSettled(u, keys, rejected, x)
    {
      assert x in work ==> x in rest || x == b;
      if ParentKey(x) == KeyOf(b) {
        assert k == slot;
      }
    }
    forall x | x in rest + children
      ensures WellLabelled(p, x)
    {
      assert x in work || (slot in t.orphans && x in t.orphans[slot]);
    }
  }

  lemma {:induction false} EnqueueKeepsQueue(p: Params, q: Queues, b: Block)
    requires QueueInv(p, q) && WellLabelled(p, b) && b.Id() !in q.keys
    ensures QueueInv(p, Enqueue(q, b))
  {
    var r := Enqueue(q, b);
    forall d | d in r.keys
      ensures exists i :: 0 <= i < |r.notarized| && r.notarized[i].Id() == d
    {
      if d == b.Id() {
        assert r.notarized[|q.notarized|].Id() == d;
      } else {
        var i :| 0 <= i < |q.notarized| && q.notarized[i].Id() == d;
        assert r.notarized[i].Id() == d;
      }
    }
    forall i | 0 <= i < |q.notarized|
      ensures q.notarized[i] != b
    {
      assert q.notarized[i].Id() in q.keys;
    }
  }

  lemma {:induction false} RespondKeepsReplies(n: Notices, ws: set<Waiter>, r: Reply)
    requires RepliesOk(n)
    requires ws !! n.answered.Keys
    requires forall w :: w in ws ==> ReplyOk(w.key, r)
    ensures RepliesOk(Respond(n, ws, r))
  {
  }

  lemma {:induction false} TryExecuteLog(p: Params, s: State, b: Block, finalized: Option<EthHash>, boot: nat,
                                         log: seq<Call>, past: Past)
    requires LogOk(log, past)
    requires (if finalized.Some? then finalized.value else b.eth) in Cleared(past)
    ensures LogOk(TryExecute(p, s, b, finalized, boot, log).log, past)
  {
  }

  /** The speculative side of the invariant, with `work` still to be processed. */
  ghost predicate Speculative(p: Params, m: Machine, work: seq<Block>) {
    && TreeInv(p, m.canon, m.tree, m.queues.keys, m.past.rejected, work)
    && QueueInv(p, m.queues)
    && NoticesInv(m.canon, m.tree, m.notices)
  }

  ghost predicate Messages(m: Machine) {
    RepliesOk(m.notices) && LogOk(m.log, m.past)
  }

  /** Reacting to an attempt keeps the speculative invariant. */
  lemma {:induction false} AbsorbInv(p: Params, m: Machine, work: seq<Block>, a: Attempt)
    requires !m.halted && work != []
    requires Speculative(p, m, work)
    requires Ready(m.canon, m.tree, work[|work| - 1])
    requires a.outcome == Applied ==>
               && work[|work| - 1].epoch == m.canon.epoch
               && a.state == Execute(p, ParentState(m.canon, m.tree.forks, work[|work| - 1]).value, work[|work| - 1])
               && p.payoutsMatch(ParentState(m.canon, m.tree.forks, work[|work| - 1]).value, work[|work| - 1])
    ensures var step := Absorb(p, m, work[|work| - 1], a);
            && RepliesOk(step.m.notices)
            && (!step.m.halted ==> Speculative(p, step.m, work[..|work| - 1] + step.children))
  {
    var b := work[|work| - 1];
    var rest := work[..|work| - 1];
    var step := Absorb(p, m, b, a);
    assert rest + [] == rest;
    match a.outcome
    case EngineError =>
    case InvalidPayload =>
      SettledKeepsTree(p, m.canon, m.tree, m.queues.keys, m.past.rejected, work, m.queues.keys, m.past.rejected + {b});
    case Deferred =>
      assert b in work;
      SettledKeepsTree(p, m.canon, m.tree, m.queues.keys, m.past.rejected, work, m.queues.keys + {b.Id()},
                       m.past.rejected);
      if b.Id() in m.queues.keys {
        assert m.queues.keys + {b.Id()} == m.queues.keys;
      } else {
        EnqueueKeepsQueue(p, m.queues, b);
      }
    case Applied =>
      AdoptKeepsTree(p, m.canon, m.tree, m.queues.keys, m.past.rejected, work, a.state);
      RespondKeepsReplies(m.notices, WaitersFor(m.notices, {KeyOf(b)}),
                          ReplyNow(m.canon, AddFork(m.tree, b, a.state), true));
  }

  lemma {:induction false} NotarizeOneInv(p: Params, m: Machine, work: seq<Block>)
    requires !m.halted && work != []
    requires Speculative(p, m, work) && Messages(m)
    requires m.canon.fork.finalized in Cleared(m.past)
    ensures var step := NotarizeOne(p, m, work[|work| - 1]);
            && Messages(step.m)
            && (!step.m.halted ==> Speculative(p, step.m, work[..|work| - 1] + step.children))
  {
    var b := work[|work| - 1];
    assert work[..|work| - 1] + [] == work[..|work| - 1];
    if Ignored(m, b) {
      IgnoredKeepsTree(p, m, work);
    } else {
      var parent := ParentState(m.canon, m.tree.forks, b);
      if parent.None? {
        OrphanKeepsTree(p, m.canon, m.tree, m.queues.keys, m.past.rejected, work);
      } else {
        var a := TryExecute(p, parent.value, b, Some(m.canon.fork.finalized), m.disk.boots, m.log);
        TryExecuteLog(p, parent.value, b, Some(m.canon.fork.finalized), m.disk.boots, m.log, m.past);
        ParentEpoch(p, m.canon, m.tree.forks, b);
        AbsorbInv(p, m.(log := a.log), work, a);
        AbsorbLog(p, m.(log := a.log), b, a);
      }
    }
  }

  lemma {:induction false} AbsorbLog(p: Params, m: Machine, b: Block, a: Attempt)
    requires LogOk(m.log, m.past)
    ensures var n := Absorb(p, m, b, a).m; LogOk(n.log, n.past)
  {
  }

  /** `handle_notarized_block` keeps the invariant and leaves no unblocked orphan behind. */
  lemma {:induction false} NotarizeInv(p: Params, m: Machine, work: seq<Block>, buffered: bool)
    requires Messages(m)
    requires !m.halted ==> Speculative(p, m, work)
    requires m.canon.fork.finalized in Cleared(m.past)
    ensures var n := Notarize(p, m, work, buffered).m;
            && Messages(n)
            && (!n.halted ==> Speculative(p, n, []))
    decreases |Unexecuted(m.tree, work)|, |work|
  {
    if m.halted || work == [] {
    } else {
      var step := NotarizeOne(p, m, work[|work| - 1]);
      NotarizeOneInv(p, m, work);
      NotarizeOneFrame(p, m, work[|work| - 1]);
      WorklistShrinks(p, m, work);
      NotarizeInv(p, step.m, work[..|work| - 1] + step.children, buffered || step.buffered);
    }
  }
}

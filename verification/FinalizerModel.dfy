/**
 The finalizer as a deterministic machine.

 Everything the actor cannot control is a parameter: the state transition of
 the chain, the answers of the execution layer (indexed by process start
 and by the number of calls made since) and the outcome of each database commit. A statement proved for
 all parameters therefore holds for every pattern of VALID, INVALID and SYNCING
 answers and every engine or disk failure.
 */
module FinalizerModel {
  import opened Chain

  /** An encoding of the part of the consensus state the finalizer never inspects. */
  type Core = nat

  datatype Forkchoice = Forkchoice(head: EthHash, safe: EthHash, finalized: EthHash)

  datatype State = State(height: nat, head: Digest, epoch: nat, view: nat,
                         fork: Forkchoice, epochGenesis: Digest, core: Core)

  datatype Answer = Valid | Invalid | Syncing | Unreachable

  datatype Params = Params(
    execute: (State, Block) -> Core,
    boundary: (State, Block) -> Core,
    payoutsMatch: (State, Block) -> bool,
    epochOf: nat -> nat,
    engine: (nat, nat) -> Answer,
    disk: (nat, nat) -> bool,
    maxPendingNotarized: nat,
    checkpointed: State -> bool,
    genesis: Digest,
    initial: State)

  /** A message to the execution layer. */
  datatype Call = CheckPayload(block: Block) | Commit(fork: Forkchoice) | Build(fork: Forkchoice)

  /** A speculative state, kept under the key of the block that produced it. */
  datatype Fork = Fork(parent: Digest, state: State)

  /** A finalized block as the syncer delivers it; `certified` is the payload of its certificate. */
  datatype Entry = Entry(block: Block, certified: Option<Digest>, ack: nat)

  /** A height notification request; `id` tells requests apart. */
  datatype Waiter = Waiter(id: nat, key: Key)

  /** An answer together with what was live when it was sent. */
  datatype Reply = Reply(yes: bool, head: Key, live: set<Key>, dead: set<Key>)

  datatype Db = Db(headers: map<nat, Digest>, latest: Option<State>)

  /** Speculative blocks: executed ones, tombstones, and blocks still waiting for their parent. */
  datatype Tree = Tree(forks: map<Key, Fork>, dead: set<Key>, orphans: map<Key, seq<Block>>)

  /** Blocks deferred because the execution layer was SYNCING. */
  datatype Queues = Queues(finalized: seq<Entry>, notarized: seq<Block>, keys: set<Digest>)

  /** Height notifications: open requests and, as history, the answers already sent. */
  datatype Notices = Notices(waiters: set<Waiter>, answered: map<Waiter, Reply>)

  datatype Disk = Disk(db: Db, boots: nat, commits: nat)

  /** History of the current process: nothing below is read by a transition. */
  datatype Past = Past(start: State, applied: seq<Block>, offering: Option<Block>,
                       arrived: seq<Entry>, acked: seq<nat>, rejected: set<Block>)

  datatype Machine = Machine(
    canon: State,
    tree: Tree,
    queues: Queues,
    notices: Notices,
    disk: Disk,
    halted: bool,
    log: seq<Call>,
    past: Past,
    served: set<(nat, Digest)>)

  // -------------------- Consensus state --------------------

  /** The state after executing `b` on `s`: safe and finalized are normalized to the new head. */
  function Execute(p: Params, s: State, b: Block): State {
    State(b.height, b.Id(), s.epoch, b.view, Forkchoice(b.eth, b.eth, b.eth), s.epochGenesis, p.execute(s, b))
  }

  function Boundary(p: Params, s: State, b: Block): State {
    State(s.height, s.head, s.epoch + 1, 0, s.fork, b.Id(), p.boundary(s, b))
  }

  /** Finalizing one block: execute it and, on the last block of an epoch, cross the boundary. */
  function Finalize(p: Params, s: State, b: Block): State {
    var t := Execute(p, s, b);
    if IsLastOfEpoch(p.epochOf, b.height) then Boundary(p, t, b) else t
  }

  /** The reference semantics: finalize the blocks of a chain one after the other. */
  function Fold(p: Params, s: State, chain: seq<Block>): State {
    if chain == [] then s else Finalize(p, Fold(p, s, chain[..|chain| - 1]), chain[|chain| - 1])
  }

  function HeadKey(s: State): Key {
    Key(s.height, s.head)
  }

  /** What a restart loads: the last committed state, or the configured one on an empty database. */
  function Recovered(p: Params, db: Db): State {
    if db.latest.Some? then db.latest.value else p.initial
  }

  // -------------------- Execution layer --------------------

  datatype Outcome = Applied | InvalidPayload | Deferred | EngineError

  datatype Attempt = Attempt(outcome: Outcome, state: State, log: seq<Call>)

  function Judge(answer: Answer): Outcome {
    match answer
    case Valid => Applied
    case Invalid => InvalidPayload
    case Syncing => Deferred
    case Unreachable => EngineError
  }

  /** One execution attempt: epoch check, payload check, payout check, forkchoice, in this order. */
  function TryExecute(p: Params, s: State, b: Block, finalized: Option<EthHash>, boot: nat, log: seq<Call>): Attempt {
    if b.epoch != s.epoch then Attempt(InvalidPayload, s, log) else
    var checked := log + [CheckPayload(b)];
    var payload := Judge(p.engine(boot, |log|));
    if payload != Applied then Attempt(payload, s, checked) else
    if !p.payoutsMatch(s, b) then Attempt(InvalidPayload, s, checked) else
    var f := if finalized.Some? then finalized.value else b.eth;
    var outcome := Judge(p.engine(boot, |checked|));
    Attempt(outcome, if outcome == Applied then Execute(p, s, b) else s, checked + [Commit(Forkchoice(b.eth, f, f))])
  }

  // -------------------- Waiters --------------------

  function Respond(n: Notices, ws: set<Waiter>, reply: Reply): Notices {
    Notices(n.waiters - ws, n.answered + (map w | w in ws :: reply))
  }

  function ReplyNow(canon: State, tree: Tree, yes: bool): Reply {
    Reply(yes, HeadKey(canon), tree.forks.Keys, tree.dead)
  }

  function WaitersFor(n: Notices, keys: set<Key>): set<Waiter> {
    set w | w in n.waiters && w.key in keys
  }

  /** Answers every waiter at or below a finalized block: yes to that block, no to all others. */
  function NotifyFinalizedUpTo(n: Notices, key: Key, yes: Reply, no: Reply): Notices {
    var hit := Respond(n, WaitersFor(n, {key}), yes);
    Respond(hit, (set w | w in hit.waiters && w.key.height <= key.height), no)
  }

  // -------------------- Fork tree --------------------

  /** The state a notarized block executes on, if its parent is known. */
  function ParentState(canon: State, forks: map<Key, Fork>, b: Block): Option<State>
    requires b.height > canon.height
  {
    if b.height == canon.height + 1 then Some(canon)
    else if ParentKey(b) in forks then Some(forks[ParentKey(b)].state)
    else None
  }

  function Level(forks: map<Key, Fork>, height: nat): set<Key> {
    set k | k in forks && k.height == height
  }

  /** The fork keys between `height` and `top` that survive a level by level sweep. */
  function Sweep(forks: map<Key, Fork>, live: set<Digest>, height: nat, top: nat): set<Key>
    decreases top + 1 - height
  {
    if height > top then {}
    else
      var level := Level(forks, height);
      if level == {} then Sweep(forks, live, height + 1, top)
      else
        var kept := set k | k in level && forks[k].parent in live;
        kept + Sweep(forks, (set k | k in kept :: k.digest), height + 1, top)
  }

  function Top(keys: set<Key>): (top: nat)
    ensures forall k :: k in keys ==> k.height <= top
    decreases |keys|
  {
    if keys == {} then 0
    else
      TopExists(keys);
      var k :| k in keys && forall j :: j in keys ==> j.height <= k.height;
      k.height
  }

  lemma {:induction false} TopExists(keys: set<Key>)
    requires keys != {}
    ensures exists k :: k in keys && forall j :: j in keys ==> j.height <= k.height
    decreases |keys|
  {
    var x :| x in keys;
    var rest := keys - {x};
    assert keys == rest + {x};
    if rest == {} {
    } else {
      TopExists(rest);
      var k :| k in rest && forall j :: j in rest ==> j.height <= k.height;
      var best := if x.height > k.height then x else k;
      assert best in keys && forall j :: j in keys ==> j.height <= best.height;
    }
  }

  function Above<T>(table: map<Key, T>, height: nat): map<Key, T> {
    map k | k in table && k.height > height :: table[k]
  }

  function Higher(keys: set<Key>, height: nat): set<Key> {
    set k | k in keys && k.height > height
  }

  function At(orphans: map<Key, seq<Block>>, k: Key): seq<Block> {
    if k in orphans then orphans[k] else []
  }

  /** The tree once `b` is final: its descendants stay, every other higher fork is tombstoned. */
  function PruneTree(t: Tree, b: Block): Tree {
    var above := Above(t.forks, b.height);
    var kept := Sweep(above, {b.Id()}, b.height + 1, Top(above.Keys));
    Tree((map k | k in above && k in kept :: above[k]),
         Higher(t.dead + (above.Keys - kept), b.height),
         Above(t.orphans, b.height))
  }

  /** The forks a finalized block kills. */
  function CutBy(t: Tree, b: Block): set<Key> {
    var above := Above(t.forks, b.height);
    above.Keys - Sweep(above, {b.Id()}, b.height + 1, Top(above.Keys))
  }

  // -------------------- Notarized blocks --------------------

  datatype Progress = Progress(m: Machine, children: seq<Block>, buffered: bool)

  /** Outdated blocks, blocks on dead forks and blocks already executed. */
  predicate Ignored(m: Machine, b: Block) {
    || b.height <= m.canon.height
    || KeyOf(b) in m.tree.dead
    || KeyOf(b) in m.tree.forks
    || (b.height == m.canon.height + 1 && m.canon.height > 0 && b.parent != m.canon.head)
  }

  function AddOrphan(t: Tree, b: Block): Tree {
    var slot := Key(b.height, b.parent);
    t.(orphans := t.orphans[slot := At(t.orphans, slot) + [b]])
  }

  function AddFork(t: Tree, b: Block, s: State): Tree {
    t.(forks := t.forks[KeyOf(b) := Fork(b.parent, s)])
  }

  function Enqueue(q: Queues, b: Block): Queues {
    q.(notarized := q.notarized + [b], keys := q.keys + {b.Id()})
  }

  /** Records an executed fork, answers its waiters and hands out the orphans it unblocks. */
  function Adopt(m: Machine, b: Block, s: State): Progress {
    var tree := AddFork(m.tree, b, s);
    var notices := Respond(m.notices, WaitersFor(m.notices, {KeyOf(b)}), ReplyNow(m.canon, tree, true));
    Progress(m.(tree := tree, notices := notices), At(m.tree.orphans, Key(b.height + 1, b.Id())), false)
  }

  /** Reacts to one execution attempt of a notarized block. */
  function Absorb(p: Params, m: Machine, b: Block, a: Attempt): Progress {
    match a.outcome
    case EngineError => Progress(m.(halted := true), [], false)
    case InvalidPayload => Progress(m.(past := m.past.(rejected := m.past.rejected + {b})), [], false)
    case Deferred =>
      if b.Id() in m.queues.keys then Progress(m, [], true)
      else if |m.queues.notarized| >= p.maxPendingNotarized then Progress(m.(halted := true), [], false)
      else Progress(m.(queues := Enqueue(m.queues, b)), [], true)
    case Applied => Adopt(m, b, a.state)
  }

  /** One turn of the worklist of `handle_notarized_block`. */
  function NotarizeOne(p: Params, m: Machine, b: Block): Progress {
    if Ignored(m, b) then Progress(m, [], false)
    else
      var parent := ParentState(m.canon, m.tree.forks, b);
      if parent.None? then Progress(m.(tree := AddOrphan(m.tree, b)), [], false)
      else
        var a := TryExecute(p, parent.value, b, Some(m.canon.fork.finalized), m.disk.boots, m.log);
        Absorb(p, m.(log := a.log), b, a)
  }

  function OrphanSet(orphans: map<Key, seq<Block>>): set<Block> {
    set k, b | k in orphans && b in orphans[k] :: b
  }

  /** The known blocks that have not been executed: the first component of the worklist measure. */
  function Unexecuted(t: Tree, work: seq<Block>): set<Block> {
    set b | b in OrphanSet(t.orphans) + (set w | w in work) && KeyOf(b) !in t.forks
  }

  datatype Handled = Handled(m: Machine, buffered: bool)

  /** `handle_notarized_block`: drain the worklist from its end, until an error. */
  function Notarize(p: Params, m: Machine, work: seq<Block>, buffered: bool): Handled
    decreases |Unexecuted(m.tree, work)|, |work|
  {
    if m.halted || work == [] then Handled(m, buffered)
    else
      var step := NotarizeOne(p, m, work[|work| - 1]);
      WorklistShrinks(p, m, work);
      Notarize(p, step.m, work[..|work| - 1] + step.children, buffered || step.buffered)
  }

  /** How one turn can change the tree. */
  ghost predicate TreeTurn(t: Tree, u: Tree, b: Block, children: seq<Block>) {
    || (u == t && children == [])
    || (u == AddOrphan(t, b) && children == [])
    || (KeyOf(b) !in t.forks && children == At(t.orphans, Key(b.height + 1, b.Id()))
        && exists s :: u == AddFork(t, b, s))
  }

  lemma {:induction false} TurnShape(p: Params, m: Machine, b: Block)
    ensures var step := NotarizeOne(p, m, b);
            TreeTurn(m.tree, step.m.tree, b, step.children)
  {
  }

  /** The termination argument: a turn either shortens the worklist or executes a new block. */
  lemma {:induction false} WorklistShrinks(p: Params, m: Machine, work: seq<Block>)
    requires work != []
    ensures var step := NotarizeOne(p, m, work[|work| - 1]);
            var next := work[..|work| - 1] + step.children;
            || |Unexecuted(step.m.tree, next)| < |Unexecuted(m.tree, work)|
            || (|Unexecuted(step.m.tree, next)| <= |Unexecuted(m.tree, work)| && |next| < |work|)
  {
    var b := work[|work| - 1];
    var step := NotarizeOne(p, m, b);
    TurnShape(p, m, b);
    TurnShrinks(m.tree, step.m.tree, work, step.children);
  }

  lemma {:induction false} TurnShrinks(t: Tree, u: Tree, work: seq<Block>, children: seq<Block>)
    requires work != []
    requires TreeTurn(t, u, work[|work| - 1], children)
    ensures var next := work[..|work| - 1] + children;
            || |Unexecuted(u, next)| < |Unexecuted(t, work)|
            || (|Unexecuted(u, next)| <= |Unexecuted(t, work)| && |next| < |work|)
  {
    var b := work[|work| - 1];
    var next := work[..|work| - 1] + children;
    var before := Unexecuted(t, work);
    var after := Unexecuted(u, next);
    assert b in work;
    forall x | x in after
      ensures x in before
    {
      if x !in next {
        var k :| k in u.orphans && x in u.orphans[k];
        assert x in At(t.orphans, k) || x == b;
      } else {
        assert x in work[..|work| - 1] || x in children;
      }
    }
    assert after <= before;
    Subsets(after, before);
    if children != [] {
      assert b in before && b !in after;
      StrictSubsets(after, before);
    }
  }

  lemma {:induction false} Subsets<T>(a: set<T>, b: set<T>)
    requires a <= b
    ensures |a| <= |b|
  {
    assert b == a + (b - a);
  }

  lemma {:induction false} StrictSubsets<T>(a: set<T>, b: set<T>)
    requires a < b
    ensures |a| < |b|
  {
    assert b == a + (b - a);
    assert b - a != {};
  }

  // -------------------- Finalized blocks --------------------

  function Ack(m: Machine, e: Entry): Machine {
    m.(past := m.past.(acked := m.past.acked + [e.ack]))
  }

  /** The waiters once `b` is final and `tree` is what it left of the tree `before`. */
  function PruneNotices(n: Notices, canon: State, before: Tree, tree: Tree, b: Block): Notices {
    var cut := CutBy(before, b);
    var told := Respond(n, WaitersFor(n, cut), ReplyNow(canon, tree.(dead := before.dead + cut), false));
    NotifyFinalizedUpTo(told, KeyOf(b), ReplyNow(canon, tree, true), ReplyNow(canon, tree, false))
  }

  /** Makes `s`, the state after the finalized block, canonical and prunes everything it decides. */
  function Promote(m: Machine, b: Block, s: State): Machine {
    var canon := s.(fork := Forkchoice(s.fork.head, s.fork.head, s.fork.head));
    var tree := PruneTree(m.tree, b);
    m.(canon := canon,
       tree := tree,
       notices := PruneNotices(m.notices, canon, m.tree, tree, b),
       past := m.past.(applied := m.past.applied + [b], offering := None))
  }

  /** The epoch boundary: header, next epoch's state and their commit. */
  function CrossBoundary(p: Params, m: Machine, b: Block): Machine {
    var next := Boundary(p, m.canon, b);
    var ok := p.disk(m.disk.boots, m.disk.commits);
    var db := if ok then Db(m.disk.db.headers[m.canon.epoch := b.Id()], Some(next)) else m.disk.db;
    m.(canon := next, disk := Disk(db, m.disk.boots, m.disk.commits + 1), halted := !ok)
  }

  /** Everything after the forkchoice was adopted, up to and including the acknowledgement. */
  function Settle(p: Params, m: Machine, e: Entry, s: State): Machine {
    var n := Promote(m, e.block, s);
    if IsLastOfEpoch(p.epochOf, e.block.height) then
      if e.certified.None? then n.(halted := true)
      else
        var c := CrossBoundary(p, n, e.block);
        if c.halted then c else Ack(c, e)
    else Ack(n, e)
  }

  function NotarizeAll(p: Params, m: Machine, children: seq<Block>): Machine
    decreases |children|
  {
    if m.halted || children == [] then m
    else NotarizeAll(p, Notarize(p, m, [children[0]], false).m, children[1..])
  }

  /** Re-adopts the orphans that were waiting for the block just finalized. */
  function Readopt(p: Params, m: Machine, b: Block): Machine {
    var slot := Key(b.height + 1, b.Id());
    if m.halted || slot !in m.tree.orphans then m
    else NotarizeAll(p, TakeOrphans(m, slot), m.tree.orphans[slot])
  }

  function TakeOrphans(m: Machine, slot: Key): Machine {
    m.(tree := m.tree.(orphans := m.tree.orphans - {slot}))
  }

  datatype Verdict = Verdict(m: Machine, deferred: bool)

  function Halt(m: Machine): Verdict {
    Verdict(m.(halted := true), false)
  }

  /** The finalized block extends the canonical head. */
  predicate Extends(s: State, b: Block) {
    b.height == s.height + 1 && b.parent == s.head
  }

  /** The execution layer's part: promote a known fork, or execute the block on the canonical state. */
  function TryFinalize(p: Params, m: Machine, b: Block): Attempt {
    var k := KeyOf(b);
    if k in m.tree.forks then
      Attempt(Judge(p.engine(m.disk.boots, |m.log|)), m.tree.forks[k].state,
              m.log + [Commit(Forkchoice(b.eth, b.eth, b.eth))])
    else TryExecute(p, m.canon, b, None, m.disk.boots, m.log)
  }

  /** `handle_finalized_block`; `deferred` hands the entry back to the caller. */
  function HandleFinalized(p: Params, m: Machine, e: Entry): Verdict {
    var b := e.block;
    if b.height <= m.canon.height then
      if b.height == m.canon.height && b.Id() != m.canon.head then Halt(m) else Verdict(Ack(m, e), false)
    else if e.certified.Some? && e.certified.value != b.Id() then Halt(m)
    else if !Extends(m.canon, b) then Halt(m)
    else
      var a := TryFinalize(p, m, b);
      Conclude(p, Offer(m, b, a.log), e, a)
  }

  /** The block was named final to the execution layer; the calls made are in `log`. */
  function Offer(m: Machine, b: Block, log: seq<Call>): Machine {
    m.(log := log, past := m.past.(offering := Some(b)))
  }

  /** Reacts to the execution layer's answer to an offered block. */
  function Conclude(p: Params, m: Machine, e: Entry, a: Attempt): Verdict {
    match a.outcome
    case Deferred => Verdict(m, true)
    case EngineError => Halt(m)
    case InvalidPayload => Halt(m)
    case Applied => Verdict(Readopt(p, Settle(p, m, e, a.state), e.block), false)
  }

  // -------------------- Retries --------------------

  function DrainFinalized(p: Params, m: Machine): Verdict
    decreases |m.queues.finalized|
  {
    if m.halted || m.queues.finalized == [] then Verdict(m, false)
    else
      var e := m.queues.finalized[0];
      var popped := PopFinalized(m);
      var r := HandleFinalized(p, popped, e);
      HandleFinalizedFrame(p, popped, e);
      if r.deferred then Verdict(r.m.(queues := r.m.queues.(finalized := [e] + r.m.queues.finalized)), true)
      else DrainFinalized(p, r.m)
  }

  function PopFinalized(m: Machine): Machine
    requires m.queues.finalized != []
  {
    m.(queues := m.queues.(finalized := m.queues.finalized[1..]))
  }

  function PopNotarized(m: Machine): Machine
    requires m.queues.notarized != []
  {
    m.(queues := m.queues.(notarized := m.queues.notarized[1..], keys := m.queues.keys - {m.queues.notarized[0].Id()}))
  }

  function DrainNotarized(p: Params, m: Machine): Machine
    decreases |m.queues.notarized|
  {
    if m.halted || m.queues.notarized == [] then m
    else
      var r := Notarize(p, PopNotarized(m), [m.queues.notarized[0]], false);
      NotarizeFrame(p, PopNotarized(m), [m.queues.notarized[0]], false);
      if r.buffered || r.m.halted then r.m else DrainNotarized(p, r.m)
  }

  /** `drain_pending`: finalized blocks first, notarized ones only once those are through. */
  function Drain(p: Params, m: Machine): Machine {
    var r := DrainFinalized(p, m);
    if r.deferred then r.m else DrainNotarized(p, r.m)
  }

  /** What handling notarized blocks leaves alone. */
  ghost predicate SameFinality(m: Machine, n: Machine) {
    && n.canon == m.canon && n.disk == m.disk && n.served == m.served && n.tree.dead == m.tree.dead
    && n.queues.finalized == m.queues.finalized && n.past.(rejected := m.past.rejected) == m.past
  }

  lemma {:induction false} NotarizeOneFrame(p: Params, m: Machine, b: Block)
    ensures var step := NotarizeOne(p, m, b);
            && SameFinality(m, step.m)
            && (!step.buffered ==> step.m.queues == m.queues)
  {
  }

  lemma {:induction false} NotarizeFrame(p: Params, m: Machine, work: seq<Block>, buffered: bool)
    ensures var r := Notarize(p, m, work, buffered);
            && SameFinality(m, r.m)
            && (buffered ==> r.buffered)
            && (!r.buffered ==> r.m.queues == m.queues)
    decreases |Unexecuted(m.tree, work)|, |work|
  {
    if m.halted || work == [] {
    } else {
      var b := work[|work| - 1];
      var step := NotarizeOne(p, m, b);
      NotarizeOneFrame(p, m, b);
      WorklistShrinks(p, m, work);
      NotarizeFrame(p, step.m, work[..|work| - 1] + step.children, buffered || step.buffered);
    }
  }

  lemma {:induction false} NotarizeAllFrame(p: Params, m: Machine, children: seq<Block>)
    ensures SameFinality(m, NotarizeAll(p, m, children))
    decreases |children|
  {
    if m.halted || children == [] {
    } else {
      NotarizeFrame(p, m, [children[0]], false);
      NotarizeAllFrame(p, Notarize(p, m, [children[0]], false).m, children[1..]);
    }
  }

  lemma {:induction false} ReadoptFrame(p: Params, m: Machine, b: Block)
    ensures SameFinality(m, Readopt(p, m, b))
  {
    var slot := Key(b.height + 1, b.Id());
    if !m.halted && slot in m.tree.orphans {
      NotarizeAllFrame(p, TakeOrphans(m, slot), m.tree.orphans[slot]);
    }
  }

  lemma {:induction false} SettleFrame(p: Params, m: Machine, e: Entry, s: State)
    ensures Settle(p, m, e, s).queues == m.queues
  {
  }

  lemma {:induction false} ConcludeFrame(p: Params, m: Machine, e: Entry, a: Attempt)
    ensures Conclude(p, m, e, a).m.queues.finalized == m.queues.finalized
  {
    if a.outcome == Applied {
      SettleFrame(p, m, e, a.state);
      ReadoptFrame(p, Settle(p, m, e, a.state), e.block);
    }
  }

  lemma {:induction false} HandleFinalizedFrame(p: Params, m: Machine, e: Entry)
    ensures HandleFinalized(p, m, e).m.queues.finalized == m.queues.finalized
  {
    var a := TryFinalize(p, m, e.block);
    ConcludeFrame(p, Offer(m, e.block, a.log), e, a);
  }

  // -------------------- Events --------------------

  datatype Event =
    | DeliverFinalized(entry: Entry)
    | DeliverNotarized(block: Block)
    | Tick
    | NotifyAtHeight(waiter: Waiter)
    | AuxData(parent: Key)
    | EpochGenesis(epoch: nat)
    | Restart

  function PushFinalized(m: Machine, e: Entry): Machine {
    m.(queues := m.queues.(finalized := m.queues.finalized + [e]))
  }

  function OnFinalized(p: Params, m: Machine, e: Entry): Machine {
    var n := m.(past := m.past.(arrived := m.past.arrived + [e]));
    if n.queues.finalized != [] then PushFinalized(n, e)
    else
      var r := HandleFinalized(p, n, e);
      if r.deferred then PushFinalized(r.m, e) else r.m
  }

  /** `Some(answer)` when a notification request is answered on the spot. */
  function NotifyNow(canon: State, tree: Tree, key: Key): Option<bool> {
    if canon.height > key.height then Some(false)
    else if key.height == canon.height then Some(key.digest == canon.head)
    else if key in tree.dead then Some(false)
    else if key in tree.forks then Some(true)
    else None
  }

  function OnNotify(m: Machine, w: Waiter): Machine {
    var now := NotifyNow(m.canon, m.tree, w.key);
    m.(notices :=
      if now.Some? then Respond(m.notices, {w}, ReplyNow(m.canon, m.tree, now.value))
      else m.notices.(waiters := m.notices.waiters + {w}))
  }

  /**
   What a proposer or verifier is told about the state of the parent. Withdrawals,
   validator changes, checkpoint, fee recipient, state root and timestamp window
   are read off the state `origin`; `previous` is the header an epoch's last block
   names, absent on other blocks.
   */
  datatype AuxReply = AuxReply(epoch: nat, fork: Forkchoice, origin: State, previous: Option<Digest>)

  lemma {:induction false} LastExists(epochs: set<nat>) returns (last: nat)
    requires epochs != {}
    ensures last in epochs && forall e :: e in epochs ==> e <= last
    decreases |epochs|
  {
    last :| last in epochs;
    var rest := epochs - {last};
    assert epochs == rest + {last};
    if rest == {} {
    } else {
      var other := LastExists(rest);
      last := if last > other then last else other;
    }
  }

  function LastEpoch(epochs: set<nat>): (last: nat)
    requires epochs != {}
    ensures last in epochs && forall e :: e in epochs ==> e <= last
  {
    assert exists x :: x in epochs && forall e :: e in epochs ==> e <= x by {
      var x := LastExists(epochs);
    }
    var x :| x in epochs && forall e :: e in epochs ==> e <= x;
    x
  }

  /** The most recent finalized header, or the configured genesis when there is none. */
  function LatestHeader(p: Params, headers: map<nat, Digest>): Digest {
    if headers.Keys == {} then p.genesis else headers[LastEpoch(headers.Keys)]
  }

  /** The state a block on `parent` builds on: a live fork, or the canonical head. */
  function AuxState(m: Machine, parent: Key): Option<State> {
    if parent in m.tree.forks then Some(m.tree.forks[parent].state)
    else if parent == HeadKey(m.canon) then Some(m.canon)
    else None
  }

  /** Refused without such a state, and for the last block of an epoch without a pending checkpoint. */
  function AuxFor(p: Params, m: Machine, parent: Key): Option<AuxReply> {
    var s := AuxState(m, parent);
    var finalized := m.canon.fork.finalized;
    var last := IsLastOfEpoch(p.epochOf, parent.height + 1);
    if s.None? || (last && !p.checkpointed(s.value)) then None
    else
      var previous := if last then Some(LatestHeader(p, m.disk.db.headers)) else None;
      Some(AuxReply(s.value.epoch, Forkchoice(s.value.fork.head, finalized, finalized), s.value, previous))
  }

  /** The genesis digest of an epoch, or `None` when the request is declined. */
  function GenesisOf(p: Params, m: Machine, epoch: nat): Option<Digest> {
    if epoch == m.canon.epoch then Some(m.canon.epochGenesis)
    else if epoch == 0 then Some(p.genesis)
    else if epoch < m.canon.epoch && epoch - 1 in m.disk.db.headers then Some(m.disk.db.headers[epoch - 1])
    else None
  }

  /** The proposer passes the forkchoice it was given on to its execution layer unchanged. */
  function OnAuxData(p: Params, m: Machine, parent: Key): Machine {
    var a := AuxFor(p, m, parent);
    if a.Some? then m.(log := m.log + [Build(a.value.fork)]) else m
  }

  /** Answers for epochs above 0 are recorded; epoch 0 is rooted in the configured digest. */
  function OnGenesis(p: Params, m: Machine, epoch: nat): Machine {
    var g := GenesisOf(p, m, epoch);
    if epoch == 0 || g.None? then m else m.(served := m.served + {(epoch, g.value)})
  }

  /** A fresh process on the database `db`: it announces the recovered head before the first message. */
  function Boot(p: Params, db: Db, boots: nat, served: set<(nat, Digest)>): Machine {
    var s := Recovered(p, db);
    var log := if s.fork.head == 0 then [] else [Commit(s.fork)];
    var answer := Judge(p.engine(boots, 0));
    Machine(
      canon := s, tree := Tree(map[], {}, map[]), queues := Queues([], [], {}), notices := Notices({}, map[]),
      disk := Disk(db, boots, 0), halted := log != [] && (answer == InvalidPayload || answer == EngineError),
      log := log, past := Past(s, [], None, [], [], {}), served := served)
  }

  function Handle(p: Params, m: Machine, e: Event): Machine {
    match e
    case DeliverFinalized(entry) => OnFinalized(p, m, entry)
    case DeliverNotarized(block) => Notarize(p, m, [block], false).m
    case Tick => Drain(p, m)
    case NotifyAtHeight(w) => OnNotify(m, w)
    case AuxData(parent) => OnAuxData(p, m, parent)
    case EpochGenesis(epoch) => OnGenesis(p, m, epoch)
    case Restart => Boot(p, m.disk.db, m.disk.boots + 1, m.served)
  }

  /** A halted process only reacts to being restarted. */
  function Step(p: Params, m: Machine, e: Event): Machine {
    if m.halted && !e.Restart? then m else Handle(p, m, e)
  }

  function Run(p: Params, m: Machine, events: seq<Event>): Machine {
    if events == [] then m else Step(p, Run(p, m, events[..|events| - 1]), events[|events| - 1])
  }
}

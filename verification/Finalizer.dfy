/**
 The finalizer actor: an object whose handlers update its tables in place.
 Each handler is proved to compute the corresponding transition of the machine.
 */
module FinalizerActor {
  import opened Chain
  import opened FinalizerModel

  class Finalizer {
    const p: Params
    var canon: State
    var forks: map<Key, Fork>
    var dead: set<Key>
    var orphans: map<Key, seq<Block>>
    var pendingFinalized: seq<Entry>
    var pendingNotarized: seq<Block>
    var pendingKeys: set<Digest>
    var waiters: set<Waiter>
    var db: Db
    var boots: nat
    var commits: nat
    var halted: bool
    var log: seq<Call>
    ghost var answered: map<Waiter, Reply>
    ghost var past: Past
    ghost var served: set<(nat, Digest)>

    ghost function TreeNow(): Tree
      reads this
    {
      Tree(forks, dead, orphans)
    }

    ghost function NoticesNow(): Notices
      reads this
    {
      Notices(waiters, answered)
    }

    /** The machine state this object represents. */
    ghost function Snapshot(): Machine
      reads this
    {
      Machine(canon, TreeNow(), Queues(pendingFinalized, pendingNotarized, pendingKeys), NoticesNow(),
              Disk(db, boots, commits), halted, log, past, served)
    }

    /** Opens the database, loads its latest state and announces the head to the execution layer. */
    constructor (p: Params, db: Db, boots: nat, ghost served: set<(nat, Digest)>)
      ensures this.p == p
      ensures Snapshot() == Boot(p, db, boots, served)
    {
      var s := if db.latest.Some? then db.latest.value else p.initial;
      this.p := p;
      canon := s;
      forks, dead, orphans := map[], {}, map[];
      pendingFinalized, pendingNotarized, pendingKeys := [], [], {};
      waiters, answered := {}, map[];
      this.db, this.boots, commits := db, boots, 0;
      past := Past(s, [], None, [], [], {});
      this.served := served;
      halted := false;
      log := [];
      new;
      if s.fork.head != 0 {
        var answer := Ask(Commit(s.fork));
        halted := answer == Invalid || answer == Unreachable;
      }
    }

    /** One call to the execution layer. */
    method Ask(call: Call) returns (answer: Answer)
      modifies this`log
      ensures log == old(log) + [call]
      ensures answer == p.engine(boots, |old(log)|)
    {
      answer := p.engine(boots, |log|);
      log := log + [call];
    }

    method CommitForkchoice(fork: Forkchoice) returns (outcome: Outcome)
      modifies this`log
      ensures log == old(log) + [Commit(fork)]
      ensures outcome == Judge(p.engine(boots, |old(log)|))
    {
      var status := Ask(Commit(fork));
      if status == Unreachable {
        return EngineError;
      }
      if status == Syncing {
        return Deferred;
      }
      outcome := if status == Valid then Applied else InvalidPayload;
    }

    /** `execute_block`: `state` is `s` unless the block was applied. */
    method ExecuteBlock(s: State, b: Block, finalized: Option<EthHash>) returns (outcome: Outcome, state: State)
      modifies this`log
      ensures Attempt(outcome, state, log) == TryExecute(p, s, b, finalized, boots, old(log))
    {
      state := s;
      if b.epoch != s.epoch {
        return InvalidPayload, s;
      }
      var payload := Ask(CheckPayload(b));
      if payload != Valid {
        return Judge(payload), s;
      }
      if !p.payoutsMatch(s, b) {
        return InvalidPayload, s;
      }
      var safe := if finalized.Some? then finalized.value else b.eth;
      outcome := CommitForkchoice(Forkchoice(b.eth, safe, safe));
      if outcome == Applied {
        state := Execute(p, s, b);
      }
    }

    /** Sends the same answer to a group of waiters. */
    method Send(ws: set<Waiter>, yes: bool)
      modifies this`waiters, this`answered
      ensures NoticesNow() == Respond(old(NoticesNow()), ws, ReplyNow(canon, TreeNow(), yes))
    {
      ghost var reply := ReplyNow(canon, TreeNow(), yes);
      answered := answered + (map w | w in ws :: reply);
      waiters := waiters - ws;
    }

    method HeightNotifyExecuted(k: Key)
      modifies this`waiters, this`answered
      ensures NoticesNow() ==
              Respond(old(NoticesNow()), WaitersFor(old(NoticesNow()), {k}), ReplyNow(canon, TreeNow(), true))
    {
      var ws := set w | w in waiters && w.key == k;
      assert ws == WaitersFor(NoticesNow(), {k});
      Send(ws, true);
    }

    /** Takes the table of waiters apart: those above the finalized height stay, the others are answered. */
    method HeightNotifyFinalizedUpTo(k: Key)
      modifies this`waiters, this`answered
      ensures NoticesNow() == NotifyFinalizedUpTo(old(NoticesNow()), k,
                                                  ReplyNow(canon, TreeNow(), true), ReplyNow(canon, TreeNow(), false))
    {
      var pending := waiters;
      var hit: set<Waiter>, miss: set<Waiter> := {}, {};
      while pending != {}
        invariant pending <= waiters
        invariant hit == set w | w in waiters - pending && w.key == k
        invariant miss == set w | w in waiters - pending && w.key != k && w.key.height <= k.height
        decreases pending
      {
        var w :| w in pending;
        pending := pending - {w};
        if w.key.height <= k.height {
          if w.key == k {
            hit := hit + {w};
          } else {
            miss := miss + {w};
          }
        }
      }
      ghost var before := NoticesNow();
      assert hit == WaitersFor(before, {k});
      Send(hit, true);
      assert miss == set w | w in waiters && w.key.height <= k.height;
      Send(miss, false);
    }

    /** `prune_fork_states_not_descending_from`: keeps the descendants of `k` among the forks above it. */
    method PruneForks(k: Key)
      requires forall j :: j in forks ==> j.height > k.height
      modifies this`forks, this`dead, this`waiters, this`answered
      ensures forks.Keys == Sweep(old(forks), {k.digest}, k.height + 1, Top(old(forks).Keys))
      ensures forall j :: j in forks ==> j in old(forks) && forks[j] == old(forks)[j]
      ensures dead == old(dead) + (old(forks).Keys - forks.Keys)
      ensures NoticesNow() == Respond(old(NoticesNow()), WaitersFor(old(NoticesNow()), old(forks).Keys - forks.Keys),
                                      ReplyNow(canon, TreeNow(), false))
    {
      ghost var all := forks;
      var top := Top(forks.Keys);
      var liveParents := {k.digest};
      var deadForks: set<Key> := {};
      ghost var survivors: set<Key> := {};
      var h := k.height + 1;
      while h <= top
        modifies this`forks
        invariant forks == all - deadForks
        invariant survivors !! deadForks && survivors + deadForks == set j | j in all && j.height < h
        invariant survivors + Sweep(all, liveParents, h, top) == Sweep(all, {k.digest}, k.height + 1, top)
        decreases top + 1 - h
      {
        var level := Level(forks, h);
        assert level == Level(all, h);
        if level != {} {
          var kept := set j | j in level && forks[j].parent in liveParents;
          SweepTurn(all, liveParents, h, top, kept);
          deadForks := deadForks + (level - kept);
          forks := forks - (level - kept);
          survivors := survivors + kept;
          liveParents := set j | j in kept :: j.digest;
        }
        h := h + 1;
      }
      assert survivors + deadForks == all.Keys;
      assert deadForks == all.Keys - forks.Keys;
      dead := dead + deadForks;
      var ws := set w | w in waiters && w.key in deadForks;
      assert ws == WaitersFor(NoticesNow(), deadForks);
      Send(ws, false);
    }

    // -------------------- Notarized blocks --------------------

    /** Queues a block for a retry; running out of room is fatal. */
    method BufferNotarized(b: Block, ghost a: Attempt) returns (queued: bool)
      requires !halted && a.outcome == Deferred
      modifies this`pendingNotarized, this`pendingKeys, this`halted
      ensures Progress(Snapshot(), [], queued) == Absorb(p, old(Snapshot()), b, a)
    {
      if b.Id() in pendingKeys {
        return true;
      }
      if |pendingNotarized| >= p.maxPendingNotarized {
        halted := true;
        return false;
      }
      pendingKeys := pendingKeys + {b.Id()};
      pendingNotarized := pendingNotarized + [b];
      queued := true;
    }

    /** Records an executed fork and returns the orphans that were waiting for it. */
    method AdoptFork(b: Block, state: State) returns (children: seq<Block>)
      modifies this`forks, this`waiters, this`answered
      ensures Progress(Snapshot(), children, false) == Adopt(old(Snapshot()), b, state)
    {
      forks := forks[KeyOf(b) := Fork(b.parent, state)];
      HeightNotifyExecuted(KeyOf(b));
      var slot := Key(b.height + 1, b.Id());
      children := if slot in orphans then orphans[slot] else [];
    }

    /** Executes a notarized block on its parent's state and records what became of it. */
    method ExecuteFork(b: Block, parent: State) returns (children: seq<Block>, syncing: bool)
      requires !halted
      modifies this
      ensures var m := old(Snapshot());
              var a := TryExecute(p, parent, b, Some(m.canon.fork.finalized), m.disk.boots, m.log);
              Progress(Snapshot(), children, syncing) == Absorb(p, m.(log := a.log), b, a)
    {
      children, syncing := [], false;
      var outcome, state := ExecuteBlock(parent, b, Some(canon.fork.finalized));
      match outcome
      case EngineError =>
        halted := true;
      case InvalidPayload =>
        past := past.(rejected := past.rejected + {b});
      case Deferred =>
        syncing := BufferNotarized(b, Attempt(outcome, state, log));
      case Applied =>
        children := AdoptFork(b, state);
    }

    /** One turn of the worklist. */
    method NotarizeTurn(b: Block) returns (children: seq<Block>, syncing: bool)
      requires !halted
      modifies this
      ensures Progress(Snapshot(), children, syncing) == NotarizeOne(p, old(Snapshot()), b)
    {
      children, syncing := [], false;
      if b.height <= canon.height {
        return;
      }
      if KeyOf(b) in dead {
        return;
      }
      if KeyOf(b) in forks {
        return;
      }
      var parent: State;
      if b.height == canon.height + 1 {
        if canon.height > 0 && b.parent != canon.head {
          return;
        }
        parent := canon;
      } else if ParentKey(b) in forks {
        parent := forks[ParentKey(b)].state;
      } else {
        var slot := Key(b.height, b.parent);
        orphans := orphans[slot := (if slot in orphans then orphans[slot] else []) + [b]];
        return;
      }
      children, syncing := ExecuteFork(b, parent);
    }

    /** `handle_notarized_block`. */
    method HandleNotarized(b: Block) returns (buffered: bool)
      requires !halted
      modifies this
      ensures Handled(Snapshot(), buffered) == Notarize(p, old(Snapshot()), [b], false)
    {
      var work := [b];
      buffered := false;
      while work != [] && !halted
        invariant Notarize(p, Snapshot(), work, buffered) == Notarize(p, old(Snapshot()), [b], false)
        decreases |Unexecuted(TreeNow(), work)|, |work|
      {
        WorklistShrinks(p, Snapshot(), work);
        var next := work[|work| - 1];
        work := work[..|work| - 1];
        var children, syncing := NotarizeTurn(next);
        work := work + children;
        buffered := buffered || syncing;
      }
    }

    // -------------------- Finalized blocks --------------------

    /** Drops the forks a finalized block decides: those at or below it, and those not descending from it. */
    method PruneTables(b: Block)
      modifies this`forks, this`dead, this`orphans, this`waiters, this`answered
      ensures TreeNow() == PruneTree(old(TreeNow()), b)
      ensures NoticesNow() == Respond(old(NoticesNow()), WaitersFor(old(NoticesNow()), CutBy(old(TreeNow()), b)),
                                      ReplyNow(canon, TreeNow().(dead := old(dead) + CutBy(old(TreeNow()), b)), false))
    {
      ghost var before := TreeNow();
      forks := Above(forks, b.height);
      PruneForks(KeyOf(b));
      PrunedTables(before, b, forks);
      dead := Higher(dead, b.height);
      orphans := Above(orphans, b.height);
    }

    /** Everything a finalized block decides about forks and waiters. */
    method PruneAndNotify(b: Block)
      modifies this`forks, this`dead, this`orphans, this`waiters, this`answered
      ensures TreeNow() == PruneTree(old(TreeNow()), b)
      ensures NoticesNow() == PruneNotices(old(NoticesNow()), canon, old(TreeNow()), TreeNow(), b)
    {
      PruneTables(b);
      HeightNotifyFinalizedUpTo(KeyOf(b));
    }

    /** Makes the finalized block canonical and prunes everything it decides. */
    method PromoteBlock(b: Block, state: State)
      modifies this`canon, this`forks, this`dead, this`orphans, this`waiters, this`answered, this`past
      ensures canon == Promote(old(Snapshot()), b, state).canon
      ensures TreeNow() == Promote(old(Snapshot()), b, state).tree
      ensures NoticesNow() == Promote(old(Snapshot()), b, state).notices
      ensures past == Promote(old(Snapshot()), b, state).past
    {
      canon := state.(fork := Forkchoice(state.fork.head, state.fork.head, state.fork.head));
      PruneAndNotify(b);
      past := past.(applied := past.applied + [b], offering := None);
    }

    /** Stores the header and the next epoch's state and commits both. */
    method CrossEpoch(b: Block) returns (ok: bool)
      modifies this`canon, this`db, this`commits, this`halted
      ensures Snapshot() == CrossBoundary(p, old(Snapshot()), b)
      ensures ok == !halted
    {
      var headers := db.headers[canon.epoch := b.Id()];
      canon := Boundary(p, canon, b);
      ok := p.disk(boots, commits);
      commits := commits + 1;
      halted := !ok;
      if ok {
        db := Db(headers, Some(canon));
      }
    }

    method Acknowledge(e: Entry)
      modifies this`past
      ensures Snapshot() == Ack(old(Snapshot()), e)
    {
      past := past.(acked := past.acked + [e.ack]);
    }

    /** From the adopted forkchoice to the acknowledgement. */
    method SettleBlock(e: Entry, state: State)
      requires !halted
      modifies this
      ensures Snapshot() == Settle(p, old(Snapshot()), e, state)
    {
      ghost var m := Snapshot();
      PromoteBlock(e.block, state);
      assert Snapshot() == Promote(m, e.block, state);
      if IsLastOfEpoch(p.epochOf, e.block.height) {
        if e.certified.None? {
          halted := true;
          return;
        }
        var ok := CrossEpoch(e.block);
        if !ok {
          return;
        }
      }
      Acknowledge(e);
    }

    /** Re-adopts the orphans of the block just finalized. */
    method ReadoptOrphans(b: Block)
      modifies this
      ensures Snapshot() == Readopt(p, old(Snapshot()), b)
    {
      var slot := Key(b.height + 1, b.Id());
      if halted || slot !in orphans {
        return;
      }
      var children := orphans[slot];
      orphans := orphans - {slot};
      while children != [] && !halted
        invariant NotarizeAll(p, Snapshot(), children) == Readopt(p, old(Snapshot()), b)
        decreases |children|
      {
        var child := children[0];
        children := children[1..];
        var _ := HandleNotarized(child);
      }
    }

    /** Offers the block to the execution layer: as a known fork, or by executing it. */
    method OfferBlock(b: Block) returns (outcome: Outcome, state: State)
      modifies this`log, this`past
      ensures var a := TryFinalize(p, old(Snapshot()), b);
              Attempt(outcome, state, log) == a && Snapshot() == Offer(old(Snapshot()), b, a.log)
    {
      past := past.(offering := Some(b));
      if KeyOf(b) in forks {
        state := forks[KeyOf(b)].state;
        outcome := CommitForkchoice(Forkchoice(b.eth, b.eth, b.eth));
      } else {
        outcome, state := ExecuteBlock(canon, b, None);
      }
    }

    /** `handle_finalized_block`: true if the entry has to be retried. */
    method HandleFinalizedBlock(e: Entry) returns (deferred: bool)
      requires !halted
      modifies this
      ensures Verdict(Snapshot(), deferred) == HandleFinalized(p, old(Snapshot()), e)
    {
      var b := e.block;
      deferred := false;
      if b.height <= canon.height {
        if b.height == canon.height && b.Id() != canon.head {
          halted := true;
        } else {
          Acknowledge(e);
        }
        return;
      }
      if e.certified.Some? && e.certified.value != b.Id() {
        halted := true;
        return;
      }
      if b.height != canon.height + 1 || b.parent != canon.head {
        halted := true;
        return;
      }
      deferred := FinalizeExtension(e);
    }

    /** The part of `handle_finalized_block` that runs once the block is known to extend the head. */
    method FinalizeExtension(e: Entry) returns (deferred: bool)
      requires !halted
      modifies this
      ensures var a := TryFinalize(p, old(Snapshot()), e.block);
              Verdict(Snapshot(), deferred) == Conclude(p, Offer(old(Snapshot()), e.block, a.log), e, a)
    {
      deferred := false;
      var outcome, state := OfferBlock(e.block);
      match outcome
      case Deferred =>
        deferred := true;
      case EngineError =>
        halted := true;
      case InvalidPayload =>
        halted := true;
      case Applied =>
        SettleBlock(e, state);
        ReadoptOrphans(e.block);
    }

    // -------------------- Messages --------------------

    /** `drain_pending`. */
    method DrainPending()
      requires !halted
      modifies this
      ensures Snapshot() == Drain(p, old(Snapshot()))
    {
      var stopped := DrainFinalizedQueue();
      if !stopped && !halted {
        DrainNotarizedQueue();
      }
    }

    method DrainFinalizedQueue() returns (stopped: bool)
      modifies this
      ensures Verdict(Snapshot(), stopped) == DrainFinalized(p, old(Snapshot()))
    {
      while pendingFinalized != [] && !halted
        invariant DrainFinalized(p, Snapshot()) == DrainFinalized(p, old(Snapshot()))
        decreases |pendingFinalized|
      {
        var e := pendingFinalized[0];
        pendingFinalized := pendingFinalized[1..];
        HandleFinalizedFrame(p, Snapshot(), e);
        var deferred := HandleFinalizedBlock(e);
        if deferred {
          pendingFinalized := [e] + pendingFinalized;
          return true;
        }
      }
      stopped := false;
    }

    method DrainNotarizedQueue()
      modifies this
      ensures Snapshot() == DrainNotarized(p, old(Snapshot()))
    {
      while pendingNotarized != [] && !halted
        invariant DrainNotarized(p, Snapshot()) == DrainNotarized(p, old(Snapshot()))
        decreases |pendingNotarized|
      {
        var b := pendingNotarized[0];
        pendingNotarized := pendingNotarized[1..];
        pendingKeys := pendingKeys - {b.Id()};
        NotarizeFrame(p, Snapshot(), [b], false);
        var buffered := HandleNotarized(b);
        if buffered {
          return;
        }
      }
    }

    /** The `FinalizedBlock` update: blocks behind a deferred one queue up untried. */
    method DeliverFinalizedBlock(e: Entry)
      requires !halted
      modifies this
      ensures Snapshot() == Step(p, old(Snapshot()), DeliverFinalized(e))
    {
      past := past.(arrived := past.arrived + [e]);
      if pendingFinalized != [] {
        pendingFinalized := pendingFinalized + [e];
      } else {
        var deferred := HandleFinalizedBlock(e);
        if deferred {
          pendingFinalized := pendingFinalized + [e];
        }
      }
    }

    /** The `NotifyAtHeight` message: the answer, if it is known already. */
    method RequestNotification(w: Waiter) returns (answer: Option<bool>)
      requires !halted
      modifies this`waiters, this`answered
      ensures answer == NotifyNow(canon, TreeNow(), w.key)
      ensures Snapshot() == Step(p, old(Snapshot()), NotifyAtHeight(w))
    {
      var h := w.key.height;
      if canon.height > h {
        answer := Some(false);
      } else if h == canon.height {
        answer := Some(w.key.digest == canon.head);
      } else if w.key in dead {
        answer := Some(false);
      } else if w.key in forks {
        answer := Some(true);
      } else {
        waiters := waiters + {w};
        return None;
      }
      Send({w}, answer.value);
    }

    /** The `GetAuxData` message; the proposer builds on the forkchoice it is given. */
    method GetAuxData(parent: Key) returns (aux: Option<AuxReply>)
      requires !halted
      modifies this`log
      ensures aux == AuxFor(p, old(Snapshot()), parent)
      ensures Snapshot() == Step(p, old(Snapshot()), AuxData(parent))
    {
      var state := canon;
      if parent in forks {
        state := forks[parent].state;
      } else if parent != HeadKey(canon) {
        return None;
      }
      var previous := None;
      if IsLastOfEpoch(p.epochOf, parent.height + 1) {
        if !p.checkpointed(state) {
          return None;
        }
        previous := Some(LatestHeader(p, db.headers));
      }
      var fork := Forkchoice(state.fork.head, canon.fork.finalized, canon.fork.finalized);
      var answer := Ask(Build(fork));
      aux := Some(AuxReply(state.epoch, fork, state, previous));
    }

    /** The `GetEpochGenesisHash` message. */
    method GetEpochGenesis(epoch: nat) returns (genesis: Option<Digest>)
      requires !halted
      modifies this`served
      ensures genesis == GenesisOf(p, old(Snapshot()), epoch)
      ensures Snapshot() == Step(p, old(Snapshot()), EpochGenesis(epoch))
    {
      if epoch == canon.epoch {
        genesis := Some(canon.epochGenesis);
      } else if epoch == 0 {
        genesis := Some(p.genesis);
      } else if epoch < canon.epoch && epoch - 1 in db.headers {
        genesis := Some(db.headers[epoch - 1]);
      } else {
        genesis := None;
      }
      if epoch > 0 && genesis.Some? {
        served := served + {(epoch, genesis.value)};
      }
    }
  }

  /** What is left of the tables once the forks above `b` are swept. */
  lemma {:induction false} PrunedTables(t: Tree, b: Block, forks: map<Key, Fork>)
    requires forks.Keys == Sweep(Above(t.forks, b.height), {b.Id()}, b.height + 1, Top(Above(t.forks, b.height).Keys))
    requires forall k :: k in forks ==> k in Above(t.forks, b.height) && forks[k] == t.forks[k]
    ensures CutBy(t, b) == Above(t.forks, b.height).Keys - forks.Keys
    ensures PruneTree(t, b) == Tree(forks, Higher(t.dead + CutBy(t, b), b.height), Above(t.orphans, b.height))
  {
    assert forks == PruneTree(t, b).forks;
  }

  lemma {:induction false} SweepTurn(forks: map<Key, Fork>, live: set<Digest>, height: nat, top: nat, kept: set<Key>)
    requires height <= top && Level(forks, height) != {}
    requires kept == set k | k in Level(forks, height) && forks[k].parent in live
    ensures Sweep(forks, live, height, top) == kept + Sweep(forks, (set k | k in kept :: k.digest), height + 1, top)
  {
  }
}

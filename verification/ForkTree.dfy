/**
 The shape of the fork tree and what pruning does to it.
 */
module ForkTree {
  import opened Chain
  import opened FinalizerModel

  ghost predicate WellLabelled(p: Params, b: Block) {
    b.epoch == p.epochOf(b.height)
  }

  /** The state's epoch is the one its next block belongs to. */
  ghost predicate Aligned(p: Params, s: State) {
    s.epoch == p.epochOf(s.height + 1)
  }

  /** The fork under `k` is the execution of its block on a live parent, one level down. */
  ghost predicate ForkOk(p: Params, canon: State, forks: map<Key, Fork>, k: Key)
    requires k in forks
  {
    && k.digest.Hash?
    && var b := k.digest.block;
    && k.height == b.height
    && b.height > canon.height
    && forks[k].parent == b.parent
    && WellLabelled(p, b)
    && b.epoch == canon.epoch && forks[k].state.epoch == canon.epoch
    && (b.height == canon.height + 1 && canon.height > 0 ==> b.parent == canon.head)
    && ParentState(canon, forks, b).Some?
    && forks[k].state == Execute(p, ParentState(canon, forks, b).value, b)
    && p.payoutsMatch(ParentState(canon, forks, b).value, b)
  }

  ghost predicate Rooted(p: Params, canon: State, forks: map<Key, Fork>) {
    forall k {:trigger ForkOk(p, canon, forks, k)} :: k in forks ==> ForkOk(p, canon, forks, k)
  }

  /** Independent of the sweep: a chain of parent links through `forks` leads from `k` to `root`. */
  ghost predicate Descends(forks: map<Key, Fork>, k: Key, root: Key)
    decreases k.height
  {
    && k in forks
    && k.height > root.height
    && (if k.height == root.height + 1 then forks[k].parent == root.digest
        else Descends(forks, Key(k.height - 1, forks[k].parent), root))
  }

  ghost predicate HasParent(forks: map<Key, Fork>, height: nat, k: Key)
    requires k in forks
  {
    k.height > height && (k.height > height + 1 ==> Key(k.height - 1, forks[k].parent) in forks)
  }

  /** Every fork more than one level above `height` has its parent in the table. */
  ghost predicate Grounded(forks: map<Key, Fork>, height: nat) {
    forall k {:trigger HasParent(forks, height, k)} :: k in forks ==> HasParent(forks, height, k)
  }

  lemma {:induction false} GroundedLevels(forks: map<Key, Fork>, root: nat, empty: nat, k: Key)
    requires Grounded(forks, root)
    requires root < empty && Level(forks, empty) == {}
    requires k in forks
    ensures k.height < empty
    decreases k.height
  {
    assert k in Level(forks, k.height);
    if k.height <= empty {
    } else {
      assert HasParent(forks, root, k);
      GroundedLevels(forks, root, empty, Key(k.height - 1, forks[k].parent));
    }
  }

  lemma {:induction false} SweepNothing(forks: map<Key, Fork>, live: set<Digest>, height: nat, top: nat)
    requires forall k :: k in forks ==> k.height < height
    ensures Sweep(forks, live, height, top) == {}
    decreases top + 1 - height
  {
    if height > top {
    } else {
      assert Level(forks, height) == {};
      SweepNothing(forks, live, height + 1, top);
    }
  }

  /** The digests a fork at `height` must have as parent to descend from `root`. */
  ghost function LiveBelow(forks: map<Key, Fork>, root: Key, height: nat): set<Digest> {
    if height == root.height + 1 then {root.digest}
    else set k | k in forks && k.height + 1 == height && Descends(forks, k, root) :: k.digest
  }

  lemma {:induction false} SweepIsDescent(forks: map<Key, Fork>, root: Key, height: nat, top: nat)
    requires Grounded(forks, root.height)
    requires height > root.height
    ensures Sweep(forks, LiveBelow(forks, root, height), height, top)
         == set k | k in forks && height <= k.height <= top && Descends(forks, k, root)
    decreases top + 1 - height
  {
    if height > top {
    } else {
      var live := LiveBelow(forks, root, height);
      var level := Level(forks, height);
      if level == {} {
        forall k | k in forks
          ensures k.height < height
        {
          GroundedLevels(forks, root.height, height, k);
        }
        SweepNothing(forks, live, height, top);
      } else {
        var kept := set k | k in level && forks[k].parent in live;
        forall k | k in level
          ensures k in kept <==> Descends(forks, k, root)
        {
          LiveIsDescent(forks, root, k);
        }
        assert (set k | k in kept :: k.digest) == LiveBelow(forks, root, height + 1);
        SweepIsDescent(forks, root, height + 1, top);
      }
    }
  }

  lemma {:induction false} LiveIsDescent(forks: map<Key, Fork>, root: Key, k: Key)
    requires Grounded(forks, root.height)
    requires k in forks
    ensures forks[k].parent in LiveBelow(forks, root, k.height) <==> Descends(forks, k, root)
  {
    assert HasParent(forks, root.height, k);
    if k.height > root.height + 1 {
      var parent := Key(k.height - 1, forks[k].parent);
      if forks[k].parent in LiveBelow(forks, root, k.height) {
        var j :| j in forks && j.height + 1 == k.height && Descends(forks, j, root) && j.digest == forks[k].parent;
        assert j == parent;
      }
    }
  }

  lemma {:induction false} RootedIsGrounded(p: Params, canon: State, forks: map<Key, Fork>, height: nat)
    requires Rooted(p, canon, forks)
    requires height > canon.height
    ensures Grounded(Above(forks, height), height)
  {
    var above := Above(forks, height);
    forall k | k in above
      ensures HasParent(above, height, k)
    {
      assert ForkOk(p, canon, forks, k);
    }
  }

  /**
   Exact pruning: when the block `b` one above the head becomes final, the
   forks that stay live are exactly its descendants, every other higher fork
   is tombstoned, and nothing is both live and dead.
   */
  lemma {:induction false} PruneIsExact(p: Params, canon: State, t: Tree, b: Block)
    requires Rooted(p, canon, t.forks)
    requires b.height == canon.height + 1
    requires t.dead !! t.forks.Keys
    ensures var u := PruneTree(t, b);
            && (forall k :: k in u.forks <==> k in t.forks && Descends(Above(t.forks, b.height), k, KeyOf(b)))
            && (forall k :: k in u.forks ==> u.forks[k] == t.forks[k])
            && CutBy(t, b) == (set k | k in t.forks && k.height > b.height && k !in u.forks)
            && u.dead == (set k | k in t.dead + CutBy(t, b) && k.height > b.height)
            && u.dead !! u.forks.Keys
  {
    var above := Above(t.forks, b.height);
    var top := Top(above.Keys);
    RootedIsGrounded(p, canon, t.forks, b.height);
    SweepIsDescent(above, KeyOf(b), b.height + 1, top);
    assert Sweep(above, {b.Id()}, b.height + 1, top) == set k | k in above && Descends(above, k, KeyOf(b));
  }

  /** Above a terminal block there is nothing to prune: no fork crosses an epoch boundary. */
  lemma {:induction false} NoForkCrossesBoundary(p: Params, canon: State, forks: map<Key, Fork>, b: Block)
    requires Contiguous(p.epochOf)
    requires Rooted(p, canon, forks)
    requires Aligned(p, canon)
    requires b.height == canon.height + 1 && IsLastOfEpoch(p.epochOf, b.height)
    ensures Above(forks, b.height) == map[]
  {
    assert p.epochOf(b.height) < p.epochOf(b.height + 1);
    forall k | k in forks
      ensures k.height <= b.height
    {
      assert ForkOk(p, canon, forks, k);
      if k.height > b.height {
        EpochsMonotone(p.epochOf, b.height + 1, k.height);
      }
    }
  }

  /** Promoting a fork state gives what executing the block on the canonical state would have given. */
  lemma {:induction false} PromotionIsExecution(p: Params, m: Machine, b: Block)
    requires Rooted(p, m.canon, m.tree.forks)
    requires Extends(m.canon, b)
    requires TryFinalize(p, m, b).outcome == Applied
    ensures TryFinalize(p, m, b).state == Execute(p, m.canon, b)
    ensures b.epoch == m.canon.epoch && p.payoutsMatch(m.canon, b)
  {
    if KeyOf(b) in m.tree.forks {
      assert ForkOk(p, m.canon, m.tree.forks, KeyOf(b));
    }
  }

  /** A fork that survives pruning inside an epoch is still well formed, one level closer to the head. */
  lemma {:induction false} SurvivorOk(p: Params, canon: State, t: Tree, b: Block, k: Key)
    requires Rooted(p, canon, t.forks)
    requires Extends(canon, b) && b.epoch == canon.epoch
    requires t.dead !! t.forks.Keys
    requires k in PruneTree(t, b).forks
    ensures ForkOk(p, Execute(p, canon, b), PruneTree(t, b).forks, k)
  {
    PruneIsExact(p, canon, t, b);
    assert ForkOk(p, canon, t.forks, k);
    var parent := Key(k.height - 1, t.forks[k].parent);
    if k.height == b.height + 1 {
      assert parent == KeyOf(b);
      assert ForkOk(p, canon, t.forks, parent);
    } else {
      assert Descends(Above(t.forks, b.height), parent, KeyOf(b));
    }
  }

  /** Finalizing a block keeps the tree rooted, now in the new canonical state. */
  lemma {:induction false} PruneKeepsRooted(p: Params, canon: State, t: Tree, b: Block)
    requires Contiguous(p.epochOf)
    requires Rooted(p, canon, t.forks)
    requires Aligned(p, canon)
    requires Extends(canon, b) && b.epoch == canon.epoch
    requires t.dead !! t.forks.Keys
    ensures Rooted(p, Finalize(p, canon, b), PruneTree(t, b).forks)
  {
    if IsLastOfEpoch(p.epochOf, b.height) {
      NoForkCrossesBoundary(p, canon, t.forks, b);
      PruneIsExact(p, canon, t, b);
    } else {
      forall k | k in PruneTree(t, b).forks
        ensures ForkOk(p, Execute(p, canon, b), PruneTree(t, b).forks, k)
      {
        SurvivorOk(p, canon, t, b, k);
      }
    }
  }
}

/**
 The dispatch gate: finalized blocks wait until a sync covering every buffered
 archive write below them has completed.
 */
module DispatchGates {
  import opened Chain

  /** A started sync: its sequence number and the lowest height it covers. */
  datatype Batch = Batch(id: nat, lowest: nat)

  /** `inflight` lists the started syncs in the order of their sequence numbers. */
  datatype Gate = Gate(unsynced: Option<nat>, inflight: seq<Batch>, nextId: nat)

  function Lower(a: Option<nat>, b: Option<nat>): Option<nat> {
    if a.None? then b
    else if b.None? then a
    else Some(if a.value <= b.value then a.value else b.value)
  }

  function Defer(g: Gate, height: nat): Gate {
    g.(unsynced := Lower(g.unsynced, Some(height)))
  }

  /** The sequence number handed out is `g.nextId`, if there is anything to sync. */
  function Adopt(g: Gate): Gate {
    if g.unsynced.None? then g
    else Gate(None, g.inflight + [Batch(g.nextId, g.unsynced.value)], g.nextId + 1)
  }

  /** Keeps the started syncs with a sequence number above `id`. */
  function After(batches: seq<Batch>, id: nat): seq<Batch> {
    if batches == [] then []
    else if batches[0].id <= id then After(batches[1..], id)
    else batches
  }

  function Release(g: Gate, id: nat): Gate {
    g.(inflight := After(g.inflight, id))
  }

  function Clear(g: Gate): Gate {
    Gate(None, [], g.nextId)
  }

  function LowestOf(batches: seq<Batch>): Option<nat> {
    if batches == [] then None else Lower(Some(batches[0].lowest), LowestOf(batches[1..]))
  }

  function Barrier(g: Gate): Option<nat> {
    Lower(LowestOf(g.inflight), g.unsynced)
  }

  // -------------------- Reference --------------------

  /**
   The history the gate summarizes: the heights written, in order; how many of
   the earliest ones completed syncs cover; and, for every sync ever started,
   how many writes had been buffered when it started.
   */
  datatype Writes = Writes(heights: seq<nat>, covered: nat, upTo: map<nat, nat>)

  /** The least of some heights. */
  function Lowest(heights: seq<nat>): Option<nat> {
    if heights == [] then None else Lower(Some(heights[0]), Lowest(heights[1..]))
  }

  function Wrote(w: Writes, height: nat): Writes {
    w.(heights := w.heights + [height])
  }

  function Started(w: Writes, id: nat): Writes {
    w.(upTo := w.upTo[id := |w.heights|])
  }

  /** A sync covers every write buffered before it started. */
  function Completed(w: Writes, id: nat): Writes {
    if id in w.upTo && w.upTo[id] > w.covered then w.(covered := w.upTo[id]) else w
  }

  function SyncedAll(w: Writes): Writes {
    w.(covered := |w.heights|)
  }

  /** The writes no completed sync covers. */
  function Uncovered(w: Writes): seq<nat>
    requires w.covered <= |w.heights|
  {
    w.heights[w.covered..]
  }

  // -------------------- Refinement --------------------

  /** The started syncs and the rest tile the writes from `from` on, in order. */
  ghost predicate Tiles(batches: seq<Batch>, rest: Option<nat>, w: Writes, from: nat) {
    && from <= |w.heights|
    && if batches == [] then rest == Lowest(w.heights[from..])
       else
         var id := batches[0].id;
         && id in w.upTo
         && from <= w.upTo[id] <= |w.heights|
         && Lowest(w.heights[from..w.upTo[id]]) == Some(batches[0].lowest)
         && Tiles(batches[1..], rest, w, w.upTo[id])
  }

  ghost predicate Ascending(batches: seq<Batch>) {
    forall i, j :: 0 <= i < j < |batches| ==> batches[i].id < batches[j].id
  }

  ghost function Ids(batches: seq<Batch>): set<nat> {
    set b | b in batches :: b.id
  }

  /** A sync is either still in flight, or fully covered and older than every sync in flight. */
  ghost predicate Placed(batches: seq<Batch>, w: Writes, id: nat)
    requires id in w.upTo
  {
    id in Ids(batches) || (w.upTo[id] <= w.covered && forall i :: i in Ids(batches) ==> id < i)
  }

  ghost predicate Tracks(g: Gate, w: Writes) {
    && Tiles(g.inflight, g.unsynced, w, w.covered)
    && Ascending(g.inflight)
    && (forall i :: i in Ids(g.inflight) ==> i < g.nextId)
    && (forall id {:trigger Placed(g.inflight, w, id)} :: id in w.upTo ==> id < g.nextId && Placed(g.inflight, w, id))
  }

  lemma {:induction false} LowestAppend(a: seq<nat>, b: seq<nat>)
    ensures Lowest(a + b) == Lower(Lowest(a), Lowest(b))
    decreases |a|
  {
    if a == [] {
      assert a + b == b;
    } else {
      assert (a + b)[1..] == a[1..] + b;
      LowestAppend(a[1..], b);
    }
  }

  lemma {:induction false} TilesBarrier(batches: seq<Batch>, rest: Option<nat>, w: Writes, from: nat)
    requires Tiles(batches, rest, w, from)
    ensures Lower(LowestOf(batches), rest) == Lowest(w.heights[from..])
    decreases |batches|
  {
    if batches == [] {
    } else {
      var to := w.upTo[batches[0].id];
      TilesBarrier(batches[1..], rest, w, to);
      assert w.heights[from..] == w.heights[from..to] + w.heights[to..];
      LowestAppend(w.heights[from..to], w.heights[to..]);
    }
  }

  /**
   * The barrier is the least height of the writes no completed sync covers, and is absent exactly when there are none.
   */
  lemma {:induction false} BarrierIsLowestUncovered(g: Gate, w: Writes)
    requires Tracks(g, w)
    ensures w.covered <= |w.heights|
    ensures Barrier(g) == Lowest(Uncovered(w))
    ensures Barrier(g).None? <==> Uncovered(w) == []
  {
    TilesBarrier(g.inflight, g.unsynced, w, w.covered);
  }

  lemma {:induction false} LowestIsLeast(heights: seq<nat>)
    ensures heights == [] <==> Lowest(heights).None?
    ensures heights != [] ==> Lowest(heights).value in heights
    ensures forall h :: h in heights ==> Lowest(heights).Some? && Lowest(heights).value <= h
    decreases |heights|
  {
    if heights == [] {
    } else {
      LowestIsLeast(heights[1..]);
      assert heights == [heights[0]] + heights[1..];
    }
  }

  lemma {:induction false} TilesWrote(batches: seq<Batch>, rest: Option<nat>, w: Writes, from: nat, height: nat)
    requires Tiles(batches, rest, w, from)
    ensures Tiles(batches, Lower(rest, Some(height)), Wrote(w, height), from)
    decreases |batches|
  {
    var v := Wrote(w, height);
    if batches == [] {
      assert v.heights[from..] == w.heights[from..] + [height];
      LowestAppend(w.heights[from..], [height]);
    } else {
      var to := w.upTo[batches[0].id];
      assert v.heights[from..to] == w.heights[from..to];
      TilesWrote(batches[1..], rest, w, to, height);
    }
  }

  lemma {:induction false} TilesStarted(batches: seq<Batch>, lowest: nat, w: Writes, from: nat, id: nat)
    requires Tiles(batches, Some(lowest), w, from)
    requires forall i :: 0 <= i < |batches| ==> batches[i].id != id
    ensures Tiles(batches + [Batch(id, lowest)], None, Started(w, id), from)
    decreases |batches|
  {
    var v := Started(w, id);
    var next := batches + [Batch(id, lowest)];
    if batches == [] {
      assert v.heights[from..|v.heights|] == w.heights[from..];
      assert v.heights[|v.heights|..] == [];
      assert next[1..] == [];
    } else {
      assert next[1..] == batches[1..] + [Batch(id, lowest)];
      TilesStarted(batches[1..], lowest, w, w.upTo[batches[0].id], id);
    }
  }

  lemma {:induction false} SplitIds(batches: seq<Batch>)
    requires batches != [] && Ascending(batches)
    ensures Ids(batches) == {batches[0].id} + Ids(batches[1..])
    ensures forall i :: i in Ids(batches[1..]) ==> i > batches[0].id
    ensures Ascending(batches[1..])
  {
    assert batches == [batches[0]] + batches[1..];
    forall i | i in Ids(batches[1..])
      ensures i > batches[0].id
    {
      var b :| b in batches[1..] && b.id == i;
      var j :| 0 <= j < |batches[1..]| && batches[1..][j] == b;
      assert batches[j + 1] == b;
    }
  }

  /** Dropping the batches up to `id` leaves a tiling that starts where the last dropped one ended. */
  lemma {:induction false} TilesAfter(batches: seq<Batch>, rest: Option<nat>, w: Writes, from: nat, id: nat)
    requires Tiles(batches, rest, w, from) && Ascending(batches)
    requires id in Ids(batches)
    ensures id in w.upTo && from <= w.upTo[id]
    ensures Tiles(After(batches, id), rest, w, w.upTo[id])
    ensures forall i :: i in Ids(batches) && i <= id ==> i in w.upTo && w.upTo[i] <= w.upTo[id]
    decreases |batches|
  {
    SplitIds(batches);
    var tail := batches[1..];
    if batches[0].id == id {
      forall i | 0 <= i < |tail|
        ensures tail[i].id > id
      {
        assert tail[i].id in Ids(tail);
      }
      AfterKeeps(tail, id);
    } else {
      TilesAfter(tail, rest, w, w.upTo[batches[0].id], id);
    }
  }

  lemma {:induction false} AfterIds(batches: seq<Batch>, id: nat)
    requires Ascending(batches)
    ensures Ascending(After(batches, id))
    ensures Ids(After(batches, id)) == set i | i in Ids(batches) && i > id
    decreases |batches|
  {
    if batches == [] {
    } else {
      SplitIds(batches);
      if batches[0].id <= id {
        AfterIds(batches[1..], id);
      }
    }
  }

  lemma {:induction false} AfterKeeps(batches: seq<Batch>, id: nat)
    requires forall i :: 0 <= i < |batches| ==> batches[i].id > id
    ensures After(batches, id) == batches
  {
  }

  lemma {:induction false} DeferTracks(g: Gate, w: Writes, height: nat)
    requires Tracks(g, w)
    ensures Tracks(Defer(g, height), Wrote(w, height))
  {
    forall id | id in w.upTo
      ensures id < g.nextId && Placed(g.inflight, Wrote(w, height), id)
    {
      assert Placed(g.inflight, w, id);
    }
    TilesWrote(g.inflight, g.unsynced, w, w.covered, height);
  }

  lemma {:induction false} AdoptTracks(g: Gate, w: Writes)
    requires Tracks(g, w)
    ensures g.unsynced.Some? ==> Tracks(Adopt(g), Started(w, g.nextId))
  {
    if g.unsynced.Some? {
      forall i | 0 <= i < |g.inflight|
        ensures g.inflight[i].id < g.nextId
      {
        assert g.inflight[i].id in Ids(g.inflight);
      }
      TilesStarted(g.inflight, g.unsynced.value, w, w.covered, g.nextId);
      var h := Adopt(g);
      var v := Started(w, g.nextId);
      assert Ids(h.inflight) == Ids(g.inflight) + {g.nextId};
      forall id | id in v.upTo
        ensures id < h.nextId && Placed(h.inflight, v, id)
      {
        if id != g.nextId {
          assert Placed(g.inflight, w, id);
        }
      }
    }
  }

  lemma {:induction false} ReleaseTracks(g: Gate, w: Writes, id: nat)
    requires Tracks(g, w) && id in w.upTo
    ensures Tracks(Release(g, id), Completed(w, id))
  {
    var h := Release(g, id);
    var v := Completed(w, id);
    assert Placed(g.inflight, w, id);
    if id in Ids(g.inflight) {
      TilesAfter(g.inflight, g.unsynced, w, w.covered, id);
      AfterIds(g.inflight, id);
      TilesFrame(h.inflight, g.unsynced, w, v, w.upTo[id]);
      forall x | x in v.upTo
        ensures x < h.nextId && Placed(h.inflight, v, x)
      {
        assert Placed(g.inflight, w, x);
      }
    } else {
      forall i | 0 <= i < |g.inflight|
        ensures g.inflight[i].id > id
      {
        assert g.inflight[i].id in Ids(g.inflight);
      }
      AfterKeeps(g.inflight, id);
    }
  }

  lemma {:induction false} TilesFrame(batches: seq<Batch>, rest: Option<nat>, w: Writes, v: Writes, from: nat)
    requires Tiles(batches, rest, w, from)
    requires v.heights == w.heights && v.upTo == w.upTo
    ensures Tiles(batches, rest, v, from)
    decreases |batches|
  {
    if batches == [] {
    } else {
      TilesFrame(batches[1..], rest, w, v, w.upTo[batches[0].id]);
    }
  }

  lemma {:induction false} ClearTracks(g: Gate, w: Writes)
    requires Tracks(g, w)
    ensures Tracks(Clear(g), SyncedAll(w))
  {
    TilesBound(g.inflight, g.unsynced, w, w.covered);
    var v := SyncedAll(w);
    forall id | id in v.upTo
      ensures id < g.nextId && Placed([], v, id)
    {
      assert Placed(g.inflight, w, id);
    }
  }

  lemma {:induction false} TilesBound(batches: seq<Batch>, rest: Option<nat>, w: Writes, from: nat)
    requires Tiles(batches, rest, w, from)
    ensures forall i :: i in Ids(batches) ==> i in w.upTo && w.upTo[i] <= |w.heights|
    decreases |batches|
  {
    if batches == [] {
    } else {
      TilesBound(batches[1..], rest, w, w.upTo[batches[0].id]);
      assert batches == [batches[0]] + batches[1..];
    }
  }

  // -------------------- Any sequence of operations --------------------

  datatype Op = DoDefer(height: nat) | DoAdopt | DoRelease(id: nat) | DoClear

  datatype Pair = Pair(gate: Gate, writes: Writes)

  /** One operation on the gate and on the history; a release names a sync that was started at some point. */
  function Apply(s: Pair, op: Op): Pair {
    match op
    case DoDefer(h) => Pair(Defer(s.gate, h), Wrote(s.writes, h))
    case DoAdopt => if s.gate.unsynced.None? then s else Pair(Adopt(s.gate), Started(s.writes, s.gate.nextId))
    case DoRelease(id) => if id in s.writes.upTo then Pair(Release(s.gate, id), Completed(s.writes, id)) else s
    case DoClear => Pair(Clear(s.gate), SyncedAll(s.writes))
  }

  function RunOps(ops: seq<Op>): Pair {
    if ops == [] then Pair(Gate(None, [], 0), Writes([], 0, map[]))
    else Apply(RunOps(ops[..|ops| - 1]), ops[|ops| - 1])
  }

  /**
   Whatever the order of writes, sync starts, out of order and stale completions
   and full syncs, the barrier is the least height of the uncovered writes.
   */
  lemma {:induction false} GateRefinement(ops: seq<Op>)
    ensures var s := RunOps(ops);
            && Tracks(s.gate, s.writes)
            && s.writes.covered <= |s.writes.heights|
            && Barrier(s.gate) == Lowest(Uncovered(s.writes))
    decreases |ops|
  {
    if ops == [] {
    } else {
      GateRefinement(ops[..|ops| - 1]);
      var s := RunOps(ops[..|ops| - 1]);
      match ops[|ops| - 1]
      case DoDefer(h) => DeferTracks(s.gate, s.writes, h);
      case DoAdopt => AdoptTracks(s.gate, s.writes);
      case DoRelease(id) => if id in s.writes.upTo { ReleaseTracks(s.gate, s.writes, id); }
      case DoClear => ClearTracks(s.gate, s.writes);
    }
    BarrierIsLowestUncovered(RunOps(ops).gate, RunOps(ops).writes);
  }

  // -------------------- The object --------------------

  class DispatchGate {
    var unsynced: Option<nat>
    var inflight: seq<Batch>
    var nextSeq: nat
    ghost var writes: Writes

    ghost function Value(): Gate
      reads this
    {
      Gate(unsynced, inflight, nextSeq)
    }

    ghost predicate Valid()
      reads this
    {
      Tracks(Value(), writes)
    }

    constructor ()
      ensures Valid() && Value() == Gate(None, [], 0) && writes == Writes([], 0, map[])
    {
      unsynced, inflight, nextSeq := None, [], 0;
      writes := Writes([], 0, map[]);
    }

    method DeferHeight(height: nat)
      requires Valid()
      modifies this
      ensures Valid() && Value() == Defer(old(Value()), height) && writes == Wrote(old(writes), height)
    {
      DeferTracks(Value(), writes, height);
      unsynced := Some(if unsynced.Some? && unsynced.value <= height then unsynced.value else height);
      writes := Wrote(writes, height);
    }

    method AdoptBatch() returns (seqNo: Option<nat>)
      requires Valid()
      modifies this
      ensures Valid() && Value() == Adopt(old(Value()))
      ensures seqNo == (if old(unsynced).Some? then Some(old(nextSeq)) else None)
      ensures writes == (if seqNo.Some? then Started(old(writes), seqNo.value) else old(writes))
    {
      if unsynced.None? {
        return None;
      }
      AdoptTracks(Value(), writes);
      var lowest := unsynced.value;
      unsynced := None;
      seqNo := Some(nextSeq);
      nextSeq := nextSeq + 1;
      inflight := inflight + [Batch(seqNo.value, lowest)];
      writes := Started(writes, seqNo.value);
    }

    method ReleaseBatch(seqNo: nat)
      requires Valid() && seqNo in writes.upTo
      modifies this
      ensures Valid() && Value() == Release(old(Value()), seqNo) && writes == Completed(old(writes), seqNo)
    {
      ReleaseTracks(Value(), writes, seqNo);
      while inflight != [] && inflight[0].id <= seqNo
        modifies this`inflight
        invariant After(inflight, seqNo) == After(old(inflight), seqNo)
        decreases |inflight|
      {
        inflight := inflight[1..];
      }
      writes := Completed(writes, seqNo);
    }

    method ClearAll()
      requires Valid()
      modifies this
      ensures Valid() && Value() == Clear(old(Value())) && writes == SyncedAll(old(writes))
    {
      ClearTracks(Value(), writes);
      unsynced, inflight := None, [];
      writes := SyncedAll(writes);
    }

    method CurrentBarrier() returns (lowest: Option<nat>)
      requires Valid()
      ensures lowest == Lowest(Uncovered(writes))
    {
      BarrierIsLowestUncovered(Value(), writes);
      lowest := unsynced;
      var i := |inflight|;
      assert inflight[i..] == [];
      while i > 0
        invariant 0 <= i <= |inflight|
        invariant lowest == Lower(LowestOf(inflight[i..]), unsynced)
      {
        i := i - 1;
        assert inflight[i..][1..] == inflight[i + 1..];
        lowest := Lower(Some(inflight[i].lowest), lowest);
      }
      assert inflight[0..] == inflight;
    }
  }
}

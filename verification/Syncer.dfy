/** The acknowledgement queue, the floor and the delivery actor of the syncer, as objects that update their fields. */
module SyncerActor {
  import opened Chain
  import opened DispatchGates
  import opened SyncerModel
  import opened SyncerRuns
  import opened GapRepair

  /** Blocks in flight: the armed one, and those queued behind it. */
  class PendingAcks {
    var current: Option<Dispatch>
    var queue: seq<Dispatch>
    const max: nat

    ghost predicate Valid()
      reads this
    {
      (current.None? ==> queue == []) && |Contents()| <= max
    }

    ghost function Contents(): seq<Dispatch>
      reads this
    {
      (if current.Some? then [current.value] else []) + queue
    }

    constructor (max: nat)
      ensures Valid() && Contents() == [] && this.max == max
    {
      current, queue := None, [];
      this.max := max;
    }

    method Clear()
      modifies this
      ensures Valid() && Contents() == []
    {
      current, queue := None, [];
    }

    method HasCapacity() returns (free: bool)
      requires Valid()
      ensures free <==> |Contents()| < max
    {
      var reserved := if current.Some? then 1 else 0;
      free := |queue| < max - reserved;
    }

    method NextDispatchHeight(start: nat) returns (height: nat)
      requires Valid()
      ensures height == if Contents() == [] then start else Contents()[|Contents()| - 1].block.height + 1
    {
      if queue != [] {
        height := queue[|queue| - 1].block.height + 1;
      } else if current.Some? {
        height := current.value.block.height + 1;
      } else {
        height := start;
      }
    }

    method Enqueue(ack: Dispatch)
      requires Valid() && |Contents()| < max
      modifies this
      ensures Valid() && Contents() == old(Contents()) + [ack]
    {
      if current.None? {
        current := Some(ack);
      } else {
        queue := queue + [ack];
      }
    }

    /** Takes the oldest block in flight and arms the next one. */
    method CompleteCurrent() returns (done: Dispatch)
      requires Valid() && Contents() != []
      modifies this
      ensures Valid() && old(Contents()) == [done] + Contents()
    {
      done := current.value;
      current := None;
      if queue != [] {
        current := Some(queue[0]);
        queue := queue[1..];
      }
    }
  }

  /** The processed floor and the certificate of a floor whose block is awaited. */
  class ProcessedFloor {
    var height: Option<nat>
    var round: Round
    var pending: Option<Certificate>

    ghost function Value(): Floor
      reads this
    {
      Floor(if height.Some? then height.value else 0, round, pending)
    }

    constructor (height: nat, round: Round)
      ensures Value() == Floor(height, round, None) && this.height.Some?
    {
      this.height, this.round, pending := Some(height), round, None;
    }

    method ProcessedHeight() returns (h: nat)
      ensures h == Value().height
    {
      h := if height.Some? then height.value else 0;
    }

    method SetProcessedHeight(h: nat)
      modifies this`height
      ensures Value() == old(Value()).(height := h) && height.Some?
    {
      height := Some(h);
    }

    /** Moves the round forward for a processed height only. */
    method RaiseProcessedRound(h: nat, r: Round)
      modifies this`round
      ensures Value() == RaiseRound(old(Value()), h, r)
    {
      var processed := ProcessedHeight();
      if h > processed || r.AtMost(round) {
        return;
      }
      round := r;
    }

    method AwaitAnchor(cert: Certificate)
      modifies this`pending
      ensures Value() == old(Value()).(anchor := Some(cert))
    {
      pending := Some(cert);
    }

    method TakePendingAnchor() returns (taken: Option<Certificate>)
      modifies this`pending
      ensures taken == old(Value()).anchor && Value() == old(Value()).(anchor := None)
    {
      taken := pending;
      pending := None;
    }

    method TakeSupersededAnchor() returns (taken: Option<Certificate>)
      modifies this`pending
      ensures Value() == TakeSuperseded(old(Value()))
      ensures taken.Some? ==> taken == old(Value()).anchor && taken.value.round.AtMost(old(Value()).round)
      ensures taken.None? ==> Value() == old(Value())
    {
      if pending.Some? && pending.value.round.AtMost(round) {
        taken := pending;
        pending := None;
      } else {
        taken := None;
      }
    }
  }

  class Syncer {
    const config: Config
    const recovery: nat
    const floor: ProcessedFloor
    const acks: PendingAcks
    const gate: DispatchGate
    var blocks: map<nat, Block>
    var certs: map<nat, Certificate>
    var reports: set<Digest>
    /** Every block reported to the application, in order. */
    var outbox: seq<Dispatch>
    /** Every request made to peers for repair, in order. */
    var asked: seq<Request>
    ghost var durable: Archive
    ghost var floored: bool

    ghost predicate Valid()
      reads this, floor, acks, gate
    {
      && acks.Valid() && acks.max == config.maxPendingAcks
      && gate.Valid()
      && floor.height.Some?
    }

    ghost function Value(): Sync
      reads this, floor, acks, gate
    {
      Sync(Vault(Archive(blocks, certs), gate.Value(), gate.writes, durable),
           Delivery(floor.Value(), acks.Contents(), outbox, floored), reports, recovery)
    }

    /** Starts over the archives found on disk, after the state the finalizer selected. */
    constructor (config: Config, archive: Archive, recovery: nat)
      requires Indexed(archive) && RecoveredRound(archive, recovery).Some?
      ensures Valid() && Value() == SyncBoot(archive, recovery, RecoveredRound(archive, recovery).value)
      ensures fresh(floor) && fresh(acks) && fresh(gate)
    {
      var round := RecoveredRound(archive, recovery).value;
      this.config, this.recovery := config, recovery;
      blocks, certs := archive.blocks, archive.certs;
      reports, outbox, asked := {}, [], [];
      durable, floored := archive, false;
      floor := new ProcessedFloor(recovery, round);
      acks := new PendingAcks(config.maxPendingAcks);
      gate := new DispatchGate();
      new;
      assert Value() == SyncBoot(archive, recovery, round);
    }

    method Admits(b: Block, cert: Option<Certificate>) returns (ok: bool)
      ensures ok <==> Storable(config, floor.Value().height, Archive(blocks, certs), b, cert)
    {
      var processed := floor.ProcessedHeight();
      if b.height <= processed {
        return false;
      }
      if cert.Some? && !Binds(config, b, cert.value) {
        return false;
      }
      if b.height in blocks && blocks[b.height].Id() != b.Id() {
        return false;
      }
      ok := b.height !in certs || certs[b.height].payload == b.Id();
    }

    method PutArchives(b: Block, cert: Option<Certificate>)
      modifies this`blocks, this`certs
      ensures Archive(blocks, certs) == PutBoth(old(Archive(blocks, certs)), b, cert)
    {
      if b.height !in blocks {
        blocks := blocks[b.height := b];
      }
      if cert.Some? && b.height !in certs {
        certs := certs[b.height := cert.value];
      }
    }

    method StoreFinalization(b: Block, cert: Option<Certificate>) returns (wrote: bool)
      requires Valid()
      modifies this`blocks, this`certs, gate
      ensures Valid() && Value() == Store(config, old(Value()), b, cert)
      ensures wrote <==> Storable(config, old(Value()).delivery.floor.height, old(Value()).vault.archive, b, cert)
    {
      wrote := Admits(b, cert);
      if wrote {
        PutArchives(b, cert);
        gate.DeferHeight(b.height);
      }
    }

    /** The block to dispatch next, if nothing holds it back. */
    method NextReady(barrier: Option<nat>) returns (ready: Option<Dispatch>)
      requires Valid()
      ensures ready == Dispatchable(config, Value().vault.archive, reports, Value().delivery, barrier)
    {
      var free := acks.HasCapacity();
      if !free {
        return None;
      }
      var processed := floor.ProcessedHeight();
      var next := acks.NextDispatchHeight(processed + 1);
      if barrier.Some? && next >= barrier.value {
        return None;
      }
      if next !in blocks || blocks[next].height != next {
        return None;
      }
      var b := blocks[next];
      if b.Id() in reports {
        return None;
      }
      var certified: Option<Digest> := None;
      if IsLastOfEpoch(config.epochOf, next) {
        if next !in certs || certs[next].payload != b.Id() {
          return None;
        }
        certified := Some(certs[next].payload);
      }
      ready := Some(Dispatch(|outbox|, b, certified));
    }

    method TryDispatchBlocks()
      requires Valid()
      modifies this`outbox, acks
      ensures Valid() && Value() == TryDispatch(config, old(Value()))
    {
      if floor.pending.Some? {
        return;
      }
      ghost var before := Value();
      var barrier := gate.CurrentBarrier();
      BarrierIsLowestUncovered(gate.Value(), gate.writes);
      var ready := NextReady(barrier);
      while ready.Some?
        invariant Valid()
        invariant ready == Dispatchable(config, before.vault.archive, reports, Value().delivery, barrier)
        invariant Value() == before.(delivery := Value().delivery)
        invariant DispatchBelow(config, before.vault.archive, reports, Value().delivery, barrier)
               == DispatchBelow(config, before.vault.archive, reports, before.delivery, barrier)
        decreases config.maxPendingAcks - |acks.Contents()|
      {
        outbox := outbox + [ready.value];
        acks.Enqueue(ready.value);
        ready := NextReady(barrier);
      }
    }

    method StartFinalizedSync() returns (seqNo: Option<nat>)
      requires Valid()
      modifies gate
      ensures Valid() && Value() == Act(config, old(Value()), BeginSync)
    {
      seqNo := gate.AdoptBatch();
    }

    method SyncCompleted(seqNo: nat)
      requires Valid() && seqNo in gate.writes.upTo
      modifies this`durable, gate
      ensures Valid() && Value() == Act(config, old(Value()), EndSync(seqNo))
    {
      ghost var after := Act(config, Value(), EndSync(seqNo));
      gate.ReleaseBatch(seqNo);
      durable := after.vault.durable;
    }

    method SyncFinalized()
      requires Valid()
      modifies this`durable, gate
      ensures Valid() && Value() == Act(config, old(Value()), FullSync)
    {
      gate.ClearAll();
      durable := Archive(blocks, certs);
    }

    /** Keeps the terminal block of an imported checkpoint, or at least its certificate, available for replay. */
    method PinImported(height: nat, cert: Certificate, last: Option<Block>) returns (ok: bool)
      requires Valid()
      modifies this`blocks, this`certs, this`durable, gate
      ensures Valid()
      ensures var r := PinCheckpoint(config, old(Value()), height, cert, last);
              ok == r.Some? && (ok ==> Value() == r.value)
    {
      if height == 0 || height > recovery + 1 {
        return false;
      }
      if last.Some? && last.value.Id() != cert.payload {
        return false;
      }
      if height in blocks && blocks[height].Id() != cert.payload {
        return false;
      }
      if height in certs && certs[height].payload != cert.payload {
        return false;
      }
      var processed := floor.ProcessedHeight();
      if height <= processed {
        return true;
      }
      if !IsLastOfEpoch(config.epochOf, height) {
        return false;
      }
      var block := if last.Some? then last else if height in blocks then Some(blocks[height]) else None;
      ok := PinArtifacts(height, cert, block);
    }

    method PinArtifacts(height: nat, cert: Certificate, block: Option<Block>) returns (ok: bool)
      requires Valid()
      modifies this`blocks, this`certs, this`durable, gate
      ensures Valid()
      ensures var s := old(Value());
              && (block.None? ==>
                    ok && Value() == s.(vault := SyncAll(s.vault.(archive := PutCert(s.vault.archive, height, cert)))))
              && (block.Some? ==>
                    && ok == (block.value.height == height
                             && Storable(config, s.delivery.floor.height, s.vault.archive, block.value, Some(cert)))
                    && (ok ==>
                          var t := Store(config, s, block.value, Some(cert)); Value() == t.(vault := SyncAll(t.vault))))
    {
      if block.Some? {
        if block.value.height != height {
          return false;
        }
        ok := StoreFinalization(block.value, Some(cert));
        if !ok {
          return;
        }
      } else {
        ok := true;
        if height !in certs {
          certs := certs[height := cert];
        }
      }
      SyncFinalized();
    }

    /** Takes the acknowledgements that are ready, oldest first; each moves the processed floor. */
    method DrainAcks(ready: nat)
      requires Valid() && ready <= |acks.Contents()|
      modifies floor, acks
      ensures Valid() && Value() == AckMany(old(Value()), ready)
    {
      ghost var before := Value();
      var left: nat := ready;
      while left > 0
        invariant Valid() && left <= |acks.Contents()|
        invariant AckMany(Value(), left) == AckMany(before, ready)
        modifies floor, acks
      {
        CompleteAck();
        left := left - 1;
      }
    }

    method CompleteAck()
      requires Valid() && acks.Contents() != []
      modifies floor, acks
      ensures Valid() && Value() == old(Value()).(delivery := OnAck(old(Value()).vault.archive, old(Value()).delivery))
    {
      var done := acks.CompleteCurrent();
      floor.SetProcessedHeight(done.block.height);
      if done.block.height in certs {
        floor.RaiseProcessedRound(done.block.height, certs[done.block.height].round);
      }
    }

    /**
     Drains `ready` acknowledgements and fills the pipeline. If the next one
     failed, the block is dropped from the window and the actor ends instead.
     */
    method HandleAcks(ready: nat, failed: bool) returns (alive: bool)
      requires Valid() && ready + (if failed then 1 else 0) <= |acks.Contents()|
      modifies this`outbox, floor, acks
      ensures Valid() && alive == !failed
      ensures var t := AckMany(old(Value()), ready);
              if failed then t.delivery.inflight != []
                             && Value() == t.(delivery := t.delivery.(inflight := t.delivery.inflight[1..]))
              else Value() == TryDispatch(config, t)
    {
      AckManyShrinks(Value(), ready);
      DrainAcks(ready);
      if failed {
        var dropped := acks.CompleteCurrent();
        return false;
      }
      TryDispatchBlocks();
      alive := true;
    }

    /** Stores the anchor without the guards of an ordinary store and makes it durable. */
    method StoreAnchor(b: Block, cert: Certificate)
      requires Valid()
      modifies this`blocks, this`certs, this`durable, gate
      ensures Valid()
      ensures var s := old(Value());
              Value() == s.(vault := SyncAll(s.vault.(archive := PutBoth(s.vault.archive, b, Some(cert)))))
    {
      PutArchives(b, Some(cert));
      SyncFinalized();
    }

    /** Counts everything below `height` as processed and drops the blocks in flight. */
    method ResumeAt(height: nat, round: Round)
      requires Valid() && height > 0
      modifies floor, acks
      ensures Valid()
      ensures floor.Value() == RaiseRound(old(floor.Value()).(height := height - 1), height - 1, round)
      ensures acks.Contents() == []
    {
      floor.SetProcessedHeight(height - 1);
      floor.RaiseProcessedRound(height - 1, round);
      acks.Clear();
    }

    method AdoptAnchor(b: Block, cert: Certificate)
      requires Valid() && floor.pending.None? && b.height > 0
      modifies this`blocks, this`certs, this`durable, floor, acks, gate
      ensures Valid()
      ensures var s := old(Value());
              Value() == s.(vault := Prune(SyncAll(s.vault.(archive := PutBoth(s.vault.archive, b, Some(cert)))),
                                           b.height, recovery),
                            delivery := JumpTo(s.delivery, b.height, cert.round))
    {
      StoreAnchor(b, cert);
      ResumeAt(b.height, cert.round);
      PruneFinalizedArchives(b.height);
    }

    /** Applies a block if it is the awaited floor anchor. */
    method ApplyFloorAnchor(b: Block) returns (applied: bool)
      requires Valid()
      modifies this`blocks, this`certs, this`durable, floor, acks, gate
      ensures Valid() && Value() == ApplyAnchor(old(Value()), b)
      ensures applied <==> MatchesAnchor(old(Value()).delivery.floor, b)
    {
      if floor.pending.None? || floor.pending.value.payload != b.Id() {
        return false;
      }
      applied := true;
      var processed := floor.ProcessedHeight();
      var cert := floor.TakePendingAnchor();
      if b.height <= processed {
        floor.RaiseProcessedRound(b.height, cert.value.round);
        return;
      }
      AdoptAnchor(b, cert.value);
    }

    /** Repairs, makes repaired blocks durable and resumes dispatch; a repair that never ends never gets there. */
    method ResumeDelivery(l: Local) returns (outcome: Outcome)
      requires Valid() && Indexed(Archive(blocks, certs))
      modifies this`blocks, this`certs, this`outbox, this`asked, this`durable, acks, gate
      ensures Valid() && GapRepair.Resume(config, old(Value()), l) == (Value(), outcome)
      ensures asked == old(asked) + AskedBy(config, TryRepair(config, old(Value()), l))
    {
      var wrote;
      outcome, wrote := TryRepairGaps(l);
      if outcome.Diverges? {
        return;
      }
      if wrote {
        SyncFinalized();
      }
      TryDispatchBlocks();
    }

    /** A block that may be the awaited anchor, with everything that follows from it. */
    method HandleAnchor(b: Block, l: Local) returns (applied: bool, outcome: Outcome)
      requires Valid() && Indexed(Archive(blocks, certs))
      modifies this`blocks, this`certs, this`outbox, this`asked, this`durable, floor, acks, gate
      ensures Valid() && applied == MatchesAnchor(old(Value()).delivery.floor, b)
      ensures !applied ==> Value() == old(Value()) && asked == old(asked)
      ensures Indexed(ApplyAnchor(old(Value()), b).vault.archive)
      ensures applied ==>
                && GapRepair.Resume(config, ApplyAnchor(old(Value()), b), l) == (Value(), outcome)
                && asked == old(asked) + AskedBy(config, TryRepair(config, ApplyAnchor(old(Value()), b), l))
    {
      AnchorIndexed(Value(), b);
      outcome := Blocked;
      applied := ApplyFloorAnchor(b);
      if applied {
        outcome := ResumeDelivery(l);
      }
    }

    method InstallFloor(cert: Certificate, found: Option<Block>)
      requires Valid() && (found.Some? ==> found.value.Id() == cert.payload)
      modifies this`blocks, this`certs, this`durable, this`floored, floor, acks, gate
      ensures Valid() && Value() == SyncerModel.InstallFloor(old(Value()), cert, found)
    {
      if cert.round.AtMost(floor.round) {
        return;
      }
      if floor.pending.Some? && cert.round.AtMost(floor.pending.value.round) {
        return;
      }
      floored := true;
      floor.AwaitAnchor(cert);
      if found.Some? {
        var applied := ApplyFloorAnchor(found.value);
      } else {
        acks.Clear();
      }
    }

    method PruneFinalizedArchives(height: nat)
      requires Valid()
      modifies this`blocks, this`certs, this`durable
      ensures Valid() && Value() == old(Value()).(vault := Prune(old(Value()).vault, height, recovery))
    {
      var cutoff := PruneCutoff(height, recovery);
      var kept := Retained(Archive(blocks, certs), cutoff);
      blocks, certs := kept.blocks, kept.certs;
      durable := Retained(durable, cutoff);
    }

    /** One walk down a gap. */
    method RepairGap(l: Local, from: Block, low: nat) returns (stop: Option<Block>, wrote: bool)
      requires Valid()
      modifies this`blocks, this`certs, gate
      ensures Valid() && Walk(config, old(Value()), l, from, low) == (Value(), stop)
      ensures |gate.writes.heights| >= |old(gate.writes.heights)| + if wrote then 1 else 0
      ensures !wrote ==> Value() == old(Value())
    {
      var cursor := from;
      wrote := false;
      while cursor.height > low
        invariant Valid()
        invariant Walk(config, Value(), l, cursor, low) == Walk(config, old(Value()), l, from, low)
        invariant |gate.writes.heights| >= |old(gate.writes.heights)| + if wrote then 1 else 0
        invariant !wrote ==> Value() == old(Value())
        decreases cursor
      {
        var found := FindBlock(l, Archive(blocks, certs), cursor.parent);
        if found.None? {
          return Some(cursor), wrote;
        }
        var stored := StoreFinalization(found.value, Cached(l, cursor.parent));
        wrote := wrote || stored;
        cursor := found.value;
      }
      stop := None;
    }

    /** One round of repair: what it ends with, or that the rest is left to do. */
    method RepairRound(l: Local) returns (end: Option<Outcome>, wrote: bool)
      requires Valid() && Indexed(Archive(blocks, certs))
      modifies this`blocks, this`certs, gate
      ensures Valid() && Indexed(Archive(blocks, certs))
      ensures Repair(config, old(Value()), l) == if end.Some? then (Value(), end.value) else Repair(config, Value(), l)
      ensures end.None? ==> Unstored(l, blocks) < Unstored(l, old(blocks))
      ensures |gate.writes.heights| >= |old(gate.writes.heights)| + if wrote then 1 else 0
      ensures !wrote ==> Value() == old(Value())
    {
      var processed := floor.ProcessedHeight();
      var gap := NextGap(blocks, processed + 1);
      if gap.None? {
        return Some(Complete), false;
      }
      ghost var s := Value();
      WalkGrows(config, s, l, blocks[gap.value.end], gap.value.low);
      var before := blocks;
      var stop;
      stop, wrote := RepairGap(l, blocks[gap.value.end], gap.value.low);
      ghost var t := Value();
      RepairStep(config, s, l, t, stop);
      if stop.Some? {
        end := Some(Awaiting(stop.value));
      } else if blocks == before {
        end := Some(Diverges);
      } else {
        end := None;
      }
    }

    /** Asks peers for what a stopped repair lacks. */
    method RequestMissing(outcome: Outcome)
      requires Valid()
      modifies this`asked
      ensures asked == old(asked) + AskedBy(config, (Value(), outcome))
    {
      if outcome.Awaiting? && outcome.child.height > 0 {
        var processed := floor.height.value;
        var f := Floor(processed, floor.round, floor.pending);
        var items := MissingItems(blocks, processed + 1, config.maxRepair);
        asked := asked + (Permitted(f, [BlockAt(outcome.child.parent, outcome.child.height - 1)]) +
                          Permitted(f, Finalizations(items)));
      }
    }

    /** Repairs gaps from local storage; a round that stores no block would be repeated forever. */
    method RepairGaps(l: Local) returns (outcome: Outcome, wrote: bool)
      requires Valid() && Indexed(Archive(blocks, certs))
      modifies this`blocks, this`certs, this`asked, gate
      ensures Valid() && Repair(config, old(Value()), l) == (Value(), outcome)
      ensures asked == old(asked) + AskedBy(config, (Value(), outcome))
      ensures |gate.writes.heights| >= |old(gate.writes.heights)| + if wrote then 1 else 0
      ensures !wrote ==> Value() == old(Value())
    {
      ghost var start, base := Value(), |gate.writes.heights|;
      ghost var goal := Repair(config, start, l);
      var end;
      end, wrote := RepairRound(l);
      while end.None?
        invariant Valid() && Indexed(Archive(blocks, certs))
        invariant goal == if end.Some? then (Value(), end.value) else Repair(config, Value(), l)
        invariant |gate.writes.heights| >= base + if wrote then 1 else 0
        invariant !wrote ==> Value() == start
        invariant asked == old(asked)
        decreases end.None?, Unstored(l, blocks)
      {
        var stored;
        end, stored := RepairRound(l);
        wrote := wrote || stored;
      }
      outcome := end.value;
      RequestMissing(outcome);
    }

    /** Waits for a pending floor, whose anchor may move the lower bound. */
    method TryRepairGaps(l: Local) returns (outcome: Outcome, wrote: bool)
      requires Valid() && Indexed(Archive(blocks, certs))
      modifies this`blocks, this`certs, this`asked, gate
      ensures Valid() && TryRepair(config, old(Value()), l) == (Value(), outcome)
      ensures asked == old(asked) + AskedBy(config, (Value(), outcome))
      ensures wrote ==> gate.writes.heights != old(gate.writes.heights)
      ensures !wrote ==> Value() == old(Value())
    {
      if floor.pending.Some? {
        return Blocked, false;
      }
      outcome, wrote := RepairGaps(l);
    }
  }

  lemma {:induction false} AnchorIndexed(s: Sync, b: Block)
    requires Indexed(s.vault.archive)
    ensures Indexed(ApplyAnchor(s, b).vault.archive)
  {
  }

  lemma {:induction false} AckManyShrinks(s: Sync, count: nat)
    requires count <= |s.delivery.inflight|
    ensures |AckMany(s, count).delivery.inflight| == |s.delivery.inflight| - count
    decreases count
  {
    if count == 0 {
    } else {
      AckManyShrinks(s.(delivery := OnAck(s.vault.archive, s.delivery)), count - 1);
    }
  }
}

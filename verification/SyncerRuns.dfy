/** What every run of the syncer keeps: the delivery window and the durability of dispatched blocks. */
module SyncerRuns {
  import opened Chain
  import opened DispatchGates
  import opened SyncerModel

  // -------------------- Archives --------------------

  ghost predicate Indexed(a: Archive) {
    forall h :: h in a.blocks ==> a.blocks[h].height == h
  }

  ghost predicate Within(small: Archive, large: Archive) {
    && (forall h :: h in small.blocks ==> h in large.blocks && large.blocks[h] == small.blocks[h])
    && (forall h :: h in small.certs ==> h in large.certs && large.certs[h] == small.certs[h])
  }

  /** Whatever is archived is durable, or some write at its height is still uncovered. */
  ghost predicate Buffered(a: Archive, durable: Archive, uncovered: seq<nat>) {
    && (forall h :: h in a.blocks ==> h in durable.blocks || h in uncovered)
    && (forall h :: h in a.certs ==> h in durable.certs || h in uncovered)
  }

  ghost predicate VaultOk(v: Vault) {
    && Tracks(v.gate, v.writes)
    && v.writes.covered <= |v.writes.heights|
    && Indexed(v.archive)
    && Within(v.durable, v.archive)
    && Buffered(v.archive, v.durable, Uncovered(v.writes))
  }

  /** Nothing durable above the recovery height is lost or changed. */
  ghost predicate Retains(recovery: nat, v: Vault, w: Vault) {
    && (forall h :: h > recovery && h in v.durable.blocks ==>
         h in w.durable.blocks && w.durable.blocks[h] == v.durable.blocks[h])
    && (forall h :: h > recovery && h in v.durable.certs ==>
         h in w.durable.certs && w.durable.certs[h] == v.durable.certs[h])
  }

  lemma {:induction false} WriteOk(v: Vault, b: Block, cert: Option<Certificate>)
    requires VaultOk(v)
    ensures VaultOk(Write(v, b, cert)) && Write(v, b, cert).durable == v.durable
  {
    var w := Write(v, b, cert);
    DeferTracks(v.gate, v.writes, b.height);
    assert Uncovered(w.writes) == Uncovered(v.writes) + [b.height];
  }

  lemma {:induction false} SyncDoneOk(v: Vault, id: nat)
    requires VaultOk(v)
    ensures VaultOk(SyncDone(v, id)) && Within(v.durable, SyncDone(v, id).durable)
  {
    if id in v.writes.upTo {
      var w := SyncDone(v, id);
      ReleaseTracks(v.gate, v.writes, id);
      BarrierIsLowestUncovered(w.gate, w.writes);
    }
  }

  lemma {:induction false} StartSyncOk(v: Vault)
    requires VaultOk(v)
    ensures VaultOk(StartSync(v)) && StartSync(v).durable == v.durable
  {
    AdoptTracks(v.gate, v.writes);
  }

  lemma {:induction false} SyncAllOk(v: Vault, a: Archive)
    requires VaultOk(v) && Within(v.archive, a) && Indexed(a)
    ensures var w := SyncAll(v.(archive := a)); VaultOk(w) && Within(v.durable, w.durable)
  {
    ClearTracks(v.gate, v.writes);
  }

  lemma {:induction false} PruneOk(v: Vault, requested: nat, recovery: nat)
    requires VaultOk(v)
    ensures VaultOk(Prune(v, requested, recovery)) && Retains(recovery, v, Prune(v, requested, recovery))
  {
  }

  /** A height below the barrier is durable. */
  lemma {:induction false} BelowBarrier(v: Vault, h: nat)
    requires VaultOk(v)
    requires Barrier(v.gate).Some? ==> h < Barrier(v.gate).value
    ensures h in v.archive.blocks ==> h in v.durable.blocks && v.durable.blocks[h] == v.archive.blocks[h]
    ensures h in v.archive.certs ==> h in v.durable.certs && v.durable.certs[h] == v.archive.certs[h]
  {
    BarrierIsLowestUncovered(v.gate, v.writes);
    LowestIsLeast(Uncovered(v.writes));
  }

  // -------------------- Delivery --------------------

  /** The blocks in flight are the successors of the processed height, without gap, at most the maximum. */
  ghost predicate WindowOk(c: Config, recovery: nat, d: Delivery) {
    && |d.inflight| <= c.maxPendingAcks
    && recovery <= d.floor.height
    && forall i :: 0 <= i < |d.inflight| ==> d.inflight[i].block.height == d.floor.height + 1 + i
  }

  /** Until a floor is installed, dispatches follow each other height by height. */
  ghost predicate SequenceOk(recovery: nat, d: Delivery) {
    && (forall i :: 0 <= i < |d.dispatched| ==> d.dispatched[i].id == i)
    && (!d.floored ==>
          && d.floor.anchor.None?
          && recovery <= d.floor.height
          && |d.dispatched| == d.floor.height - recovery + |d.inflight|
          && d.inflight == d.dispatched[d.floor.height - recovery..]
          && forall i :: 0 <= i < |d.dispatched| ==> d.dispatched[i].block.height == recovery + 1 + i)
  }

  /** The dispatched block, and the certificate sent with it, are durable and beyond the reach of pruning. */
  ghost predicate Kept(c: Config, recovery: nat, durable: Archive, d: Dispatch) {
    var h := d.block.height;
    && h > recovery
    && h in durable.blocks && durable.blocks[h] == d.block
    && (d.certified.Some? <==> IsLastOfEpoch(c.epochOf, h))
    && (d.certified.Some? ==>
         d.certified.value == d.block.Id() && h in durable.certs && durable.certs[h].payload == d.block.Id())
  }

  ghost predicate DeliveredOk(c: Config, recovery: nat, durable: Archive, dispatched: seq<Dispatch>) {
    forall i :: 0 <= i < |dispatched| ==> Kept(c, recovery, durable, dispatched[i])
  }

  ghost predicate SyncInv(c: Config, s: Sync) {
    && VaultOk(s.vault)
    && WindowOk(c, s.recovery, s.delivery)
    && SequenceOk(s.recovery, s.delivery)
    && DeliveredOk(c, s.recovery, s.vault.durable, s.delivery.dispatched)
  }

  lemma {:induction false} RetainsDelivered(c: Config, recovery: nat, v: Vault, w: Vault, dispatched: seq<Dispatch>)
    requires DeliveredOk(c, recovery, v.durable, dispatched) && Retains(recovery, v, w)
    ensures DeliveredOk(c, recovery, w.durable, dispatched)
  {
    forall i | 0 <= i < |dispatched|
      ensures Kept(c, recovery, w.durable, dispatched[i])
    {
      assert Kept(c, recovery, v.durable, dispatched[i]);
    }
  }

  lemma {:induction false} SendOk(c: Config, recovery: nat, d: Delivery, sent: Dispatch)
    requires WindowOk(c, recovery, d) && SequenceOk(recovery, d)
    requires |d.inflight| < c.maxPendingAcks && sent.id == |d.dispatched| && sent.block.height == NextHeight(d)
    ensures WindowOk(c, recovery, Send(d, sent)) && SequenceOk(recovery, Send(d, sent))
    ensures NextHeight(d) == d.floor.height + |d.inflight| + 1
  {
  }

  lemma {:induction false} SentIsKept(c: Config, v: Vault, reports: set<Digest>, recovery: nat, d: Delivery,
                                      sent: Dispatch)
    requires VaultOk(v) && WindowOk(c, recovery, d)
    requires Dispatchable(c, v.archive, reports, d, Barrier(v.gate)) == Some(sent)
    ensures Kept(c, recovery, v.durable, sent)
  {
    BelowBarrier(v, NextHeight(d));
  }

  lemma {:induction false} SendInv(c: Config, s: Sync, sent: Dispatch)
    requires SyncInv(c, s)
    requires Dispatchable(c, s.vault.archive, s.reports, s.delivery, Barrier(s.vault.gate)) == Some(sent)
    ensures SyncInv(c, s.(delivery := Send(s.delivery, sent)))
  {
    SentIsKept(c, s.vault, s.reports, s.recovery, s.delivery, sent);
    SendOk(c, s.recovery, s.delivery, sent);
  }

  lemma {:induction false} DispatchInv(c: Config, s: Sync)
    requires SyncInv(c, s)
    ensures var d := DispatchBelow(c, s.vault.archive, s.reports, s.delivery, Barrier(s.vault.gate));
            && SyncInv(c, s.(delivery := d)) && d.floor == s.delivery.floor && d.floored == s.delivery.floored
            && s.delivery.dispatched <= d.dispatched
    decreases c.maxPendingAcks - |s.delivery.inflight|
  {
    var d := Dispatchable(c, s.vault.archive, s.reports, s.delivery, Barrier(s.vault.gate));
    if d.None? {
    } else {
      SendInv(c, s, d.value);
      DispatchInv(c, s.(delivery := Send(s.delivery, d.value)));
    }
  }

  lemma {:induction false} AckOk(c: Config, recovery: nat, a: Archive, d: Delivery)
    requires WindowOk(c, recovery, d) && SequenceOk(recovery, d) && d.inflight != []
    ensures WindowOk(c, recovery, OnAck(a, d)) && SequenceOk(recovery, OnAck(a, d))
  {
  }

  lemma {:induction false} AnchorStored(v: Vault, b: Block, cert: Certificate, recovery: nat)
    requires VaultOk(v)
    ensures var w := Prune(SyncAll(v.(archive := PutBoth(v.archive, b, Some(cert)))), b.height, recovery);
            VaultOk(w) && Retains(recovery, v, w)
  {
    var a := PutBoth(v.archive, b, Some(cert));
    SyncAllOk(v, a);
    PruneOk(SyncAll(v.(archive := a)), b.height, recovery);
  }

  /** An anchor is only ever pending once a floor was installed. */
  lemma {:induction false} AnchorOk(c: Config, recovery: nat, d: Delivery, b: Block)
    requires WindowOk(c, recovery, d) && SequenceOk(recovery, d) && MatchesAnchor(d.floor, b)
    ensures b.height > d.floor.height ==>
              var e := JumpTo(d, b.height, d.floor.anchor.value.round);
              WindowOk(c, recovery, e) && SequenceOk(recovery, e)
  {
  }

  lemma {:induction false} ApplyAnchorInv(c: Config, s: Sync, b: Block)
    requires SyncInv(c, s)
    ensures SyncInv(c, ApplyAnchor(s, b)) && Retains(s.recovery, s.vault, ApplyAnchor(s, b).vault)
  {
    if MatchesAnchor(s.delivery.floor, b) {
      AnchorOk(c, s.recovery, s.delivery, b);
      if b.height > s.delivery.floor.height {
        AnchorStored(s.vault, b, s.delivery.floor.anchor.value, s.recovery);
        RetainsDelivered(c, s.recovery, s.vault, ApplyAnchor(s, b).vault, s.delivery.dispatched);
      }
    }
  }

  lemma {:induction false} InstallFloorInv(c: Config, s: Sync, cert: Certificate, found: Option<Block>)
    requires SyncInv(c, s)
    ensures SyncInv(c, InstallFloor(s, cert, found)) && Retains(s.recovery, s.vault, InstallFloor(s, cert, found).vault)
  {
    var waiting := s.(delivery := s.delivery.(floor := s.delivery.floor.(anchor := Some(cert)), floored := true));
    assert SyncInv(c, waiting);
    if found.Some? {
      ApplyAnchorInv(c, waiting, found.value);
    }
  }

  lemma {:induction false} PinCheckpointInv(c: Config, s: Sync, height: nat, cert: Certificate, last: Option<Block>)
    requires SyncInv(c, s)
    ensures var r := PinCheckpoint(c, s, height, cert, last);
            r.Some? ==> SyncInv(c, r.value) && Retains(s.recovery, s.vault, r.value.vault)
  {
    var r := PinCheckpoint(c, s, height, cert, last);
    var a := s.vault.archive;
    if r.Some? && r.value != s {
      var block := if last.Some? then last else if height in a.blocks then Some(a.blocks[height]) else None;
      if block.Some? {
        WriteOk(s.vault, block.value, Some(cert));
        var w := Write(s.vault, block.value, Some(cert));
        SyncAllOk(w, w.archive);
      } else {
        SyncAllOk(s.vault, PutCert(a, height, cert));
      }
      RetainsDelivered(c, s.recovery, s.vault, r.value.vault, s.delivery.dispatched);
    }
  }

  // -------------------- Steps --------------------

  lemma {:induction false} VaultStep(c: Config, s: Sync, w: Vault)
    requires SyncInv(c, s) && VaultOk(w) && Retains(s.recovery, s.vault, w)
    ensures SyncInv(c, s.(vault := w))
  {
    RetainsDelivered(c, s.recovery, s.vault, w, s.delivery.dispatched);
  }

  lemma {:induction false} VaultActions(c: Config, s: Sync, a: Action)
    requires SyncInv(c, s)
    requires a.StoreFinalized? || a.BeginSync? || a.EndSync? || a.FullSync? || a.PruneBelow?
    ensures SyncInv(c, Act(c, s, a)) && Retains(s.recovery, s.vault, Act(c, s, a).vault)
  {
    match a {
      case StoreFinalized(b, cert) => WriteOk(s.vault, b, cert);
      case BeginSync => StartSyncOk(s.vault);
      case EndSync(id) => SyncDoneOk(s.vault, id);
      case FullSync => SyncAllOk(s.vault, s.vault.archive);
      case PruneBelow(h) => PruneOk(s.vault, h, s.recovery);
    }
    VaultStep(c, s, Act(c, s, a).vault);
  }

  /** Actions on the archives leave delivery alone. */
  predicate Quiet(a: Action) {
    || a.StoreFinalized? || a.BeginSync? || a.EndSync? || a.FullSync? || a.PruneBelow?
    || a.ReportStarted? || a.ReportDone? || a.CheckpointPinned?
  }

  lemma {:induction false} PinKeepsDelivery(c: Config, s: Sync, height: nat, cert: Certificate, last: Option<Block>)
    ensures var r := PinCheckpoint(c, s, height, cert, last); r.Some? ==> r.value.delivery == s.delivery
  {
  }

  lemma {:induction false} QuietStep(c: Config, s: Sync, a: Action)
    requires Quiet(a)
    ensures Act(c, s, a).delivery == s.delivery
  {
    if a.CheckpointPinned? {
      PinKeepsDelivery(c, s, a.height, a.certificate, a.last);
    }
  }

  lemma {:induction false} DeliveryActions(c: Config, s: Sync, a: Action)
    requires SyncInv(c, s)
    requires a.DispatchReady? || a.Acknowledged? || a.ReleaseSuperseded? || a.RoundSeen? || a.ReportStarted?
             || a.ReportDone?
    ensures SyncInv(c, Act(c, s, a)) && Act(c, s, a).vault == s.vault
  {
    match a
    case DispatchReady => DispatchInv(c, s);
    case Acknowledged =>
      if s.delivery.inflight != [] { AckOk(c, s.recovery, s.vault.archive, s.delivery); }
    case _ =>
  }

  lemma {:induction false} FloorActions(c: Config, s: Sync, a: Action)
    requires SyncInv(c, s)
    requires a.SetFloor? || a.AnchorArrived? || a.CheckpointPinned?
    ensures SyncInv(c, Act(c, s, a)) && Retains(s.recovery, s.vault, Act(c, s, a).vault)
  {
    match a
    case SetFloor(cert, found) => InstallFloorInv(c, s, cert, found);
    case AnchorArrived(b) => ApplyAnchorInv(c, s, b);
    case CheckpointPinned(h, cert, last) => PinCheckpointInv(c, s, h, cert, last);
  }

  /** Every action of the event loop keeps the invariant, and loses nothing durable above the recovery height. */
  lemma {:induction false} ActInv(c: Config, s: Sync, a: Action)
    requires SyncInv(c, s)
    ensures SyncInv(c, Act(c, s, a)) && Act(c, s, a).recovery == s.recovery
    ensures Retains(s.recovery, s.vault, Act(c, s, a).vault)
  {
    if a.SetFloor? || a.AnchorArrived? || a.CheckpointPinned? {
      FloorActions(c, s, a);
    } else if a.StoreFinalized? || a.BeginSync? || a.EndSync? || a.FullSync? || a.PruneBelow? {
      VaultActions(c, s, a);
    } else {
      DeliveryActions(c, s, a);
    }
  }
}

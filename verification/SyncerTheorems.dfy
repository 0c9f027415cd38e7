/** The main results about runs of the syncer. */
module SyncerTheorems {
  import opened Chain
  import opened DispatchGates
  import opened SyncerModel
  import opened SyncerRuns

  /** The state after some actions of the event loop. */
  function ActAll(c: Config, s: Sync, actions: seq<Action>): Sync {
    if actions == [] then s else Act(c, ActAll(c, s, actions[..|actions| - 1]), actions[|actions| - 1])
  }

  lemma {:induction false} BootSyncInv(c: Config, archive: Archive, recovery: nat, round: Round)
    requires Indexed(archive)
    ensures SyncInv(c, SyncBoot(archive, recovery, round))
  {
    var v := SyncBoot(archive, recovery, round).vault;
    assert Tracks(v.gate, v.writes) by {
      GateRefinement([]);
    }
  }

  /** A certificate whose block is missing does not move the recovered round, so the block is still fetched. */
  lemma {:induction false} CertificateAloneIsIgnored(a: Archive, height: nat, cert: Certificate)
    requires height + 1 !in a.blocks
    ensures RecoveredRound(a.(certs := a.certs[height + 1 := cert]), height) == RecoveredRound(a, height)
  {
    LatestCertBelow(a.certs, height, height + 1, cert);
  }

  lemma {:induction false} LatestCertBelow(certs: map<nat, Certificate>, h: nat, above: nat, cert: Certificate)
    requires h < above
    ensures LatestCert(certs[above := cert], h) == LatestCert(certs, h)
    decreases h
  {
    if h == 0 || h in certs {
    } else {
      LatestCertBelow(certs, h - 1, above, cert);
    }
  }

  lemma {:induction false} RunSyncInv(c: Config, s: Sync, actions: seq<Action>)
    requires SyncInv(c, s)
    ensures SyncInv(c, ActAll(c, s, actions)) && ActAll(c, s, actions).recovery == s.recovery
    decreases |actions|
  {
    if actions == [] {
    } else {
      RunSyncInv(c, s, actions[..|actions| - 1]);
      ActInv(c, ActAll(c, s, actions[..|actions| - 1]), actions[|actions| - 1]);
    }
  }

  // -------------------- Delivery window --------------------

  /**
   In every run the heights in flight are the successors of the processed height
   up to the maximum, and without a floor the process dispatches every height
   above the recovery height once, in order.
   */
  lemma {:induction false} DeliveryWindow(c: Config, archive: Archive, recovery: nat, round: Round,
                                          actions: seq<Action>)
    requires Indexed(archive)
    ensures var d := ActAll(c, SyncBoot(archive, recovery, round), actions).delivery;
            && |d.inflight| <= c.maxPendingAcks
            && recovery <= d.floor.height
            && (forall i :: 0 <= i < |d.inflight| ==> d.inflight[i].block.height == d.floor.height + 1 + i)
            && (!d.floored ==> |d.dispatched| == d.floor.height - recovery + |d.inflight|)
            && (!d.floored ==> forall i :: 0 <= i < |d.dispatched| ==> d.dispatched[i].block.height == recovery + 1 + i)
  {
    BootSyncInv(c, archive, recovery, round);
    RunSyncInv(c, SyncBoot(archive, recovery, round), actions);
  }

  /** The oldest block in flight was acknowledged. */
  ghost predicate Advances(d: Delivery, a: Action, e: Delivery) {
    && a.Acknowledged?
    && d.inflight != []
    && e.floor.height == d.floor.height + 1 == d.inflight[0].block.height
    && e.inflight == d.inflight[1..]
  }

  /** The block awaited by a floor arrived: delivery jumps to it. */
  ghost predicate JumpedTo(d: Delivery, a: Action, e: Delivery, b: Block) {
    && (|| (a.AnchorArrived? && d.floor.anchor.Some? && d.floor.anchor.value.payload == b.Id())
        || (a.SetFloor? && a.certificate.payload == b.Id() && !a.certificate.round.AtMost(d.floor.round)))
    && d.floor.height + 1 <= b.height == e.floor.height + 1
    && e.floor.anchor.None?
    && e.inflight == []
  }

  ghost predicate Jumps(d: Delivery, a: Action, e: Delivery) {
    exists b :: JumpedTo(d, a, e, b)
  }

  /** The processed height and round never decrease; the height moves only by an acknowledgement or a floor anchor. */
  ghost predicate Progresses(d: Delivery, a: Action, e: Delivery) {
    && d.floor.height <= e.floor.height
    && d.floor.round.AtMost(e.floor.round)
    && (e.floor.height == d.floor.height || Advances(d, a, e) || Jumps(d, a, e))
  }

  /**
   A pending anchor is replaced by a newer floor only, stops being awaited only
   once the processed round has reached its round, and is above the processed
   round when it is installed and after every release.
   */
  ghost predicate AnchorMoves(f: Floor, a: Action, g: Floor) {
    && (f.anchor.Some? && g.anchor.Some? ==> f.anchor.value.round.AtMost(g.anchor.value.round))
    && (f.anchor.Some? && g.anchor.None? ==> f.anchor.value.round.AtMost(g.round))
    && (g.anchor.Some? && (a.ReleaseSuperseded? || g.anchor != f.anchor) ==> !g.anchor.value.round.AtMost(g.round))
  }

  lemma {:induction false} AnchorProgress(s: Sync, a: Action, b: Block)
    requires a == AnchorArrived(b)
             || (a.SetFloor? && s.delivery.floor.anchor == Some(a.certificate)
                 && !a.certificate.round.AtMost(s.delivery.floor.round))
    ensures var d, e := s.delivery, ApplyAnchor(s, b).delivery;
            && Progresses(d, a, e)
            && (MatchesAnchor(d.floor, b) ==> e.floor.anchor.None? && d.floor.anchor.value.round.AtMost(e.floor.round))
  {
    var d, e := s.delivery, ApplyAnchor(s, b).delivery;
    if e.floor.height != d.floor.height {
      assert JumpedTo(d, a, e, b);
    }
  }

  lemma {:induction false} SetFloorProgress(s: Sync, cert: Certificate, found: Option<Block>)
    ensures var d, e := s.delivery, InstallFloor(s, cert, found).delivery;
            Progresses(d, SetFloor(cert, found), e) && AnchorMoves(d.floor, SetFloor(cert, found), e.floor)
  {
    var d, e := s.delivery, InstallFloor(s, cert, found).delivery;
    if e != d && found.Some? && found.value.Id() == cert.payload {
      var waiting := s.(delivery := d.(floor := d.floor.(anchor := Some(cert)), floored := true));
      AnchorProgress(waiting, SetFloor(cert, found), found.value);
      if e.floor.height != d.floor.height {
        assert JumpedTo(d, SetFloor(cert, found), e, found.value);
      }
    }
  }

  lemma {:induction false} AckProgress(c: Config, recovery: nat, a: Archive, d: Delivery)
    requires WindowOk(c, recovery, d) && d.inflight != []
    ensures Progresses(d, Acknowledged, OnAck(a, d)) && OnAck(a, d).floor.anchor == d.floor.anchor
    ensures var h := d.floor.height + 1; h in a.certs ==> a.certs[h].round.AtMost(OnAck(a, d).floor.round)
  {
  }

  lemma {:induction false} RoundProgress(d: Delivery, height: nat, round: Round)
    ensures var e := d.(floor := RaiseRound(d.floor, height, round));
            Progresses(d, RoundSeen(height, round), e) && AnchorMoves(d.floor, RoundSeen(height, round), e.floor)
    ensures var e := d.(floor := TakeSuperseded(d.floor));
            Progresses(d, ReleaseSuperseded, e) && AnchorMoves(d.floor, ReleaseSuperseded, e.floor)
  {
  }

  lemma {:induction false} ProgressStep(c: Config, s: Sync, a: Action)
    requires SyncInv(c, s)
    ensures Progresses(s.delivery, a, Act(c, s, a).delivery)
    ensures AnchorMoves(s.delivery.floor, a, Act(c, s, a).delivery.floor)
  {
    if Quiet(a) {
      QuietStep(c, s, a);
    } else {
      match a
      case DispatchReady => DispatchInv(c, s);
      case AnchorArrived(b) => AnchorProgress(s, a, b);
      case SetFloor(cert, found) => SetFloorProgress(s, cert, found);
      case Acknowledged => if s.delivery.inflight != [] { AckProgress(c, s.recovery, s.vault.archive, s.delivery); }
      case RoundSeen(h, r) => RoundProgress(s.delivery, h, r);
      case ReleaseSuperseded => RoundProgress(s.delivery, 0, s.delivery.floor.round);
    }
  }

  lemma {:induction false} ProgressRun(c: Config, s: Sync, actions: seq<Action>)
    requires SyncInv(c, s)
    ensures var d, e := s.delivery, ActAll(c, s, actions).delivery;
            d.floor.height <= e.floor.height && d.floor.round.AtMost(e.floor.round)
    decreases |actions|
  {
    if actions == [] {
    } else {
      var front := actions[..|actions| - 1];
      ProgressRun(c, s, front);
      RunSyncInv(c, s, front);
      ProgressStep(c, ActAll(c, s, front), actions[|actions| - 1]);
    }
  }

  ghost predicate PassedAt(c: Config, s: Sync, actions: seq<Action>, i: nat, height: nat) {
    && i < |actions|
    && var d, e := ActAll(c, s, actions[..i]).delivery, ActAll(c, s, actions[..i + 1]).delivery;
       && d.floor.height < height <= e.floor.height
       && (Advances(d, actions[i], e) || Jumps(d, actions[i], e))
  }

  lemma {:induction false} PassedInPrefix(c: Config, s: Sync, actions: seq<Action>, n: nat, i: nat, height: nat)
    requires n <= |actions| && PassedAt(c, s, actions[..n], i, height)
    ensures PassedAt(c, s, actions, i, height)
  {
    assert actions[..n][..i] == actions[..i] && actions[..n][..i + 1] == actions[..i + 1];
  }

  /** Every height the process moves past was acknowledged in turn, or passed over by a floor anchor. */
  lemma {:induction false} SkippedOnlyByAnchor(c: Config, s: Sync, actions: seq<Action>, height: nat) returns (i: nat)
    requires SyncInv(c, s)
    requires s.delivery.floor.height < height <= ActAll(c, s, actions).delivery.floor.height
    ensures PassedAt(c, s, actions, i, height)
    decreases |actions|
  {
    var n := |actions| - 1;
    var t := ActAll(c, s, actions[..n]);
    if height <= t.delivery.floor.height {
      i := SkippedOnlyByAnchor(c, s, actions[..n], height);
      PassedInPrefix(c, s, actions, n, i, height);
    } else {
      RunSyncInv(c, s, actions[..n]);
      ProgressStep(c, t, actions[n]);
      assert actions[..n + 1] == actions;
      i := n;
    }
  }

  /** Why the next block of the window is not dispatched. */
  predicate HeldBack(c: Config, a: Archive, reports: set<Digest>, d: Delivery, barrier: Option<nat>) {
    var h := d.floor.height + |d.inflight| + 1;
    || |d.inflight| == c.maxPendingAcks
    || (barrier.Some? && h >= barrier.value)
    || h !in a.blocks
    || a.blocks[h].Id() in reports
    || (IsLastOfEpoch(c.epochOf, h) && (h !in a.certs || a.certs[h].payload != a.blocks[h].Id()))
  }

  lemma {:induction false} DispatchStops(c: Config, s: Sync)
    requires SyncInv(c, s)
    ensures var barrier := Barrier(s.vault.gate);
            HeldBack(c, s.vault.archive, s.reports, DispatchBelow(c, s.vault.archive, s.reports, s.delivery, barrier),
                     barrier)
    decreases c.maxPendingAcks - |s.delivery.inflight|
  {
    var next := Dispatchable(c, s.vault.archive, s.reports, s.delivery, Barrier(s.vault.gate));
    if next.Some? {
      SendInv(c, s, next.value);
      DispatchStops(c, s.(delivery := Send(s.delivery, next.value)));
    } else {
      var d := s.delivery;
      assert NextHeight(d) == d.floor.height + |d.inflight| + 1;
    }
  }

  /**
   * Dispatch does not stop early: the window is full, or the next height is not durable, missing, unreported or
   * uncertified.
   */
  lemma {:induction false} DispatchIsMaximal(c: Config, s: Sync)
    requires SyncInv(c, s) && s.delivery.floor.anchor.None?
    ensures var t := TryDispatch(c, s);
            HeldBack(c, t.vault.archive, t.reports, t.delivery, Barrier(t.vault.gate))
  {
    DispatchStops(c, s);
  }

  // -------------------- Durability --------------------

  /**
   At every point of every run each block dispatched so far is durable together
   with the certificate sent along, and two dispatches of one height carry the same block.
   */
  lemma {:induction false} DispatchedIsDurable(c: Config, archive: Archive, recovery: nat, round: Round,
                                               actions: seq<Action>)
    requires Indexed(archive)
    ensures var s := ActAll(c, SyncBoot(archive, recovery, round), actions);
            && Within(s.vault.durable, s.vault.archive)
            && (forall i :: 0 <= i < |s.delivery.dispatched| ==>
                 Kept(c, recovery, s.vault.durable, s.delivery.dispatched[i]))
            && forall i, j :: 0 <= i < j < |s.delivery.dispatched|
                              && s.delivery.dispatched[i].block.height == s.delivery.dispatched[j].block.height ==>
                 s.delivery.dispatched[i].block == s.delivery.dispatched[j].block
  {
    BootSyncInv(c, archive, recovery, round);
    RunSyncInv(c, SyncBoot(archive, recovery, round), actions);
    var s := ActAll(c, SyncBoot(archive, recovery, round), actions);
    forall i, j | 0 <= i < j < |s.delivery.dispatched|
                  && s.delivery.dispatched[i].block.height == s.delivery.dispatched[j].block.height
      ensures s.delivery.dispatched[i].block == s.delivery.dispatched[j].block
    {
      assert Kept(c, recovery, s.vault.durable, s.delivery.dispatched[i]);
      assert Kept(c, recovery, s.vault.durable, s.delivery.dispatched[j]);
    }
  }

  // -------------------- Archive binding --------------------

  /** A height holding both a block and a certificate holds the block the certificate names. */
  ghost predicate Bound(a: Archive) {
    forall h :: h in a.blocks && h in a.certs ==> a.certs[h].payload == a.blocks[h].Id()
  }

  /** Neither archive alone holds something else at the height of the block. */
  predicate AnchorAgrees(a: Archive, b: Block) {
    && (b.height in a.blocks && b.height !in a.certs ==> a.blocks[b.height].Id() == b.Id())
    && (b.height in a.certs && b.height !in a.blocks ==> a.certs[b.height].payload == b.Id())
  }

  /**
   * The floor anchor bypasses the guards of an ordinary store: it keeps the binding exactly when the archives agree
   * with it.
   */
  lemma {:induction false} AnchorBinding(s: Sync, b: Block)
    requires Indexed(s.vault.archive) && Bound(s.vault.archive)
    ensures var t := ApplyAnchor(s, b);
            Bound(t.vault.archive) <==>
              (MatchesAnchor(s.delivery.floor, b) && b.height > s.delivery.floor.height ==>
                 AnchorAgrees(s.vault.archive, b))
  {
    if MatchesAnchor(s.delivery.floor, b) && b.height > s.delivery.floor.height {
      var a := PutBoth(s.vault.archive, b, s.delivery.floor.anchor);
      var t := ApplyAnchor(s, b);
      assert forall h :: h >= b.height && h in a.blocks ==>
          h in t.vault.archive.blocks && t.vault.archive.blocks[h] == a.blocks[h];
      assert forall h :: h >= b.height && h in a.certs ==>
          h in t.vault.archive.certs && t.vault.archive.certs[h] == a.certs[h];
      if AnchorAgrees(s.vault.archive, b) {
        assert Bound(a);
      } else {
        assert b.height in a.blocks && b.height in a.certs && a.certs[b.height].payload != a.blocks[b.height].Id();
      }
    }
  }

  /**
   * A block archived without certificate, and an anchor for another block of that height: the archives disagree
   * afterwards.
   */
  lemma {:induction false} AnchorCanMisbind() returns (s: Sync, b: Block)
    ensures Indexed(s.vault.archive) && Bound(s.vault.archive) && MatchesAnchor(s.delivery.floor, b)
    ensures !Bound(ApplyAnchor(s, b).vault.archive)
  {
    var stale := Block(Digest.Seed(0), 1, 0, 1, 1, 0);
    b := Block(Digest.Seed(0), 1, 0, 2, 2, 0);
    s := SyncBoot(Archive(map[1 := stale], map[]), 0, Round(0, 0));
    s := InstallFloor(s, Certificate(Round(0, 2), b.Id()), None);
    var t := ApplyAnchor(s, b);
    assert 1 in t.vault.archive.blocks && t.vault.archive.blocks[1] == stale;
    assert 1 in t.vault.archive.certs && t.vault.archive.certs[1].payload == b.Id();
  }

  /** The block with which this action applies a floor anchor, if it does. */
  function AnchorOf(a: Action): Option<Block> {
    if a.AnchorArrived? then Some(a.block)
    else if a.SetFloor? && a.found.Some? && a.found.value.Id() == a.certificate.payload then a.found
    else None
  }

  /** Every anchor applied in the run agrees with the archives at that moment. */
  ghost predicate AnchorsAgree(c: Config, s: Sync, actions: seq<Action>) {
    forall i :: 0 <= i < |actions| ==>
      var t := ActAll(c, s, actions[..i]);
      AnchorOf(actions[i]).Some? ==> AnchorAgrees(t.vault.archive, AnchorOf(actions[i]).value)
  }

  lemma {:induction false} StoreBinding(c: Config, floor: nat, a: Archive, b: Block, cert: Option<Certificate>)
    requires Bound(a) && Storable(c, floor, a, b, cert)
    ensures Bound(PutBoth(a, b, cert))
  {
  }

  lemma {:induction false} PinBinding(c: Config, s: Sync, height: nat, cert: Certificate, last: Option<Block>)
    requires Bound(s.vault.archive)
    ensures var r := PinCheckpoint(c, s, height, cert, last); r.Some? ==> Bound(r.value.vault.archive)
  {
    var r := PinCheckpoint(c, s, height, cert, last);
    var a := s.vault.archive;
    if r.Some? && r.value != s {
      var block := if last.Some? then last else if height in a.blocks then Some(a.blocks[height]) else None;
      if block.Some? {
        StoreBinding(c, s.delivery.floor.height, a, block.value, Some(cert));
      }
    }
  }

  lemma {:induction false} BindingStep(c: Config, s: Sync, a: Action)
    requires SyncInv(c, s) && Bound(s.vault.archive)
    requires AnchorOf(a).Some? ==> AnchorAgrees(s.vault.archive, AnchorOf(a).value)
    ensures Bound(Act(c, s, a).vault.archive)
  {
    match a
    case AnchorArrived(b) => AnchorBinding(s, b);
    case SetFloor(cert, found) =>
      if found.Some? {
        AnchorBinding(s.(delivery := s.delivery.(floor := s.delivery.floor.(anchor := Some(cert)), floored := true)),
                      found.value);
      }
    case StoreFinalized(b, cert) =>
      if Storable(c, s.delivery.floor.height, s.vault.archive, b, cert) {
        StoreBinding(c, s.delivery.floor.height, s.vault.archive, b, cert);
      }
    case CheckpointPinned(h, cert, last) => PinBinding(c, s, h, cert, last);
    case _ =>
  }

  /** Whatever the order of deliveries, repairs, checkpoints and agreeing anchors, the archives stay bound. */
  lemma {:induction false} ArchiveBinding(c: Config, s: Sync, actions: seq<Action>)
    requires SyncInv(c, s) && Bound(s.vault.archive) && AnchorsAgree(c, s, actions)
    ensures Bound(ActAll(c, s, actions).vault.archive)
    decreases |actions|
  {
    if actions == [] {
    } else {
      var n := |actions| - 1;
      var front := actions[..n];
      assert AnchorsAgree(c, s, front) by {
        forall i | 0 <= i < n
          ensures front[..i] == actions[..i] && front[i] == actions[i]
        {
        }
      }
      ArchiveBinding(c, s, front);
      RunSyncInv(c, s, front);
      BindingStep(c, ActAll(c, s, front), actions[n]);
    }
  }

  // -------------------- One finalized digest per height --------------------

  ghost predicate OnChain(final: nat -> Digest, a: Archive) {
    && (forall h :: h in a.blocks ==> a.blocks[h].Id() == final(h))
    && (forall h :: h in a.certs ==> a.certs[h].payload == final(h))
  }

  /** Every block and checkpoint of the action is the finalized one of its height. */
  ghost predicate Genuine(final: nat -> Digest, a: Action) {
    match a
    case StoreFinalized(b, _) => b.Id() == final(b.height)
    case AnchorArrived(b) => b.Id() == final(b.height)
    case SetFloor(_, found) => found.Some? ==> found.value.Id() == final(found.value.height)
    case CheckpointPinned(h, cert, last) =>
      cert.payload == final(h) && (last.Some? ==> last.value.Id() == final(last.value.height))
    case _ => true
  }

  lemma {:induction false} GenuineAnchor(final: nat -> Digest, s: Sync, b: Block)
    requires OnChain(final, s.vault.archive) && b.Id() == final(b.height)
    ensures OnChain(final, ApplyAnchor(s, b).vault.archive)
  {
    if MatchesAnchor(s.delivery.floor, b) {
      assert OnChain(final, PutBoth(s.vault.archive, b, s.delivery.floor.anchor));
    }
  }

  lemma {:induction false} GenuineStep(c: Config, final: nat -> Digest, s: Sync, a: Action)
    requires OnChain(final, s.vault.archive) && Genuine(final, a)
    ensures OnChain(final, Act(c, s, a).vault.archive)
  {
    match a
    case AnchorArrived(b) => GenuineAnchor(final, s, b);
    case SetFloor(cert, found) =>
      if found.Some? {
        GenuineAnchor(final,
                      s.(delivery := s.delivery.(floor := s.delivery.floor.(anchor := Some(cert)), floored := true)),
                      found.value);
      }
    case _ =>
  }

  /**
   * With one finalized digest per height, every entry of both archives names it, so the archives are bound after any
   * run.
   */
  lemma {:induction false} OneDigestPerHeight(c: Config, final: nat -> Digest, s: Sync, actions: seq<Action>)
    requires OnChain(final, s.vault.archive)
    requires forall i :: 0 <= i < |actions| ==> Genuine(final, actions[i])
    ensures OnChain(final, ActAll(c, s, actions).vault.archive) && Bound(ActAll(c, s, actions).vault.archive)
    decreases |actions|
  {
    if actions == [] {
    } else {
      OneDigestPerHeight(c, final, s, actions[..|actions| - 1]);
      GenuineStep(c, final, ActAll(c, s, actions[..|actions| - 1]), actions[|actions| - 1]);
    }
  }
}

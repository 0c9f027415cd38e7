/**
 The syncer's delivery state: the processed floor, the blocks in flight to the
 application, the dispatch gate and the two archives of finalized data.
 */
module SyncerModel {
  import opened Chain
  import opened DispatchGates

  datatype Config = Config(epochOf: nat -> nat, maxPendingAcks: nat, maxRepair: nat)

  /** The processed floor, and the certificate of a floor whose block has not arrived yet. */
  datatype Floor = Floor(height: nat, round: Round, anchor: Option<Certificate>)

  /** Finalized blocks and certificates by height. Archives never overwrite an entry. */
  datatype Archive = Archive(blocks: map<nat, Block>, certs: map<nat, Certificate>)

  /** A dispatched block; `certified` is the payload of the certificate sent along with it. */
  datatype Dispatch = Dispatch(id: nat, block: Block, certified: Option<Digest>)

  /**
   The archives, the gate in front of them and two pieces of history: the writes
   behind the gate and what completed syncs made durable.
   */
  datatype Vault = Vault(archive: Archive, gate: Gate, writes: Writes, durable: Archive)

  /**
   * Delivery progress; `dispatched` lists every dispatch of this process, `floored` tells whether a floor was
   * installed.
   */
  datatype Delivery = Delivery(floor: Floor, inflight: seq<Dispatch>, dispatched: seq<Dispatch>, floored: bool)

  /** `recovery` is the height of the finalizer state this process started from. */
  datatype Sync = Sync(vault: Vault, delivery: Delivery, reports: set<Digest>, recovery: nat)

  // -------------------- Archives --------------------

  /**
   The view in a header may differ from the view of its certificate only for a
   later re-proposal of the last block of an epoch.
   */
  predicate ViewBinds(epochOf: nat -> nat, height: nat, headerView: nat, certifiedView: nat) {
    headerView == certifiedView || (IsLastOfEpoch(epochOf, height) && headerView < certifiedView)
  }

  /** The certificate certifies this block, in a round its header allows. */
  predicate Binds(c: Config, b: Block, cert: Certificate) {
    && cert.payload == b.Id()
    && b.epoch == cert.round.epoch
    && ViewBinds(c.epochOf, b.height, b.view, cert.round.view)
  }

  function PutBlock(a: Archive, b: Block): Archive {
    if b.height in a.blocks then a else a.(blocks := a.blocks[b.height := b])
  }

  function PutCert(a: Archive, height: nat, cert: Certificate): Archive {
    if height in a.certs then a else a.(certs := a.certs[height := cert])
  }

  function PutBoth(a: Archive, b: Block, cert: Option<Certificate>): Archive {
    var withBlock := PutBlock(a, b);
    if cert.Some? then PutCert(withBlock, b.height, cert.value) else withBlock
  }

  /** The guards of `store_finalization`. */
  predicate Storable(c: Config, floor: nat, a: Archive, b: Block, cert: Option<Certificate>) {
    && b.height > floor
    && (cert.Some? ==> Binds(c, b, cert.value))
    && (b.height in a.blocks ==> a.blocks[b.height].Id() == b.Id())
    && (b.height in a.certs ==> a.certs[b.height].payload == b.Id())
  }

  function Write(v: Vault, b: Block, cert: Option<Certificate>): Vault {
    v.(archive := PutBoth(v.archive, b, cert), gate := Defer(v.gate, b.height), writes := Wrote(v.writes, b.height))
  }

  /** `store_finalization`; a refused store changes nothing. */
  function Store(c: Config, s: Sync, b: Block, cert: Option<Certificate>): Sync {
    if Storable(c, s.delivery.floor.height, s.vault.archive, b, cert) then
      s.(vault := Write(s.vault, b, cert))
    else s
  }

  function Retained(a: Archive, cutoff: nat): Archive {
    Archive(map h | h in a.blocks && h >= cutoff :: a.blocks[h], map h | h in a.certs && h >= cutoff :: a.certs[h])
  }

  /** Replay needs every successor of the state the process started from. */
  function PruneCutoff(requested: nat, recovery: nat): nat {
    if requested <= recovery + 1 then requested else recovery + 1
  }

  function Prune(v: Vault, requested: nat, recovery: nat): Vault {
    var cutoff := PruneCutoff(requested, recovery);
    v.(archive := Retained(v.archive, cutoff), durable := Retained(v.durable, cutoff))
  }

  function OnPrune(s: Sync, height: nat): Sync {
    if height > s.delivery.floor.height then s else s.(vault := Prune(s.vault, height, s.recovery))
  }

  // -------------------- Durability --------------------

  /** Entries whose writes are all covered are durable from now on. */
  function Harden(a: Archive, durable: Archive, uncovered: seq<nat>): Archive {
    Archive(map h | h in a.blocks && (h in durable.blocks || h !in uncovered) :: a.blocks[h],
            map h | h in a.certs && (h in durable.certs || h !in uncovered) :: a.certs[h])
  }

  function StartSync(v: Vault): Vault {
    if v.gate.unsynced.None? then v
    else v.(gate := Adopt(v.gate), writes := Started(v.writes, v.gate.nextId))
  }

  /** The sync with sequence number `id` completed. */
  function SyncDone(v: Vault, id: nat): Vault {
    if id !in v.writes.upTo then v
    else
      var writes := Completed(v.writes, id);
      v.(gate := Release(v.gate, id), writes := writes,
         durable := if writes.covered <= |writes.heights| then Harden(v.archive, v.durable, Uncovered(writes))
                    else v.durable)
  }

  /** Blocks until both archives are durable. */
  function SyncAll(v: Vault): Vault {
    v.(gate := Clear(v.gate), writes := SyncedAll(v.writes), durable := v.archive)
  }

  // -------------------- Dispatch --------------------

  function NextHeight(d: Delivery): nat {
    if d.inflight == [] then d.floor.height + 1 else d.inflight[|d.inflight| - 1].block.height + 1
  }

  /** The next block to hand to the application, if nothing holds it back. */
  function Dispatchable(c: Config, a: Archive, reports: set<Digest>, d: Delivery,
                        barrier: Option<nat>): Option<Dispatch> {
    var h := NextHeight(d);
    if |d.inflight| >= c.maxPendingAcks then None
    else if barrier.Some? && h >= barrier.value then None
    else if h !in a.blocks || a.blocks[h].height != h then None
    else
      var b := a.blocks[h];
      if b.Id() in reports then None
      else if !IsLastOfEpoch(c.epochOf, h) then Some(Dispatch(|d.dispatched|, b, None))
      else if h !in a.certs || a.certs[h].payload != b.Id() then None
      else Some(Dispatch(|d.dispatched|, b, Some(a.certs[h].payload)))
  }

  function Send(d: Delivery, sent: Dispatch): Delivery {
    d.(inflight := d.inflight + [sent], dispatched := d.dispatched + [sent])
  }

  function DispatchBelow(c: Config, a: Archive, reports: set<Digest>, d: Delivery, barrier: Option<nat>): Delivery
    decreases c.maxPendingAcks - |d.inflight|
  {
    var next := Dispatchable(c, a, reports, d, barrier);
    if next.None? then d else DispatchBelow(c, a, reports, Send(d, next.value), barrier)
  }

  /** `try_dispatch_blocks`. */
  function TryDispatch(c: Config, s: Sync): Sync {
    if s.delivery.floor.anchor.Some? then s
    else s.(delivery := DispatchBelow(c, s.vault.archive, s.reports, s.delivery, Barrier(s.vault.gate)))
  }

  // -------------------- Floor --------------------

  function RaiseRound(f: Floor, height: nat, round: Round): Floor {
    if height > f.height || round.AtMost(f.round) then f else f.(round := round)
  }

  /** One acknowledgement, for the oldest block in flight. */
  function OnAck(a: Archive, d: Delivery): Delivery
    requires d.inflight != []
  {
    var h := d.inflight[0].block.height;
    var f := d.floor.(height := h);
    d.(inflight := d.inflight[1..], floor := if h in a.certs then RaiseRound(f, h, a.certs[h].round) else f)
  }

  function AckMany(s: Sync, count: nat): Sync
    requires count <= |s.delivery.inflight|
    decreases count
  {
    if count == 0 then s else AckMany(s.(delivery := OnAck(s.vault.archive, s.delivery)), count - 1)
  }

  predicate MatchesAnchor(f: Floor, b: Block) {
    f.anchor.Some? && f.anchor.value.payload == b.Id()
  }

  /** Delivery resumes at the anchor itself: everything below it counts as processed. */
  function JumpTo(d: Delivery, height: nat, round: Round): Delivery
    requires height > 0
  {
    d.(floor := RaiseRound(Floor(height - 1, d.floor.round, None), height - 1, round), inflight := [])
  }

  /** `apply_floor_anchor` up to its follow-up repair and dispatch. */
  function ApplyAnchor(s: Sync, b: Block): Sync {
    var d := s.delivery;
    if !MatchesAnchor(d.floor, b) then s
    else
      var cert := d.floor.anchor.value;
      if b.height <= d.floor.height then
        s.(delivery := d.(floor := RaiseRound(d.floor.(anchor := None), b.height, cert.round)))
      else
        s.(vault := Prune(SyncAll(s.vault.(archive := PutBoth(s.vault.archive, b, Some(cert)))), b.height, s.recovery),
           delivery := JumpTo(d, b.height, cert.round))
  }

  /** `install_floor` for a verified certificate; `found` is the anchor block if it is known locally. */
  function InstallFloor(s: Sync, cert: Certificate, found: Option<Block>): Sync {
    var d := s.delivery;
    if cert.round.AtMost(d.floor.round) then s
    else if d.floor.anchor.Some? && cert.round.AtMost(d.floor.anchor.value.round) then s
    else
      var waiting := d.(floor := d.floor.(anchor := Some(cert)), floored := true);
      if found.Some? && found.value.Id() == cert.payload then ApplyAnchor(s.(delivery := waiting), found.value)
      else s.(delivery := waiting.(inflight := []))
  }

  /** Releases an anchor whose round has been processed in the meantime. */
  function TakeSuperseded(f: Floor): Floor {
    if f.anchor.Some? && f.anchor.value.round.AtMost(f.round) then f.(anchor := None) else f
  }

  /**
   Pins the terminal block of an imported checkpoint in the archives. It follows
   the imported state, which the selected state backs. `None` is a failed assertion.
   */
  function PinCheckpoint(c: Config, s: Sync, height: nat, cert: Certificate, last: Option<Block>): Option<Sync> {
    var a := s.vault.archive;
    if height == 0 || height > s.recovery + 1 then None
    else if last.Some? && last.value.Id() != cert.payload then None
    else if height in a.blocks && a.blocks[height].Id() != cert.payload then None
    else if height in a.certs && a.certs[height].payload != cert.payload then None
    else if height <= s.delivery.floor.height then Some(s)
    else if !IsLastOfEpoch(c.epochOf, height) then None
    else
      var block := if last.Some? then last else if height in a.blocks then Some(a.blocks[height]) else None;
      if block.None? then Some(s.(vault := SyncAll(s.vault.(archive := PutCert(a, height, cert)))))
      else if block.value.height != height || !Storable(c, s.delivery.floor.height, a, block.value, Some(cert)) then
        None
      else
        var stored := Store(c, s, block.value, Some(cert));
        Some(stored.(vault := SyncAll(stored.vault)))
  }

  /** The highest height at or below `h` with a certificate. */
  function LatestCert(certs: map<nat, Certificate>, h: nat): (latest: Option<nat>)
    ensures latest.None? ==> forall k: nat :: k <= h ==> k !in certs
    ensures latest.Some? ==> latest.value in certs && latest.value <= h
    ensures latest.Some? ==> forall k: nat :: latest.value < k <= h ==> k !in certs
  {
    if h in certs then Some(h) else if h == 0 then None else LatestCert(certs, h - 1)
  }

  function Later(a: Round, b: Round): Round {
    if b.AtMost(a) then a else b
  }

  /**
   The round to resume from: that of the latest certificate at or below the height
   and, where block and certificate of the successor are both there, at least the
   successor's. `None` is the failed assertion that those two belong together.
   */
  function RecoveredRound(a: Archive, height: nat): Option<Round> {
    var latest := LatestCert(a.certs, height);
    var round := if latest.Some? then a.certs[latest.value].round else Round(0, 0);
    var next := height + 1;
    if next !in a.blocks || next !in a.certs then Some(round)
    else if a.certs[next].payload != a.blocks[next].Id() then None
    else Some(Later(round, a.certs[next].round))
  }

  /** A fresh process over `archive`, resuming after the state the finalizer selected. */
  function SyncBoot(archive: Archive, recovery: nat, round: Round): Sync {
    Sync(Vault(archive, Gate(None, [], 0), Writes([], 0, map[]), archive),
         Delivery(Floor(recovery, round, None), [], [], false), {}, recovery)
  }

  // -------------------- Steps --------------------

  datatype Action =
    | StoreFinalized(block: Block, cert: Option<Certificate>)
    | BeginSync
    | EndSync(id: nat)
    | FullSync
    | DispatchReady
    | Acknowledged
    | SetFloor(certificate: Certificate, found: Option<Block>)
    | AnchorArrived(block: Block)
    | ReleaseSuperseded
    | RoundSeen(height: nat, round: Round)
    | PruneBelow(height: nat)
    | ReportStarted(digest: Digest)
    | ReportDone(digest: Digest)
    | CheckpointPinned(height: nat, certificate: Certificate, last: Option<Block>)

  /** The event loop performs these actions in some order, each within one turn. */
  function Act(c: Config, s: Sync, a: Action): Sync {
    match a
    case StoreFinalized(b, cert) => Store(c, s, b, cert)
    case BeginSync => s.(vault := StartSync(s.vault))
    case EndSync(id) => s.(vault := SyncDone(s.vault, id))
    case FullSync => s.(vault := SyncAll(s.vault))
    case DispatchReady => TryDispatch(c, s)
    case Acknowledged =>
      if s.delivery.inflight == [] then s else s.(delivery := OnAck(s.vault.archive, s.delivery))
    case SetFloor(cert, found) => InstallFloor(s, cert, found)
    case AnchorArrived(b) => ApplyAnchor(s, b)
    case ReleaseSuperseded => s.(delivery := s.delivery.(floor := TakeSuperseded(s.delivery.floor)))
    case RoundSeen(h, r) => s.(delivery := s.delivery.(floor := RaiseRound(s.delivery.floor, h, r)))
    case PruneBelow(h) => OnPrune(s, h)
    case ReportStarted(d) => s.(reports := s.reports + {d})
    case ReportDone(d) => s.(reports := s.reports - {d})
    case CheckpointPinned(h, cert, last) => var r := PinCheckpoint(c, s, h, cert, last); if r.Some? then r.value else s
  }
}

/**
 The syncer and the finalizer together, with crashes. A crash loses every
 buffered write and all memory; a restart resumes from the finalizer's last
 committed state and replays the archive. The canonical state is still the fold
 of one chain, each block of it applied exactly once.
 */
module Replay {
  import opened Chain
  import F = FinalizerModel
  import opened FinalizerRuns
  import opened FinalizerCommits
  import opened SyncerModel
  import opened SyncerRuns
  import opened SyncerTheorems
  import opened Traces

  /** `ledger` is history: every block ever dispatched, over all processes, by height. */
  datatype System = System(sync: Sync, machine: F.Machine, ledger: map<nat, Block>)

  function EntryOf(d: Dispatch): F.Entry {
    F.Entry(d.block, d.certified, d.id)
  }

  function Record(ledger: map<nat, Block>, sent: seq<Dispatch>): map<nat, Block> {
    if sent == [] then ledger
    else
      var last := sent[|sent| - 1].block;
      Record(ledger, sent[..|sent| - 1])[last.height := last]
  }

  datatype Move =
    | SyncerMoves(action: Action)
    | AckArrives
    | BlockArrives
    | FinalizerMoves(event: F.Event)
    | Crash(survivors: Archive, round: Round)

  /** What a crash may leave on disk: everything durable, and any part of the rest. */
  ghost predicate Survives(s: Sync, survivors: Archive) {
    Within(s.vault.durable, survivors) && Within(survivors, s.vault.archive)
  }

  ghost predicate Possible(p: F.Params, s: System, v: Move) {
    match v
    case SyncerMoves(a) => !a.Acknowledged?
    case AckArrives => s.sync.delivery.inflight != [] && s.sync.delivery.inflight[0].id in s.machine.past.acked
    case BlockArrives => !s.machine.halted && |s.machine.past.arrived| < |s.sync.delivery.dispatched|
    case FinalizerMoves(e) => !s.machine.halted && !e.DeliverFinalized? && !e.Restart? && Admissible(p, s.machine, e)
    case Crash(survivors, _) => Survives(s.sync, survivors)
  }

  function SyncerStep(c: Config, s: System, a: Action): System {
    var sync := Act(c, s.sync, a);
    s.(sync := sync, ledger := Record(s.ledger, sync.delivery.dispatched))
  }

  ghost function Next(c: Config, p: F.Params, s: System, v: Move): System
    requires Possible(p, s, v)
  {
    match v
    case SyncerMoves(a) => SyncerStep(c, s, a)
    case AckArrives => SyncerStep(c, s, Acknowledged)
    case BlockArrives =>
      var d := s.sync.delivery.dispatched[|s.machine.past.arrived|];
      s.(machine := F.Step(p, s.machine, F.DeliverFinalized(EntryOf(d))))
    case FinalizerMoves(e) => s.(machine := F.Step(p, s.machine, e))
    case Crash(survivors, round) =>
      var machine := F.Step(p, s.machine, F.Restart);
      s.(sync := SyncBoot(survivors, machine.canon.height, round), machine := machine)
  }

  // -------------------- What the ledger explains --------------------

  ghost function Slice(ledger: map<nat, Block>, from: nat, upTo: nat): seq<Block>
    requires forall h :: from < h <= upTo ==> h in ledger
    decreases upTo
  {
    if upTo <= from then [] else Slice(ledger, from, upTo - 1) + [ledger[upTo]]
  }

  /** The state is the fold of the dispatched blocks, one per height, from the configured state on. */
  ghost predicate Explained(p: F.Params, ledger: map<nat, Block>, s: F.State) {
    && p.initial.height <= s.height
    && (forall h :: p.initial.height < h <= s.height ==> h in ledger)
    && s == F.Fold(p, p.initial, Slice(ledger, p.initial.height, s.height))
  }

  ghost predicate Extended(small: map<nat, Block>, large: map<nat, Block>) {
    forall h :: h in small ==> h in large && large[h] == small[h]
  }

  lemma {:induction false} SliceStable(small: map<nat, Block>, large: map<nat, Block>, from: nat, upTo: nat)
    requires Extended(small, large) && forall h :: from < h <= upTo ==> h in small
    ensures Slice(small, from, upTo) == Slice(large, from, upTo)
    decreases upTo
  {
    if upTo <= from {
    } else {
      SliceStable(small, large, from, upTo - 1);
    }
  }

  lemma {:induction false} ExplainedStable(p: F.Params, small: map<nat, Block>, large: map<nat, Block>, s: F.State)
    requires Explained(p, small, s) && Extended(small, large)
    ensures Explained(p, large, s)
  {
    SliceStable(small, large, p.initial.height, s.height);
  }

  ghost predicate InLedger(ledger: map<nat, Block>, b: Block) {
    b.height in ledger && ledger[b.height] == b
  }

  lemma {:induction false} ExplainedStep(p: F.Params, ledger: map<nat, Block>, s: F.State, b: Block)
    requires Explained(p, ledger, s) && InLedger(ledger, b) && b.height == s.height + 1
    ensures Explained(p, ledger, F.Finalize(p, s, b))
  {
    var chain := Slice(ledger, p.initial.height, b.height);
    assert chain[..|chain| - 1] == Slice(ledger, p.initial.height, s.height);
  }

  /** Finalizing ledger blocks of consecutive heights leaves a state the ledger explains. */
  lemma {:induction false} ExplainedFold(p: F.Params, ledger: map<nat, Block>, start: F.State, applied: seq<Block>)
    requires Explained(p, ledger, start) && Consecutive(start, applied)
    requires forall b {:trigger InLedger(ledger, b)} :: b in applied ==> InLedger(ledger, b)
    ensures Explained(p, ledger, F.Fold(p, start, applied))
            && F.Fold(p, start, applied).height == start.height + |applied|
    decreases |applied|
  {
    if applied == [] {
    } else {
      var n := |applied| - 1;
      ExplainedFold(p, ledger, start, applied[..n]);
      assert InLedger(ledger, applied[n]);
      ExplainedStep(p, ledger, F.Fold(p, start, applied[..n]), applied[n]);
    }
  }

  // -------------------- Invariant --------------------

  /** The block is durable and, where it ends an epoch, so is a certificate for it. */
  ghost predicate Replayable(c: Config, durable: Archive, h: nat, b: Block) {
    && h in durable.blocks && durable.blocks[h] == b
    && (IsLastOfEpoch(c.epochOf, h) ==> h in durable.certs && durable.certs[h].payload == b.Id())
  }

  /** Whatever was dispatched above the recovery height can be dispatched again. */
  ghost predicate LedgerDurable(c: Config, recovery: nat, durable: Archive, ledger: map<nat, Block>) {
    forall h {:trigger Replayable(c, durable, h, ledger[h])} :: h in ledger && h > recovery ==>
      Replayable(c, durable, h, ledger[h])
  }

  ghost predicate Ledgered(s: System) {
    forall i :: 0 <= i < |s.sync.delivery.dispatched| ==> InLedger(s.ledger, s.sync.delivery.dispatched[i].block)
  }

  /** The finalizer has received a prefix of what this process dispatched. */
  ghost predicate Mailed(s: System) {
    MailedOf(s.machine.past.arrived, s.sync.delivery.dispatched)
  }

  ghost predicate MailedOf(arrived: seq<F.Entry>, dispatched: seq<Dispatch>) {
    && |arrived| <= |dispatched|
    && forall i :: 0 <= i < |arrived| ==> arrived[i] == EntryOf(dispatched[i])
  }

  ghost predicate SystemInv(c: Config, p: F.Params, s: System) {
    && SyncInv(c, s.sync)
    && Inv(p, s.machine) && Committed(p, s.machine)
    && s.sync.recovery == s.machine.past.start.height
    && LedgerDurable(c, s.sync.recovery, s.sync.vault.durable, s.ledger) && Ledgered(s) && Mailed(s)
    && Explained(p, s.ledger, s.machine.past.start)
  }

  /** Everything applied since the start is in the ledger. */
  lemma {:induction false} AppliedInLedger(s: System)
    requires Ledgered(s) && Mailed(s) && AllDelivered(s.machine.past.arrived, s.machine.past.applied)
    ensures forall b {:trigger InLedger(s.ledger, b)} :: b in s.machine.past.applied ==> InLedger(s.ledger, b)
  {
    forall b | b in s.machine.past.applied
      ensures InLedger(s.ledger, b)
    {
      assert Delivered(s.machine.past.arrived, b);
      var j :| 0 <= j < |s.machine.past.arrived| && s.machine.past.arrived[j].block == b;
      assert InLedger(s.ledger, s.sync.delivery.dispatched[j].block);
    }
  }

  lemma {:induction false} RecoveredExplained(c: Config, p: F.Params, s: System)
    requires SystemInv(c, p, s)
    ensures Explained(p, s.ledger, F.Recovered(p, s.machine.disk.db))
    ensures F.Recovered(p, s.machine.disk.db).height >= s.sync.recovery
  {
    AppliedInLedger(s);
    var n := F.Recovered(p, s.machine.disk.db).height - s.machine.past.start.height;
    ExplainedFold(p, s.ledger, s.machine.past.start, s.machine.past.applied[..n]);
  }

  // -------------------- Steps --------------------

  /** Recording what is durable anyway changes nothing recorded before. */
  lemma {:induction false} RecordAgrees(c: Config, ledger: map<nat, Block>, sent: seq<Dispatch>, recovery: nat,
                                        durable: Archive)
    requires LedgerDurable(c, recovery, durable, ledger)
    requires DeliveredOk(c, recovery, durable, sent)
    ensures var after := Record(ledger, sent);
            && Extended(ledger, after)
            && LedgerDurable(c, recovery, durable, after)
            && (forall i :: 0 <= i < |sent| ==> InLedger(after, sent[i].block))
    decreases |sent|
  {
    if sent == [] {
    } else {
      var n := |sent| - 1;
      RecordAgrees(c, ledger, sent[..n], recovery, durable);
      RecordOne(c, Record(ledger, sent[..n]), sent[n], recovery, durable);
    }
  }

  lemma {:induction false} RecordOne(c: Config, ledger: map<nat, Block>, d: Dispatch, recovery: nat, durable: Archive)
    requires LedgerDurable(c, recovery, durable, ledger) && Kept(c, recovery, durable, d)
    ensures var after := ledger[d.block.height := d.block];
            Extended(ledger, after) && LedgerDurable(c, recovery, durable, after) && InLedger(after, d.block)
  {
    var after := ledger[d.block.height := d.block];
    assert d.block.height in ledger ==> Replayable(c, durable, d.block.height, ledger[d.block.height]);
    forall h | h in after && h > recovery
      ensures Replayable(c, durable, h, after[h])
    {
      assert h != d.block.height ==> Replayable(c, durable, h, ledger[h]);
    }
  }

  lemma {:induction false} RetainsLedger(c: Config, recovery: nat, v: Vault, w: Vault, ledger: map<nat, Block>)
    requires LedgerDurable(c, recovery, v.durable, ledger) && Retains(recovery, v, w)
    ensures LedgerDurable(c, recovery, w.durable, ledger)
  {
    forall h | h in ledger && h > recovery
      ensures Replayable(c, w.durable, h, ledger[h])
    {
      assert Replayable(c, v.durable, h, ledger[h]);
    }
  }

  lemma {:induction false} SurvivorsKeepLedger(c: Config, recovery: nat, later: nat, durable: Archive,
                                               survivors: Archive, ledger: map<nat, Block>)
    requires LedgerDurable(c, recovery, durable, ledger) && recovery <= later && Within(durable, survivors)
    ensures LedgerDurable(c, later, survivors, ledger)
  {
    forall h | h in ledger && h > later
      ensures Replayable(c, survivors, h, ledger[h])
    {
      assert Replayable(c, durable, h, ledger[h]);
    }
  }

  lemma {:induction false} SyncerMovesInv(c: Config, p: F.Params, s: System, a: Action)
    requires SystemInv(c, p, s)
    ensures SystemInv(c, p, SyncerStep(c, s, a)) && Extended(s.ledger, SyncerStep(c, s, a).ledger)
  {
    var sync := Act(c, s.sync, a);
    ActInv(c, s.sync, a);
    ActAppends(c, s.sync, a);
    RetainsLedger(c, s.sync.recovery, s.sync.vault, sync.vault, s.ledger);
    RecordAgrees(c, s.ledger, sync.delivery.dispatched, s.sync.recovery, sync.vault.durable);
    SyncMoved(c, p, s, SyncerStep(c, s, a));
  }

  lemma {:induction false} SyncMoved(c: Config, p: F.Params, s: System, t: System)
    requires SystemInv(c, p, s) && t.machine == s.machine
    requires SyncInv(c, t.sync) && t.sync.recovery == s.sync.recovery
             && s.sync.delivery.dispatched <= t.sync.delivery.dispatched
    requires Extended(s.ledger, t.ledger) && LedgerDurable(c, t.sync.recovery, t.sync.vault.durable, t.ledger)
             && Ledgered(t)
    ensures SystemInv(c, p, t)
  {
    ExplainedStable(p, s.ledger, t.ledger, s.machine.past.start);
  }

  lemma {:induction false} FloorKeepsDispatches(s: Sync, cert: Certificate, found: Option<Block>, b: Block)
    ensures ApplyAnchor(s, b).delivery.dispatched == s.delivery.dispatched
    ensures InstallFloor(s, cert, found).delivery.dispatched == s.delivery.dispatched
  {
  }

  /** Actions only add to the dispatches. */
  lemma {:induction false} ActAppends(c: Config, s: Sync, a: Action)
    requires SyncInv(c, s)
    ensures s.delivery.dispatched <= Act(c, s, a).delivery.dispatched
  {
    if Quiet(a) {
      QuietStep(c, s, a);
    } else {
      match a
      case DispatchReady => DispatchInv(c, s);
      case SetFloor(cert, found) => if found.Some? { FloorKeepsDispatches(s, cert, found, found.value); }
      case AnchorArrived(b) => FloorKeepsDispatches(s, Certificate(Round(0, 0), b.Id()), None, b);
      case _ =>
    }
  }

  lemma {:induction false} MailGrows(arrived: seq<F.Entry>, dispatched: seq<Dispatch>, e: F.Event)
    requires MailedOf(arrived, dispatched) && NextMail(arrived, dispatched, e)
    ensures MailedOf(arrived + (if e.DeliverFinalized? then [e.entry] else []), dispatched)
  {
  }

  /** A delivery hands over the next block in line. */
  ghost predicate NextMail(arrived: seq<F.Entry>, dispatched: seq<Dispatch>, e: F.Event) {
    e.DeliverFinalized? ==> |arrived| < |dispatched| && e.entry == EntryOf(dispatched[|arrived|])
  }

  lemma {:induction false} FinalizerMovesInv(c: Config, p: F.Params, s: System, e: F.Event)
    requires Contiguous(p.epochOf)
    requires SystemInv(c, p, s) && !s.machine.halted && !e.Restart? && Admissible(p, s.machine, e)
    requires NextMail(s.machine.past.arrived, s.sync.delivery.dispatched, e)
    ensures SystemInv(c, p, s.(machine := F.Step(p, s.machine, e)))
  {
    StepInv(p, s.machine, e);
    StepCommits(p, s.machine, e);
    MailGrows(s.machine.past.arrived, s.sync.delivery.dispatched, e);
    MachineMoved(c, p, s, F.Step(p, s.machine, e));
  }

  lemma {:induction false} MachineMoved(c: Config, p: F.Params, s: System, m: F.Machine)
    requires SystemInv(c, p, s) && Inv(p, m) && Committed(p, m)
    requires m.past.start == s.machine.past.start && MailedOf(m.past.arrived, s.sync.delivery.dispatched)
    ensures SystemInv(c, p, s.(machine := m))
  {
  }

  lemma {:induction false} CrashInv(c: Config, p: F.Params, s: System, survivors: Archive, round: Round)
    requires Contiguous(p.epochOf)
    requires SystemInv(c, p, s) && Survives(s.sync, survivors)
    ensures var machine := F.Step(p, s.machine, F.Restart);
            SystemInv(c, p, s.(sync := SyncBoot(survivors, machine.canon.height, round), machine := machine))
  {
    StepInv(p, s.machine, F.Restart);
    BootCommitted(p, s.machine.disk.db, s.machine.disk.boots + 1, s.machine.served);
    RecoveredExplained(c, p, s);
    SurvivorsKeepLedger(c, s.sync.recovery, F.Recovered(p, s.machine.disk.db).height, s.sync.vault.durable, survivors,
                        s.ledger);
    BootSyncInv(c, survivors, F.Recovered(p, s.machine.disk.db).height, round);
  }

  /** Every move keeps the invariant, and no recorded block is ever replaced. */
  lemma {:induction false} NextInv(c: Config, p: F.Params, s: System, v: Move)
    requires Contiguous(p.epochOf)
    requires SystemInv(c, p, s) && Possible(p, s, v)
    ensures SystemInv(c, p, Next(c, p, s, v)) && Extended(s.ledger, Next(c, p, s, v).ledger)
  {
    match v
    case SyncerMoves(a) => SyncerMovesInv(c, p, s, a);
    case AckArrives => SyncerMovesInv(c, p, s, Acknowledged);
    case BlockArrives =>
      FinalizerMovesInv(c, p, s, F.DeliverFinalized(EntryOf(s.sync.delivery.dispatched[|s.machine.past.arrived|])));
    case FinalizerMoves(e) => FinalizerMovesInv(c, p, s, e);
    case Crash(survivors, round) => CrashInv(c, p, s, survivors, round);
  }

  lemma {:induction false} LeadsInv(c: Config, p: F.Params, s: System, v: Move, t: System)
    requires Contiguous(p.epochOf)
    requires SystemInv(c, p, s) && Leads(c, p, s, v, t)
    ensures SystemInv(c, p, t) && Extended(s.ledger, t.ledger)
  {
    NextInv(c, p, s, v);
  }

  // -------------------- Runs --------------------

  /** The first process, over an empty database. */
  ghost predicate Fresh(p: F.Params, s: System) {
    exists db: F.Db, archive: Archive, round: Round ::
      && db.latest.None? && DiskOk(p, db, {}) && Indexed(archive)
      && s == System(SyncBoot(archive, p.initial.height, round), F.Boot(p, db, 0, {}), map[])
  }

  ghost predicate Leads(c: Config, p: F.Params, s: System, v: Move, t: System) {
    Possible(p, s, v) && t == Next(c, p, s, v)
  }

  ghost function Leader(c: Config, p: F.Params): (System, Move, System) -> bool {
    (s: System, v: Move, t: System) => Leads(c, p, s, v, t)
  }

  ghost predicate Trace(c: Config, p: F.Params, states: seq<System>, moves: seq<Move>) {
    Chained(Leader(c, p), states, moves) && Fresh(p, states[0])
  }

  /** Such a start exists whenever the configured state belongs to the epoch of its next block. */
  lemma {:induction false} FreshStart(c: Config, p: F.Params, archive: Archive, round: Round)
    requires p.initial.epoch == p.epochOf(p.initial.height + 1) && Indexed(archive)
    ensures var s := System(SyncBoot(archive, p.initial.height, round), F.Boot(p, F.Db(map[], None), 0, {}), map[]);
            Trace(c, p, [s], [])
  {
    assert DiskOk(p, F.Db(map[], None), {});
  }

  lemma {:induction false} FreshInv(c: Config, p: F.Params, s: System)
    requires Contiguous(p.epochOf) && Fresh(p, s)
    ensures SystemInv(c, p, s)
  {
    var db: F.Db, archive: Archive, round: Round :|
      && db.latest.None? && DiskOk(p, db, {}) && Indexed(archive)
      && s == System(SyncBoot(archive, p.initial.height, round), F.Boot(p, db, 0, {}), map[]);
    BootInv(p, db, 0, {});
    BootCommitted(p, db, 0, {});
    BootSyncInv(c, archive, p.initial.height, round);
  }

  lemma {:induction false} StepHolds(c: Config, p: F.Params, states: seq<System>, moves: seq<Move>, k: nat)
    requires Contiguous(p.epochOf) && Chained(Leader(c, p), states, moves) && k < |moves| && SystemInv(c, p, states[k])
    ensures SystemInv(c, p, states[k + 1]) && Extended(states[k].ledger, states[k + 1].ledger)
  {
    assert Leader(c, p)(states[k], moves[k], states[k + 1]);
    LeadsInv(c, p, states[k], moves[k], states[k + 1]);
  }

  lemma {:induction false} TraceHolds(c: Config, p: F.Params, states: seq<System>, moves: seq<Move>, j: nat)
    requires Contiguous(p.epochOf) && Trace(c, p, states, moves) && j < |states|
    ensures SystemInv(c, p, states[j])
  {
    var inv := (k: nat, s: System) => SystemInv(c, p, s);
    FreshInv(c, p, states[0]);
    forall k | 0 <= k < |moves| && inv(k, states[k])
      ensures inv(k + 1, states[k + 1])
    {
      StepHolds(c, p, states, moves, k);
    }
    Keeps(Leader(c, p), inv, states, moves, 0, j);
  }

  lemma {:induction false} LedgerGrows(c: Config, p: F.Params, states: seq<System>, moves: seq<Move>, i: nat, j: nat)
    requires Contiguous(p.epochOf) && Trace(c, p, states, moves) && i <= j < |states|
    ensures Extended(states[i].ledger, states[j].ledger)
  {
    var inv := (k: nat, s: System) => Extended(states[i].ledger, s.ledger);
    forall k | i <= k < |moves| && inv(k, states[k])
      ensures inv(k + 1, states[k + 1])
    {
      TraceHolds(c, p, states, moves, k);
      StepHolds(c, p, states, moves, k);
    }
    Keeps(Leader(c, p), inv, states, moves, i, j);
  }

  lemma {:induction false} TraceInv(c: Config, p: F.Params, states: seq<System>, moves: seq<Move>, i: nat, j: nat)
    requires Contiguous(p.epochOf) && Trace(c, p, states, moves) && i <= j < |states|
    ensures SystemInv(c, p, states[j]) && Extended(states[i].ledger, states[j].ledger)
  {
    TraceHolds(c, p, states, moves, j);
    LedgerGrows(c, p, states, moves, i, j);
  }

  /**
   At every moment of every run with crashes anywhere: each block ever dispatched
   above the finalizer's durable height is in the durable archive, with a durable
   certificate for it where it ends an epoch; unless a floor
   is installed, a process dispatches the recorded blocks one by one from the
   height after the state it loaded; and the canonical state is the fold of the
   recorded blocks, each applied exactly once.
   */
  lemma {:induction false} CrashReplay(c: Config, p: F.Params, states: seq<System>, moves: seq<Move>, i: nat)
    requires Contiguous(p.epochOf) && Trace(c, p, states, moves) && i < |states|
    ensures var s := states[i];
            && LedgerDurable(c, F.Recovered(p, s.machine.disk.db).height, s.sync.vault.durable, s.ledger)
            && s.sync.recovery == s.machine.past.start.height
            && (!s.sync.delivery.floored ==> forall k :: 0 <= k < |s.sync.delivery.dispatched| ==>
                  var b := s.sync.delivery.dispatched[k].block;
                  b.height == s.sync.recovery + 1 + k && InLedger(s.ledger, b))
            && (!s.machine.halted ==> Explained(p, s.ledger, s.machine.canon))
  {
    TraceInv(c, p, states, moves, i, i);
    RecoveredExplained(c, p, states[i]);
    var s := states[i];
    SurvivorsKeepLedger(c, s.sync.recovery, F.Recovered(p, s.machine.disk.db).height, s.sync.vault.durable,
                        s.sync.vault.durable, s.ledger);
    if !states[i].machine.halted {
      CanonExplained(c, p, states[i]);
    }
  }

  lemma {:induction false} CanonExplained(c: Config, p: F.Params, s: System)
    requires SystemInv(c, p, s) && !s.machine.halted
    ensures Explained(p, s.ledger, s.machine.canon)
  {
    AppliedInLedger(s);
    ExplainedFold(p, s.ledger, s.machine.past.start, s.machine.past.applied);
  }

  /** Whenever the node is back at a height, after any number of crashes, it holds the state it held there before. */
  lemma {:induction false} ReplayReachesSameState(c: Config, p: F.Params, states: seq<System>, moves: seq<Move>, i: nat,
                                                  j: nat)
    requires Contiguous(p.epochOf) && Trace(c, p, states, moves) && i <= j < |states|
    requires !states[i].machine.halted && !states[j].machine.halted
    requires states[i].machine.canon.height == states[j].machine.canon.height
    ensures states[i].machine.canon == states[j].machine.canon
  {
    TraceInv(c, p, states, moves, i, i);
    TraceInv(c, p, states, moves, i, j);
    CanonExplained(c, p, states[i]);
    CanonExplained(c, p, states[j]);
    ExplainedStable(p, states[i].ledger, states[j].ledger, states[i].machine.canon);
  }
}

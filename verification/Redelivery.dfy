/**
 A crashed node gets back: after a restart the recorded blocks are dispatched,
 applied and acknowledged again, and the canonical state held before the crash
 is reached.
 */
module Redelivery {
  import opened Chain
  import F = FinalizerModel
  import opened ForkTree
  import opened FinalizerRuns
  import opened FinalizerCommits
  import opened FinalizerHistory
  import opened FinalizerProgress
  import opened DispatchGates
  import opened SyncerModel
  import opened SyncerRuns
  import opened Replay
  import opened Traces

  // -------------------- The record over runs --------------------

  lemma {:induction false} NextRecorded(c: Config, p: F.Params, s: System, v: Move, t: System)
    requires Contiguous(p.epochOf)
    requires SystemInv(c, p, s) && Leads(c, p, s, v, t) && Recorded(p, p.initial.epoch, s.machine)
    ensures Recorded(p, p.initial.epoch, t.machine)
  {
    match v
    case SyncerMoves(a) =>
    case AckArrives =>
    case BlockArrives =>
      StepRecorded(p, p.initial.epoch, s.machine,
                   F.DeliverFinalized(EntryOf(s.sync.delivery.dispatched[|s.machine.past.arrived|])));
    case FinalizerMoves(e) => StepRecorded(p, p.initial.epoch, s.machine, e);
    case Crash(_, _) => StepRecorded(p, p.initial.epoch, s.machine, F.Restart);
  }

  lemma {:induction false} FreshRecorded(p: F.Params, s: System)
    requires Fresh(p, s)
    ensures Recorded(p, p.initial.epoch, s.machine)
  {
    var db: F.Db, archive: Archive, round: Round :|
      && db.latest.None? && DiskOk(p, db, {}) && Indexed(archive)
      && s == System(SyncBoot(archive, p.initial.height, round), F.Boot(p, db, 0, {}), map[]);
    BootRecorded(p, p.initial.epoch, db, 0, {});
  }

  lemma {:induction false} TraceRecorded(c: Config, p: F.Params, states: seq<System>, moves: seq<Move>, j: nat)
    requires Contiguous(p.epochOf) && Trace(c, p, states, moves) && j < |states|
    ensures Recorded(p, p.initial.epoch, states[j].machine)
  {
    var inv := (k: nat, s: System) => Recorded(p, p.initial.epoch, s.machine);
    FreshRecorded(p, states[0]);
    forall k | 0 <= k < |moves| && inv(k, states[k])
      ensures inv(k + 1, states[k + 1])
    {
      TraceHolds(c, p, states, moves, k);
      StepRecords(c, p, states, moves, k);
    }
    Keeps(Leader(c, p), inv, states, moves, 0, j);
  }

  lemma {:induction false} StepRecords(c: Config, p: F.Params, states: seq<System>, moves: seq<Move>, k: nat)
    requires Contiguous(p.epochOf) && Chained(Leader(c, p), states, moves) && k < |moves|
    requires SystemInv(c, p, states[k]) && Recorded(p, p.initial.epoch, states[k].machine)
    ensures Recorded(p, p.initial.epoch, states[k + 1].machine)
  {
    assert Leader(c, p)(states[k], moves[k], states[k + 1]);
    NextRecorded(c, p, states[k], moves[k], states[k + 1]);
  }

  // -------------------- A node catching up --------------------

  /** A process with nothing deferred, no floor, nothing held back and an accepting environment. */
  ghost predicate Calm(p: F.Params, s: System) {
    && !s.machine.halted && s.machine.queues.finalized == [] && AcceptsNow(p, s.machine)
    && !s.sync.delivery.floored && s.sync.reports == {} && Barrier(s.sync.vault.gate).None?
    && s.machine.canon.height == s.sync.recovery + |s.machine.past.arrived|
  }

  /** `rest` is recorded and lies ahead of the canonical state, each block valid on the one before. */
  ghost predicate Ahead(p: F.Params, ledger: map<nat, Block>, canon: F.State, rest: seq<Block>) {
    && ValidChain(p, canon, rest)
    && forall b {:trigger InLedger(ledger, b)} :: b in rest ==> InLedger(ledger, b)
  }

  ghost predicate CatchingUp(c: Config, p: F.Params, s: System, rest: seq<Block>) {
    SystemInv(c, p, s) && Calm(p, s) && Ahead(p, s.ledger, s.machine.canon, rest)
  }

  /** The moves of a redelivery. */
  predicate Redelivers(v: Move) {
    v == SyncerMoves(DispatchReady) || v.AckArrives? || v.BlockArrives?
  }

  lemma {:induction false} FirstAhead(p: F.Params, ledger: map<nat, Block>, canon: F.State, rest: seq<Block>)
    requires Ahead(p, ledger, canon, rest) && rest != []
    ensures ValidNext(p, canon, rest[0]) && InLedger(ledger, rest[0])
    ensures Ahead(p, ledger, F.Finalize(p, canon, rest[0]), rest[1..])
    ensures F.Fold(p, canon, rest) == F.Fold(p, F.Finalize(p, canon, rest[0]), rest[1..])
  {
    var first := [rest[0]];
    assert first[..0] == [] && F.Fold(p, canon, first) == F.Finalize(p, canon, rest[0]);
    assert rest == first + rest[1..];
    ValidSplit(p, canon, first, rest[1..]);
    FoldAppend(p, canon, first, rest[1..]);
    ValidAt(p, canon, rest, 0);
    assert rest[..0] == [];
  }

  lemma {:induction false} AheadStable(p: F.Params, small: map<nat, Block>, large: map<nat, Block>, canon: F.State,
                                       rest: seq<Block>)
    requires Ahead(p, small, canon, rest) && Extended(small, large)
    ensures Ahead(p, large, canon, rest)
  {
    forall b | b in rest
      ensures InLedger(large, b)
    {
      assert InLedger(small, b);
    }
  }

  /** The next block in the mail is the next block ahead, and acceptable. */
  lemma {:induction false} NextMailIsAcceptable(c: Config, p: F.Params, s: System, rest: seq<Block>)
    requires c.epochOf == p.epochOf && CatchingUp(c, p, s, rest) && rest != []
    requires |s.machine.past.arrived| < |s.sync.delivery.dispatched|
    ensures var d := s.sync.delivery.dispatched[|s.machine.past.arrived|];
            d.block == rest[0] && Acceptable(p, s.machine.canon, EntryOf(d))
  {
    var i := |s.machine.past.arrived|;
    var d := s.sync.delivery.dispatched[i];
    FirstAhead(p, s.ledger, s.machine.canon, rest);
    assert InLedger(s.ledger, d.block);
    assert Kept(c, s.sync.recovery, s.sync.vault.durable, d);
  }

  // -------------------- Each move --------------------

  lemma {:induction false} ArrivalApplies(c: Config, p: F.Params, s: System, rest: seq<Block>)
    requires Contiguous(p.epochOf) && c.epochOf == p.epochOf
    requires CatchingUp(c, p, s, rest) && rest != [] && Possible(p, s, BlockArrives)
    ensures var t := Next(c, p, s, BlockArrives);
            && Calm(p, t)
            && t.machine.canon == F.Finalize(p, s.machine.canon, rest[0])
            && |t.machine.past.arrived| == |s.machine.past.arrived| + 1
  {
    var e := EntryOf(s.sync.delivery.dispatched[|s.machine.past.arrived|]);
    NextMailIsAcceptable(c, p, s, rest);
    DeliveryIsApplied(p, s.machine, e);
    StepCommits(p, s.machine, F.DeliverFinalized(e));
  }

  /** An arrival applies exactly the next block ahead. */
  lemma {:induction false} ArrivalAdvances(c: Config, p: F.Params, s: System, rest: seq<Block>)
    requires Contiguous(p.epochOf) && c.epochOf == p.epochOf
    requires CatchingUp(c, p, s, rest) && rest != [] && Possible(p, s, BlockArrives)
    ensures var t := Next(c, p, s, BlockArrives);
            CatchingUp(c, p, t, rest[1..]) && F.Fold(p, t.machine.canon, rest[1..]) == F.Fold(p, s.machine.canon, rest)
  {
    NextInv(c, p, s, BlockArrives);
    ArrivalApplies(c, p, s, rest);
    FirstAhead(p, s.ledger, s.machine.canon, rest);
  }

  lemma {:induction false} SyncerKeepsCalm(c: Config, p: F.Params, s: System, a: Action)
    requires SyncInv(c, s.sync) && Calm(p, s) && (a == DispatchReady || a == Acknowledged)
    ensures Calm(p, SyncerStep(c, s, a))
  {
    if a == DispatchReady {
      DispatchInv(c, s.sync);
    }
  }

  lemma {:induction false} SyncerKeepsAhead(c: Config, p: F.Params, s: System, v: Move, rest: seq<Block>)
    requires Contiguous(p.epochOf)
    requires CatchingUp(c, p, s, rest) && Possible(p, s, v) && (v == SyncerMoves(DispatchReady) || v.AckArrives?)
    ensures CatchingUp(c, p, Next(c, p, s, v), rest) && Next(c, p, s, v).machine == s.machine
  {
    NextInv(c, p, s, v);
    SyncerKeepsCalm(c, p, s, if v.AckArrives? then Acknowledged else DispatchReady);
    AheadStable(p, s.ledger, Next(c, p, s, v).ledger, s.machine.canon, rest);
  }

  // -------------------- Never stuck --------------------

  /** No block is in the mail, no acknowledgement is due and dispatch adds nothing. */
  ghost predicate Idle(c: Config, p: F.Params, s: System) {
    && !Possible(p, s, BlockArrives)
    && !Possible(p, s, AckArrives)
    && Act(c, s.sync, DispatchReady).delivery.dispatched == s.sync.delivery.dispatched
  }

  /** Everything that arrived was acknowledged. */
  lemma {:induction false} ArrivedIsAcked(p: F.Params, m: F.Machine, i: nat)
    requires Inv(p, m) && !m.halted && m.queues.finalized == [] && i < |m.past.arrived|
    ensures m.past.arrived[i].ack in m.past.acked
  {
    assert m.past.arrived[|m.past.acked|..] == [];
    assert m.past.acked[i] == m.past.arrived[i].ack;
  }

  /** With all mail delivered the oldest block in flight has been acknowledged. */
  lemma {:induction false} OldestIsAcked(c: Config, p: F.Params, s: System)
    requires SystemInv(c, p, s) && Calm(p, s)
    requires |s.machine.past.arrived| == |s.sync.delivery.dispatched| && s.sync.delivery.inflight != []
    ensures Possible(p, s, AckArrives)
  {
    var d := s.sync.delivery;
    var i := d.floor.height - s.sync.recovery;
    assert d.inflight[0] == d.dispatched[i];
    ArrivedIsAcked(p, s.machine, i);
  }

  lemma {:induction false} NextIsReady(c: Config, a: Archive, durable: Archive, d: Delivery, b: Block)
    requires Within(durable, a) && c.maxPendingAcks > 0 && d.inflight == []
    requires b.height == d.floor.height + 1 && Replayable(c, durable, b.height, b)
    ensures Dispatchable(c, a, {}, d, None).Some?
  {
  }

  lemma {:induction false} DispatchAppends(c: Config, a: Archive, reports: set<Digest>, d: Delivery,
                                           barrier: Option<nat>)
    ensures d.dispatched <= DispatchBelow(c, a, reports, d, barrier).dispatched
    decreases c.maxPendingAcks - |d.inflight|
  {
    var next := Dispatchable(c, a, reports, d, barrier);
    if next.None? {
    } else {
      DispatchAppends(c, a, reports, Send(d, next.value), barrier);
    }
  }

  lemma {:induction false} ReadyIsSent(c: Config, s: Sync)
    requires s.delivery.floor.anchor.None?
    requires Dispatchable(c, s.vault.archive, s.reports, s.delivery, Barrier(s.vault.gate)).Some?
    ensures s.delivery.dispatched < Act(c, s, DispatchReady).delivery.dispatched
  {
    var next := Dispatchable(c, s.vault.archive, s.reports, s.delivery, Barrier(s.vault.gate)).value;
    DispatchAppends(c, s.vault.archive, s.reports, Send(s.delivery, next), Barrier(s.vault.gate));
  }

  /** With nothing in flight the next recorded block is dispatched. */
  lemma {:induction false} EmptyWindowDispatches(c: Config, s: Sync, b: Block)
    requires SyncInv(c, s) && c.maxPendingAcks > 0
    requires !s.delivery.floored && s.reports == {} && Barrier(s.vault.gate).None? && s.delivery.inflight == []
    requires b.height == s.delivery.floor.height + 1 && Replayable(c, s.vault.durable, b.height, b)
    ensures s.delivery.dispatched < Act(c, s, DispatchReady).delivery.dispatched
  {
    NextIsReady(c, s.vault.archive, s.vault.durable, s.delivery, b);
    ReadyIsSent(c, s);
  }

  /** A node with recorded blocks ahead of it always has a move that brings it on. */
  lemma {:induction false} IdleIsCaughtUp(c: Config, p: F.Params, s: System, rest: seq<Block>)
    requires CatchingUp(c, p, s, rest) && c.maxPendingAcks > 0 && Idle(c, p, s)
    ensures rest == []
  {
    if rest != [] {
      FirstAhead(p, s.ledger, s.machine.canon, rest);
      if s.sync.delivery.inflight != [] {
        OldestIsAcked(c, p, s);
      } else {
        assert Replayable(c, s.sync.vault.durable, rest[0].height, s.ledger[rest[0].height]);
        EmptyWindowDispatches(c, s.sync, rest[0]);
      }
    }
  }

  // -------------------- Redeliveries --------------------

  predicate AllRedeliver(moves: seq<Move>) {
    forall i :: 0 <= i < |moves| ==> Redelivers(moves[i])
  }

  function Arrivals(moves: seq<Move>): nat {
    if moves == [] then 0
    else Arrivals(moves[..|moves| - 1]) + (if moves[|moves| - 1].BlockArrives? then 1 else 0)
  }

  lemma {:induction false} MoveKeeps(c: Config, p: F.Params, s: System, v: Move, rest: seq<Block>)
    returns (left: seq<Block>)
    requires Contiguous(p.epochOf) && c.epochOf == p.epochOf
    requires CatchingUp(c, p, s, rest) && Possible(p, s, v) && Redelivers(v) && (v.BlockArrives? ==> rest != [])
    ensures left == (if v.BlockArrives? then rest[1..] else rest)
    ensures CatchingUp(c, p, Next(c, p, s, v), left)
    ensures F.Fold(p, Next(c, p, s, v).machine.canon, left) == F.Fold(p, s.machine.canon, rest)
  {
    if v.BlockArrives? {
      ArrivalAdvances(c, p, s, rest);
      left := rest[1..];
    } else {
      SyncerKeepsAhead(c, p, s, v, rest);
      left := rest;
    }
  }

  lemma {:induction false} ArrivalsGrow(moves: seq<Move>, i: nat)
    requires i <= |moves|
    ensures Arrivals(moves[..i]) <= Arrivals(moves)
    decreases |moves|
  {
    if i == |moves| {
      assert moves[..i] == moves;
    } else {
      ArrivalsGrow(moves[..|moves| - 1], i);
      assert moves[..|moves| - 1][..i] == moves[..i];
    }
  }

  lemma {:induction false} ArrivalsStep(moves: seq<Move>, i: nat)
    requires i < |moves|
    ensures Arrivals(moves[..i + 1]) == Arrivals(moves[..i]) + (if moves[i].BlockArrives? then 1 else 0)
    ensures Arrivals(moves[..i + 1]) <= Arrivals(moves)
  {
    ArrivalsGrow(moves, i + 1);
    assert moves[..i + 1][..i] == moves[..i];
  }

  /** After the first `i` moves, the blocks that arrived are gone from what lies ahead. */
  ghost predicate On(c: Config, p: F.Params, s: System, rest: seq<Block>, n: nat, goal: F.State) {
    n <= |rest| && CatchingUp(c, p, s, rest[n..]) && F.Fold(p, s.machine.canon, rest[n..]) == goal
  }

  lemma {:induction false} MoveKeepsOn(c: Config, p: F.Params, s: System, v: Move, t: System, rest: seq<Block>, n: nat,
                                       goal: F.State)
    requires Contiguous(p.epochOf) && c.epochOf == p.epochOf
    requires On(c, p, s, rest, n, goal) && Leads(c, p, s, v, t) && Redelivers(v) && (v.BlockArrives? ==> n < |rest|)
    ensures On(c, p, t, rest, n + (if v.BlockArrives? then 1 else 0), goal)
  {
    var left := MoveKeeps(c, p, s, v, rest[n..]);
    if v.BlockArrives? {
      assert rest[n..][1..] == rest[n + 1..];
    }
  }

  lemma {:induction false} StepKeepsOn(c: Config, p: F.Params, states: seq<System>, moves: seq<Move>, rest: seq<Block>,
                                       i: nat, goal: F.State)
    requires Contiguous(p.epochOf) && c.epochOf == p.epochOf
    requires Chained(Leader(c, p), states, moves) && AllRedeliver(moves) && i < |moves| && Arrivals(moves) <= |rest|
    requires On(c, p, states[i], rest, Arrivals(moves[..i]), goal)
    ensures On(c, p, states[i + 1], rest, Arrivals(moves[..i + 1]), goal)
  {
    assert Leader(c, p)(states[i], moves[i], states[i + 1]);
    ArrivalsStep(moves, i);
    MoveKeepsOn(c, p, states[i], moves[i], states[i + 1], rest, Arrivals(moves[..i]), goal);
  }

  ghost function StillOn(c: Config, p: F.Params, moves: seq<Move>, rest: seq<Block>, goal: F.State)
    : (nat, System) -> bool
  {
    (k: nat, s: System) => k <= |moves| && On(c, p, s, rest, Arrivals(moves[..k]), goal)
  }

  lemma {:induction false} StartsOn(c: Config, p: F.Params, s: System, moves: seq<Move>, rest: seq<Block>)
    requires CatchingUp(c, p, s, rest)
    ensures StillOn(c, p, moves, rest, F.Fold(p, s.machine.canon, rest))(0, s)
  {
    assert moves[..0] == [] && rest[0..] == rest;
  }

  lemma {:induction false} EndsOn(c: Config, p: F.Params, s: System, moves: seq<Move>, rest: seq<Block>, goal: F.State)
    requires StillOn(c, p, moves, rest, goal)(|moves|, s)
    ensures On(c, p, s, rest, Arrivals(moves), goal)
  {
    assert moves[..|moves|] == moves;
  }

  lemma {:induction false} StepStillOn(c: Config, p: F.Params, states: seq<System>, moves: seq<Move>, rest: seq<Block>,
                                       goal: F.State, k: nat)
    requires Contiguous(p.epochOf) && c.epochOf == p.epochOf
    requires Chained(Leader(c, p), states, moves) && AllRedeliver(moves) && k < |moves| && Arrivals(moves) <= |rest|
    requires StillOn(c, p, moves, rest, goal)(k, states[k])
    ensures StillOn(c, p, moves, rest, goal)(k + 1, states[k + 1])
  {
    StepKeepsOn(c, p, states, moves, rest, k, goal);
  }

  lemma {:induction false} StaysOn(c: Config, p: F.Params, states: seq<System>, moves: seq<Move>, rest: seq<Block>,
                                   goal: F.State)
    requires Contiguous(p.epochOf) && c.epochOf == p.epochOf
    requires Chained(Leader(c, p), states, moves) && AllRedeliver(moves) && Arrivals(moves) <= |rest|
    requires StillOn(c, p, moves, rest, goal)(0, states[0])
    ensures StillOn(c, p, moves, rest, goal)(|moves|, states[|moves|])
  {
    var inv := StillOn(c, p, moves, rest, goal);
    forall k | 0 <= k < |moves| && inv(k, states[k])
      ensures inv(k + 1, states[k + 1])
    {
      StepStillOn(c, p, states, moves, rest, goal, k);
    }
    Keeps(Leader(c, p), inv, states, moves, 0, |moves|);
  }

  /** However a redelivery is scheduled, it applies the recorded blocks one by one and never fails. */
  lemma {:induction false} EveryRedelivery(c: Config, p: F.Params, states: seq<System>, moves: seq<Move>,
                                           rest: seq<Block>)
    requires Contiguous(p.epochOf) && c.epochOf == p.epochOf
    requires Chained(Leader(c, p), states, moves) && AllRedeliver(moves) && Arrivals(moves) <= |rest|
    requires CatchingUp(c, p, states[0], rest)
    ensures var last := states[|moves|];
            && CatchingUp(c, p, last, rest[Arrivals(moves)..])
            && F.Fold(p, last.machine.canon, rest[Arrivals(moves)..]) == F.Fold(p, states[0].machine.canon, rest)
  {
    var goal := F.Fold(p, states[0].machine.canon, rest);
    StartsOn(c, p, states[0], moves, rest);
    StaysOn(c, p, states, moves, rest, goal);
    EndsOn(c, p, states[|moves|], moves, rest, goal);
  }

  /** What is still to do: arrivals first, then acknowledgements, then a dispatch. */
  function Waiting(s: System): nat {
    if |s.sync.delivery.dispatched| > |s.machine.past.arrived| then 0 else 1 + |s.sync.delivery.inflight|
  }

  lemma {:induction false} AckShortensWindow(c: Config, s: System)
    requires |s.machine.past.arrived| == |s.sync.delivery.dispatched| && s.sync.delivery.inflight != []
    ensures Waiting(SyncerStep(c, s, Acknowledged)) < Waiting(s)
  {
  }

  lemma {:induction false} AckLowers(c: Config, p: F.Params, s: System)
    requires SystemInv(c, p, s) && Calm(p, s)
    requires |s.machine.past.arrived| == |s.sync.delivery.dispatched| && s.sync.delivery.inflight != []
    ensures Possible(p, s, AckArrives) && Waiting(Next(c, p, s, AckArrives)) < Waiting(s)
  {
    OldestIsAcked(c, p, s);
    AckShortensWindow(c, s);
  }

  lemma {:induction false} DispatchLowers(c: Config, p: F.Params, s: System, rest: seq<Block>)
    requires CatchingUp(c, p, s, rest) && rest != [] && c.maxPendingAcks > 0
    requires |s.machine.past.arrived| == |s.sync.delivery.dispatched| && s.sync.delivery.inflight == []
    ensures Waiting(SyncerStep(c, s, DispatchReady)) < Waiting(s)
  {
    FirstAhead(p, s.ledger, s.machine.canon, rest);
    assert Replayable(c, s.sync.vault.durable, rest[0].height, s.ledger[rest[0].height]);
    EmptyWindowDispatches(c, s.sync, rest[0]);
  }

  lemma {:induction false} NextMove(c: Config, p: F.Params, s: System, rest: seq<Block>) returns (v: Move)
    requires CatchingUp(c, p, s, rest) && rest != [] && c.maxPendingAcks > 0
    ensures Redelivers(v) && Possible(p, s, v)
    ensures v.BlockArrives? || Waiting(Next(c, p, s, v)) < Waiting(s)
  {
    if |s.sync.delivery.dispatched| > |s.machine.past.arrived| {
      v := BlockArrives;
    } else if s.sync.delivery.inflight != [] {
      AckLowers(c, p, s);
      v := AckArrives;
    } else {
      DispatchLowers(c, p, s, rest);
      v := SyncerMoves(DispatchReady);
    }
  }

  /** A node on its way: where it stands and what lies ahead of it. */
  datatype Journey = Journey(system: System, rest: seq<Block>)

  ghost predicate Underway(c: Config, p: F.Params, goal: F.State, j: Journey) {
    CatchingUp(c, p, j.system, j.rest) && F.Fold(p, j.system.machine.canon, j.rest) == goal
  }

  ghost function Rides(c: Config, p: F.Params): (Journey, Move, Journey) -> bool {
    (j: Journey, v: Move, k: Journey) => Redelivers(v) && Leads(c, p, j.system, v, k.system)
  }

  lemma {:induction false} PickMove(c: Config, p: F.Params, s: System, rest: seq<Block>)
    returns (v: Move, t: System, left: seq<Block>)
    requires Contiguous(p.epochOf) && c.epochOf == p.epochOf && c.maxPendingAcks > 0
    requires CatchingUp(c, p, s, rest) && rest != []
    ensures Redelivers(v) && Leads(c, p, s, v, t)
    ensures CatchingUp(c, p, t, left) && F.Fold(p, t.machine.canon, left) == F.Fold(p, s.machine.canon, rest)
    ensures |left| < |rest| || (left == rest && Waiting(t) < Waiting(s))
  {
    v := NextMove(c, p, s, rest);
    left := MoveKeeps(c, p, s, v, rest);
    t := Next(c, p, s, v);
  }

  ghost function Ways(c: Config, p: F.Params, goal: F.State): Journey -> bool {
    (j: Journey) => Underway(c, p, goal, j)
  }

  ghost function Home(): Journey -> bool {
    (j: Journey) => j.rest == []
  }

  ghost function Distance(): Journey -> nat {
    (j: Journey) => |j.rest|
  }

  ghost function Delay(): Journey -> nat {
    (j: Journey) => Waiting(j.system)
  }

  lemma {:induction false} JourneyImproves(c: Config, p: F.Params, goal: F.State, j: Journey)
    requires Contiguous(p.epochOf) && c.epochOf == p.epochOf && c.maxPendingAcks > 0
    requires Ways(c, p, goal)(j) && !Home()(j)
    ensures exists v, k :: Improves(Rides(c, p), Ways(c, p, goal), Distance(), Delay(), j, v, k)
  {
    var v, t, left := PickMove(c, p, j.system, j.rest);
    assert Improves(Rides(c, p), Ways(c, p, goal), Distance(), Delay(), j, v, Journey(t, left));
  }

  lemma {:induction false} Redeliver(c: Config, p: F.Params, s: System, rest: seq<Block>)
    returns (journeys: seq<Journey>, moves: seq<Move>)
    requires Contiguous(p.epochOf) && c.epochOf == p.epochOf && c.maxPendingAcks > 0
    requires CatchingUp(c, p, s, rest)
    ensures Chained(Rides(c, p), journeys, moves) && journeys[0].system == s
    ensures var end := journeys[|moves|]; end.rest == [] && Underway(c, p, F.Fold(p, s.machine.canon, rest), end)
  {
    var goal := F.Fold(p, s.machine.canon, rest);
    forall j | Ways(c, p, goal)(j) && !Home()(j)
      ensures exists v, k :: Improves(Rides(c, p), Ways(c, p, goal), Distance(), Delay(), j, v, k)
    {
      JourneyImproves(c, p, goal, j);
    }
    journeys, moves := Arrives(Rides(c, p), Ways(c, p, goal), Home(), Distance(), Delay(), Journey(s, rest));
  }

  ghost function Systems(journeys: seq<Journey>): seq<System> {
    seq(|journeys|, i requires 0 <= i < |journeys| => journeys[i].system)
  }

  lemma {:induction false} RidesAreMoves(c: Config, p: F.Params, journeys: seq<Journey>, moves: seq<Move>)
    requires Chained(Rides(c, p), journeys, moves)
    ensures Chained(Leader(c, p), Systems(journeys), moves) && AllRedeliver(moves)
  {
    var states := Systems(journeys);
    forall i | 0 <= i < |moves|
      ensures Leader(c, p)(states[i], moves[i], states[i + 1]) && Redelivers(moves[i])
    {
      assert Rides(c, p)(journeys[i], moves[i], journeys[i + 1]);
    }
  }

  // -------------------- After a crash --------------------

  lemma {:induction false} RestartIsCalm(c: Config, p: F.Params, s: System, survivors: Archive, round: Round)
    requires Survives(s.sync, survivors) && AcceptsFrom(p, s.machine.disk.boots + 1, 0, 0)
    ensures var t := Next(c, p, s, Crash(survivors, round));
            Calm(p, t) && t.ledger == s.ledger && t.machine.canon == F.Recovered(p, s.machine.disk.db)
  {
  }

  /** What everything a process applied leads to: its canonical state for as long as it runs. */
  ghost function Held(p: F.Params, m: F.Machine): F.State {
    F.Fold(p, m.past.start, m.past.applied)
  }

  /** How many applied blocks a restart from the database has to apply again. */
  ghost function Lost(p: F.Params, m: F.Machine): int {
    m.past.start.height + |m.past.applied| - F.Recovered(p, m.disk.db).height
  }

  lemma {:induction false} LostIsAhead(c: Config, p: F.Params, s: System) returns (lost: seq<Block>)
    requires SystemInv(c, p, s) && ValidChain(p, s.machine.past.start, s.machine.past.applied)
    ensures Ahead(p, s.ledger, F.Recovered(p, s.machine.disk.db), lost)
    ensures F.Fold(p, F.Recovered(p, s.machine.disk.db), lost) == Held(p, s.machine)
    ensures |lost| == Lost(p, s.machine)
  {
    AppliedInLedger(s);
    lost := LostBlocks(p, s.machine);
  }

  /** A restarted node has exactly what it lost ahead of it. */
  lemma {:induction false} RestartCatchesUp(c: Config, p: F.Params, s: System, survivors: Archive, round: Round)
    returns (rest: seq<Block>)
    requires Contiguous(p.epochOf) && SystemInv(c, p, s) && ValidChain(p, s.machine.past.start, s.machine.past.applied)
    requires Survives(s.sync, survivors) && AcceptsFrom(p, s.machine.disk.boots + 1, 0, 0)
    ensures var t := Next(c, p, s, Crash(survivors, round));
            CatchingUp(c, p, t, rest) && F.Fold(p, t.machine.canon, rest) == Held(p, s.machine)
    ensures |rest| == Lost(p, s.machine)
  {
    NextInv(c, p, s, Crash(survivors, round));
    RestartIsCalm(c, p, s, survivors, round);
    rest := LostIsAhead(c, p, s);
  }

  /** The blocks a process applied after the state a restart would load. */
  lemma {:induction false} LostBlocks(p: F.Params, m: F.Machine) returns (lost: seq<Block>)
    requires Inv(p, m) && Committed(p, m) && ValidChain(p, m.past.start, m.past.applied)
    ensures ValidChain(p, F.Recovered(p, m.disk.db), lost) && F.Fold(p, F.Recovered(p, m.disk.db), lost) == Held(p, m)
    ensures forall b :: b in lost ==> b in m.past.applied
    ensures |lost| == Lost(p, m)
  {
    var n := F.Recovered(p, m.disk.db).height - m.past.start.height;
    var done := m.past.applied[..n];
    lost := m.past.applied[n..];
    assert done + lost == m.past.applied;
    ValidSplit(p, m.past.start, done, lost);
    FoldAppend(p, m.past.start, done, lost);
  }

  lemma {:induction false} RestartReturns(c: Config, p: F.Params, s: System, survivors: Archive, round: Round)
    returns (states: seq<System>, moves: seq<Move>)
    requires Contiguous(p.epochOf) && c.epochOf == p.epochOf && c.maxPendingAcks > 0
    requires SystemInv(c, p, s) && ValidChain(p, s.machine.past.start, s.machine.past.applied)
    requires Survives(s.sync, survivors) && AcceptsFrom(p, s.machine.disk.boots + 1, 0, 0)
    ensures Chained(Leader(c, p), states, moves) && Leads(c, p, s, Crash(survivors, round), states[0])
            && AllRedeliver(moves)
    ensures var end := states[|moves|];
            end.machine.canon == Held(p, s.machine) && !end.machine.halted && !end.sync.delivery.floored
  {
    var rest := RestartCatchesUp(c, p, s, survivors, round);
    var journeys;
    journeys, moves := Redeliver(c, p, Next(c, p, s, Crash(survivors, round)), rest);
    RidesAreMoves(c, p, journeys, moves);
    states := Systems(journeys);
  }

  /** A run of the system that ends in `s`. */
  ghost predicate Ended(c: Config, p: F.Params, states: seq<System>, moves: seq<Move>, s: System) {
    Trace(c, p, states, moves) && states[|moves|] == s
  }

  lemma {:induction false} EndInv(c: Config, p: F.Params, states: seq<System>, moves: seq<Move>, s: System)
    requires Contiguous(p.epochOf) && Ended(c, p, states, moves, s)
    ensures SystemInv(c, p, s) && ValidChain(p, s.machine.past.start, s.machine.past.applied)
  {
    TraceInv(c, p, states, moves, |moves|, |moves|);
    TraceRecorded(c, p, states, moves, |moves|);
  }

  lemma {:induction false} AppendRun(c: Config, p: F.Params, states: seq<System>, moves: seq<Move>, s: System, v: Move,
                                     more: seq<System>, rest: seq<Move>)
    requires Ended(c, p, states, moves, s)
    requires Chained(Leader(c, p), more, rest) && Leads(c, p, s, v, more[0])
    ensures Ended(c, p, states + more, moves + [v] + rest, more[|rest|])
  {
    assert Leader(c, p)(states[|moves|], v, more[0]);
    ChainedAppend(Leader(c, p), states, moves, v, more, rest);
  }

  lemma {:induction false} HeldIsCanon(p: F.Params, m: F.Machine)
    requires Inv(p, m)
    ensures !m.halted ==> Held(p, m) == m.canon
  {
  }

  /**
   A node that crashes at any moment, whatever of the buffered writes survives and
   whether or not its process had ended itself before, gets back to the state it
   held: with an execution layer and a disk that accept, there is a redelivery of
   dispatches, arrivals and acknowledgements after which the canonical state is
   the one everything applied before the crash leads to.
   */
  lemma {:induction false} CrashedNodeReturns(c: Config, p: F.Params, states: seq<System>, moves: seq<Move>, s: System,
                                              survivors: Archive, round: Round)
    returns (more: seq<System>, replay: seq<Move>, end: System)
    requires Contiguous(p.epochOf) && c.epochOf == p.epochOf && c.maxPendingAcks > 0
    requires Ended(c, p, states, moves, s)
    requires Survives(s.sync, survivors) && AcceptsFrom(p, s.machine.disk.boots + 1, 0, 0)
    ensures Ended(c, p, states + more, moves + [Crash(survivors, round)] + replay, end) && AllRedeliver(replay)
    ensures end.machine.canon == Held(p, s.machine) && !end.machine.halted && !end.sync.delivery.floored
    ensures !s.machine.halted ==> end.machine.canon == s.machine.canon
  {
    EndInv(c, p, states, moves, s);
    HeldIsCanon(p, s.machine);
    more, replay := RestartReturns(c, p, s, survivors, round);
    end := more[|replay|];
    AppendRun(c, p, states, moves, s, Crash(survivors, round), more, replay);
  }

  lemma {:induction false} AnyRedeliveryReturns(c: Config, p: F.Params, s: System, survivors: Archive, round: Round,
                                                more: seq<System>, replay: seq<Move>)
    requires Contiguous(p.epochOf) && c.epochOf == p.epochOf && c.maxPendingAcks > 0
    requires SystemInv(c, p, s) && ValidChain(p, s.machine.past.start, s.machine.past.applied)
    requires Survives(s.sync, survivors) && AcceptsFrom(p, s.machine.disk.boots + 1, 0, 0)
    requires Chained(Leader(c, p), more, replay) && Leads(c, p, s, Crash(survivors, round), more[0])
    requires AllRedeliver(replay) && Arrivals(replay) <= Lost(p, s.machine)
    ensures !more[|replay|].machine.halted
    ensures Arrivals(replay) == Lost(p, s.machine) ==> more[|replay|].machine.canon == Held(p, s.machine)
    ensures Arrivals(replay) < Lost(p, s.machine) ==> !Idle(c, p, more[|replay|])
  {
    var rest := RestartCatchesUp(c, p, s, survivors, round);
    EveryRedelivery(c, p, more, replay, rest);
    var left := rest[Arrivals(replay)..];
    if left != [] && Idle(c, p, more[|replay|]) {
      IdleIsCaughtUp(c, p, more[|replay|], left);
    }
  }

  lemma {:induction false} PrefixRedelivers(c: Config, p: F.Params, more: seq<System>, replay: seq<Move>, i: nat)
    requires Chained(Leader(c, p), more, replay) && AllRedeliver(replay) && i <= |replay|
    ensures Chained(Leader(c, p), more[..i + 1], replay[..i]) && AllRedeliver(replay[..i])
  {
    var states, moves := more[..i + 1], replay[..i];
    forall k | 0 <= k < |moves|
      ensures Leader(c, p)(states[k], moves[k], states[k + 1])
    {
      assert Leader(c, p)(more[k], replay[k], more[k + 1]);
    }
  }

  /**
   Whatever the schedule of a redelivery after the crash, at each of its points:
   the process runs until everything lost has arrived, is not at rest before that,
   and then holds the state from before the crash.
   */
  lemma {:induction false} EveryRestartReturns(c: Config, p: F.Params, states: seq<System>, moves: seq<Move>, s: System,
                                               survivors: Archive, round: Round, more: seq<System>, replay: seq<Move>,
                                               i: nat)
    requires Contiguous(p.epochOf) && c.epochOf == p.epochOf && c.maxPendingAcks > 0
    requires Ended(c, p, states, moves, s)
    requires Survives(s.sync, survivors) && AcceptsFrom(p, s.machine.disk.boots + 1, 0, 0)
    requires Chained(Leader(c, p), more, replay) && Leads(c, p, s, Crash(survivors, round), more[0])
    requires AllRedeliver(replay) && i <= |replay|
    ensures Arrivals(replay[..i]) < Lost(p, s.machine) ==> !more[i].machine.halted && !Idle(c, p, more[i])
    ensures Arrivals(replay[..i]) == Lost(p, s.machine) ==>
              !more[i].machine.halted && more[i].machine.canon == Held(p, s.machine)
    ensures !s.machine.halted ==> Held(p, s.machine) == s.machine.canon
  {
    EndInv(c, p, states, moves, s);
    HeldIsCanon(p, s.machine);
    if Arrivals(replay[..i]) <= Lost(p, s.machine) {
      PrefixRedelivers(c, p, more, replay, i);
      AnyRedeliveryReturns(c, p, s, survivors, round, more[..i + 1], replay[..i]);
    }
  }
}

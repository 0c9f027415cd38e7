/** Building a block, voting on it and importing it later: three code paths that must agree. */
module Proposals {
  import opened Chain
  import opened SyncerModel

  const MAX_U64: nat := 0xFFFF_FFFF_FFFF_FFFF

  type U64 = x: nat | x <= MAX_U64

  type Byte = x: nat | x < 256

  type Request = seq<Byte>

  /** A hash of the execution layer; the genesis block stands for its own. */
  datatype ElHash = Own(block: FullBlock) | El(id: nat)

  /** The execution payload; `millis` is the block time it carries, absent if its extra data is malformed. */
  datatype Payload = Payload(
    parentHash: ElHash, blockHash: ElHash, number: nat, millis: Option<U64>, feeRecipient: nat,
    withdrawals: seq<nat>, randao: nat, blobGas: nat, transactions: nat)

  /** A block whose digest, being symbolic, is the block itself; `parent` is the digest of the parent. */
  datatype FullBlock = FullBlock(
    parent: Option<FullBlock>, height: nat, timestamp: U64, epoch: nat, view: nat, payload: Payload,
    requests: seq<Request>, checkpoint: nat, previousHeader: nat, added: seq<nat>, removed: seq<nat>, stateRoot: nat)

  function ElHashOf(b: FullBlock): ElHash {
    if b.height == 0 then Own(b) else b.payload.blockHash
  }

  /** What the finalizer derives from the parent's state for the next block. */
  datatype Aux = Aux(
    epoch: nat, withdrawals: seq<nat>, checkpoint: Option<nat>, headerHash: nat, added: seq<nat>, removed: seq<nat>,
    head: ElHash, feeRecipient: nat, treasury: nat, stateRoot: nat, allowedFuture: U64)

  /** `lastOf` gives the last height of an epoch, `size` the encoded size of a block. */
  datatype Rules = Rules(lastOf: nat -> nat, size: FullBlock -> nat, maxMessage: nat, leaderTimeout: nat)

  predicate WithinLimit(r: Rules, b: FullBlock) {
    r.size(b) < r.maxMessage / 2
  }

  // -------------------- Execution requests --------------------

  /** Every request carries data, and the type bytes strictly ascend. */
  ghost predicate Ascending(requests: seq<Request>) {
    && (forall i :: 0 <= i < |requests| ==> |requests[i]| > 1)
    && (forall i, j :: 0 <= i < j < |requests| ==>
         |requests[i]| > 0 && |requests[j]| > 0 && requests[i][0] < requests[j][0])
  }

  method ExecutionRequestsAscending(requests: seq<Request>) returns (ok: bool)
    ensures ok <==> Ascending(requests)
  {
    var prev: Option<Byte> := None;
    for i := 0 to |requests|
      invariant Ascending(requests[..i])
      invariant if i == 0 then prev == None else |requests[i - 1]| > 1 && prev == Some(requests[i - 1][0])
    {
      var req := requests[i];
      if |req| <= 1 {
        assert !Ascending(requests);
        return false;
      }
      if prev.Some? && req[0] <= prev.value {
        assert !Ascending(requests);
        return false;
      }
      assert Ascending(requests[..i + 1]) by {
        forall a, b | 0 <= a < b < i + 1
          ensures requests[a] != [] && requests[b] != [] && requests[a][0] < requests[b][0]
        {
          assert requests[..i][a] == requests[a];
          assert b < i ==> requests[..i][b] == requests[b];
          assert b == i && a < i - 1 ==> requests[..i][i - 1] == requests[i - 1];
        }
      }
      prev := Some(req[0]);
    }
    assert requests[..|requests|] == requests;
    ok := true;
  }

  function TypeOf(r: Request): Byte {
    if r == [] then 0 else r[0]
  }

  /** Puts a request in front of the first one whose type is not smaller, so equal types keep their order. */
  function Insert(r: Request, sorted: seq<Request>): seq<Request> {
    if sorted == [] then [r]
    else if TypeOf(r) <= TypeOf(sorted[0]) then [r] + sorted
    else [sorted[0]] + Insert(r, sorted[1..])
  }

  /** The stable sort by type byte. */
  function SortByType(requests: seq<Request>): seq<Request> {
    if requests == [] then [] else Insert(requests[0], SortByType(requests[1..]))
  }

  ghost predicate Ordered(s: seq<Request>) {
    forall i, j :: 0 <= i < j < |s| ==> TypeOf(s[i]) <= TypeOf(s[j])
  }

  ghost predicate DistinctTypes(s: seq<Request>) {
    && (forall i :: 0 <= i < |s| ==> |s[i]| > 1)
    && (forall i, j :: 0 <= i < j < |s| ==> TypeOf(s[i]) != TypeOf(s[j]))
  }

  lemma {:induction false} InsertPermutes(r: Request, sorted: seq<Request>)
    ensures multiset(Insert(r, sorted)) == multiset{r} + multiset(sorted)
    decreases |sorted|
  {
    if sorted == [] || TypeOf(r) <= TypeOf(sorted[0]) {
    } else {
      InsertPermutes(r, sorted[1..]);
      assert sorted == [sorted[0]] + sorted[1..];
    }
  }

  ghost predicate NoneBelow(least: nat, s: seq<Request>) {
    forall i :: 0 <= i < |s| ==> least <= TypeOf(s[i])
  }

  lemma {:induction false} PrependOrdered(r: Request, s: seq<Request>)
    requires Ordered(s) && NoneBelow(TypeOf(r), s)
    ensures Ordered([r] + s)
  {
    var t := [r] + s;
    forall i, j | 0 <= i < j < |t|
      ensures TypeOf(t[i]) <= TypeOf(t[j])
    {
      assert t[j] == s[j - 1];
      assert i > 0 ==> t[i] == s[i - 1];
    }
  }

  lemma {:induction false} InsertOrdered(r: Request, sorted: seq<Request>, least: nat)
    requires Ordered(sorted) && least <= TypeOf(r) && NoneBelow(least, sorted)
    ensures Ordered(Insert(r, sorted)) && NoneBelow(least, Insert(r, sorted))
    decreases |sorted|
  {
    if sorted == [] {
    } else if TypeOf(r) <= TypeOf(sorted[0]) {
      PrependOrdered(r, sorted);
    } else {
      assert NoneBelow(TypeOf(sorted[0]), sorted[1..]);
      InsertOrdered(r, sorted[1..], TypeOf(sorted[0]));
      PrependOrdered(sorted[0], Insert(r, sorted[1..]));
    }
  }

  lemma {:induction false} SortPermutes(s: seq<Request>)
    ensures multiset(SortByType(s)) == multiset(s)
    decreases |s|
  {
    if s == [] {
    } else {
      SortPermutes(s[1..]);
      InsertPermutes(s[0], SortByType(s[1..]));
      assert s == [s[0]] + s[1..];
    }
  }

  lemma {:induction false} SortOrders(s: seq<Request>)
    ensures Ordered(SortByType(s))
    decreases |s|
  {
    if s == [] {
    } else {
      SortOrders(s[1..]);
      InsertOrdered(s[0], SortByType(s[1..]), 0);
    }
  }

  /** Sorting permutes the requests and orders them by type. */
  lemma {:induction false} SortOk(s: seq<Request>)
    ensures Ordered(SortByType(s)) && multiset(SortByType(s)) == multiset(s)
  {
    SortOrders(s);
    SortPermutes(s);
  }

  lemma {:induction false} InsertAscending(r: Request, sorted: seq<Request>)
    requires Ascending(sorted) && |r| > 1 && forall x :: x in sorted ==> TypeOf(x) != TypeOf(r)
    ensures Ascending(Insert(r, sorted))
    ensures forall x :: x in Insert(r, sorted) <==> x == r || x in sorted
    decreases |sorted|
  {
    if sorted == [] {
    } else {
      assert sorted == [sorted[0]] + sorted[1..];
      if TypeOf(r) > TypeOf(sorted[0]) {
        InsertAscending(r, sorted[1..]);
        var rest := Insert(r, sorted[1..]);
        forall j | 0 <= j < |rest|
          ensures |rest[j]| > 1 && sorted[0][0] < rest[j][0]
        {
          assert rest[j] in rest;
        }
      }
    }
  }

  /** Requests of distinct types end up strictly ascending. */
  lemma {:induction false} SortAscending(s: seq<Request>)
    requires DistinctTypes(s)
    ensures Ascending(SortByType(s)) && forall x :: x in SortByType(s) <==> x in s
    decreases |s|
  {
    if s == [] {
    } else {
      assert s == [s[0]] + s[1..];
      SortAscending(s[1..]);
      InsertAscending(s[0], SortByType(s[1..]));
    }
  }

  lemma {:induction false} FirstIsLeast(a: seq<Request>, x: Request)
    requires Ascending(a) && x in a
    ensures a != [] && (x == a[0] || TypeOf(a[0]) < TypeOf(x))
  {
  }

  lemma {:induction false} TailMembers(a: seq<Request>, x: Request)
    requires Ascending(a) && a != []
    ensures Ascending(a[1..]) && (x in a[1..] <==> x in a && x != a[0])
  {
    assert a == [a[0]] + a[1..];
  }

  /** There is only one such order of the same requests: whatever sorts them arrives at this list. */
  lemma {:induction false} AscendingIsUnique(a: seq<Request>, b: seq<Request>)
    requires Ascending(a) && Ascending(b) && forall x :: x in a <==> x in b
    ensures a == b
    decreases |a|
  {
    assert b != [] ==> b[0] in b;
    if a == [] {
    } else {
      assert a[0] in a;
      FirstIsLeast(b, a[0]);
      FirstIsLeast(a, b[0]);
      forall x
        ensures Ascending(a[1..]) && Ascending(b[1..])
        ensures x in a[1..] <==> x in b[1..]
      {
        TailMembers(a, x);
        TailMembers(b, x);
      }
      AscendingIsUnique(a[1..], b[1..]);
      assert a == [a[0]] + a[1..] && b == [b[0]] + b[1..];
    }
  }

  // -------------------- Timestamps --------------------

  function SaturatingAdd(a: U64, b: U64): U64 {
    if a + b <= MAX_U64 then a + b else MAX_U64
  }

  function SaturatingSub(a: U64, b: U64): U64 {
    if a >= b then a - b else 0
  }

  function WrappingAdd(a: U64, b: U64): U64 {
    (a + b) % (MAX_U64 + 1)
  }

  /** How long until the least admissible timestamp enters the future window of the verifiers. */
  function TimestampWait(now: U64, minChild: U64, allowed: U64): U64 {
    SaturatingSub(minChild, SaturatingAdd(now, allowed))
  }

  function SelectTimestamp(now: U64, minChild: U64): U64 {
    if now >= minChild then now else minChild
  }

  /**
   Successive clock readings of a proposer that sleeps for as long as it has to
   wait. Reading 0 is taken before the waiting starts and not followed by a sleep.
   */
  ghost predicate SleepsFor(clock: nat -> U64, minChild: U64, allowed: U64) {
    forall i: nat, j: nat :: 0 < i && j == i + 1 ==> clock(i) + TimestampWait(clock(i), minChild, allowed) <= clock(j)
  }

  /** One sleep is enough. */
  lemma {:induction false} OneSleepSuffices(clock: nat -> U64, minChild: U64, allowed: U64, i: nat)
    requires SleepsFor(clock, minChild, allowed) && i > 0
    ensures TimestampWait(clock(i + 1), minChild, allowed) == 0
  {
    assert clock(i) + TimestampWait(clock(i), minChild, allowed) <= clock(i + 1);
  }

  /** A timestamp above the parent's that the proposer's own clock finds admissible. */
  ghost predicate TimelyAt(timestamp: U64, parent: U64, now: U64, allowed: U64) {
    parent < timestamp <= SaturatingAdd(now, allowed)
  }

  /** The first reading, from reading `i` on, at which no wait is left. */
  function ReadyAt(clock: nat -> U64, minChild: U64, allowed: U64, i: nat): nat {
    if TimestampWait(clock(i), minChild, allowed) == 0 then i else i + 1
  }

  /** Waits until the least admissible timestamp is inside the window, then picks one. */
  method AwaitTimestamp(clock: nat -> U64, parentTime: U64, allowed: U64) returns (current: U64, reading: nat)
    requires parentTime < MAX_U64 && SleepsFor(clock, parentTime + 1, allowed)
    ensures reading == ReadyAt(clock, parentTime + 1, allowed, 1) && reading <= 2
    ensures current == SelectTimestamp(clock(reading), parentTime + 1)
    ensures TimelyAt(current, parentTime, clock(reading), allowed)
  {
    reading := 1;
    var wait := TimestampWait(clock(reading), parentTime + 1, allowed);
    while wait != 0
      invariant 1 <= reading <= 2 && wait == TimestampWait(clock(reading), parentTime + 1, allowed)
      invariant reading == 2 ==> TimestampWait(clock(1), parentTime + 1, allowed) != 0
      decreases 2 - reading
    {
      OneSleepSuffices(clock, parentTime + 1, allowed, reading);
      reading := reading + 1;
      wait := TimestampWait(clock(reading), parentTime + 1, allowed);
    }
    current := SelectTimestamp(clock(reading), parentTime + 1);
  }

  // -------------------- Verification --------------------

  /** The parent view signed into the proposal fits the parent that was fetched. */
  predicate ParentViewOk(round: Round, parent: FullBlock, signedView: nat) {
    if signedView == 0 then parent.height == 0 || parent.epoch + 1 == round.epoch
    else parent.epoch == round.epoch && parent.view == signedView
  }

  /** Header fields that follow from the round and the parent. */
  predicate HeaderOk(round: Round, b: FullBlock, parent: FullBlock) {
    && b.view == round.view
    && b.epoch == round.epoch
    && b.parent == Some(parent)
    && b.payload.parentHash == ElHashOf(parent)
    && b.height == parent.height + 1
    && b.timestamp > parent.timestamp
  }

  /** Everything the finalizer's aux data fixes, and what every payload must respect. */
  ghost predicate ContentOk(b: FullBlock, aux: Aux) {
    && b.previousHeader == aux.headerHash
    && b.payload.number == b.height
    && b.payload.millis == Some(b.timestamp)
    && b.stateRoot == aux.stateRoot
    && (aux.treasury != 0 ==> b.payload.feeRecipient == aux.treasury)
    && b.checkpoint == (if aux.checkpoint.Some? then aux.checkpoint.value else 0)
    && b.added == aux.added
    && b.removed == aux.removed
    && b.payload.withdrawals == aux.withdrawals
    && Ascending(b.requests)
    && b.payload.randao == 0
    && b.payload.blobGas == 0
  }

  /** `handle_verify`. */
  ghost predicate Verify(r: Rules, round: Round, b: FullBlock, parent: FullBlock, signedView: nat, aux: Aux, now: U64) {
    && round.epoch == aux.epoch
    && WithinLimit(r, b)
    && if parent == b then b.height == r.lastOf(aux.epoch)
       else
         && ParentViewOk(round, parent, signedView)
         && b.height <= r.lastOf(aux.epoch)
         && HeaderOk(round, b, parent)
         && b.timestamp <= WrappingAdd(now, aux.allowedFuture)
         && ContentOk(b, aux)
  }

  // -------------------- Proposal --------------------

  /** What the execution layer is asked to build on. */
  datatype Attributes = Attributes(head: ElHash, timestamp: U64, withdrawals: seq<nat>, feeRecipient: nat,
                                   stateRoot: nat)

  datatype Envelope = Envelope(payload: Payload, requests: seq<Request>)

  function AttributesFor(aux: Aux, current: U64): Attributes {
    Attributes(aux.head, current, aux.withdrawals, aux.feeRecipient, aux.stateRoot)
  }

  function Assemble(round: Round, parent: FullBlock, aux: Aux, current: U64, e: Envelope): FullBlock {
    FullBlock(Some(parent), parent.height + 1, current, round.epoch, round.view, e.payload, SortByType(e.requests),
              if aux.checkpoint.Some? then aux.checkpoint.value else 0,
              aux.headerHash, aux.added, aux.removed, aux.stateRoot)
  }

  function Limited(r: Rules, b: FullBlock): Option<FullBlock> {
    if WithinLimit(r, b) then Some(b) else None
  }

  /** The timestamp a proposal on this parent gets. */
  function ProposalTime(parent: FullBlock, aux: Aux, clock: nat -> U64): U64
    requires parent.timestamp < MAX_U64
  {
    SelectTimestamp(clock(ReadyAt(clock, parent.timestamp + 1, aux.allowedFuture, 1)), parent.timestamp + 1)
  }

  function Built(r: Rules, round: Round, parent: FullBlock, aux: Aux, clock: nat -> U64,
                 build: Attributes -> Option<Envelope>): Option<FullBlock>
    requires parent.timestamp < MAX_U64
  {
    var current := ProposalTime(parent, aux, clock);
    var built := build(AttributesFor(aux, current));
    if built.None? then None else Limited(r, Assemble(round, parent, aux, current, built.value))
  }

  /**
   * `handle_proposal` once the parent is known; `build` is the execution layer, `clock` the readings of the local
   * clock.
   */
  function Propose(r: Rules, round: Round, parent: FullBlock, executed: bool, aux: Option<Aux>,
                   clock: nat -> U64, build: Attributes -> Option<Envelope>): Option<FullBlock> {
    if !executed || aux.None? || aux.value.epoch != round.epoch then None
    else if parent.height == r.lastOf(aux.value.epoch) then Limited(r, parent)
    else if parent.timestamp == MAX_U64 then None
    else if TimestampWait(clock(0), parent.timestamp + 1, aux.value.allowedFuture) > r.leaderTimeout then None
    else Built(r, round, parent, aux.value, clock, build)
  }

  /** Puts the built payload into a block, its requests sorted by type. */
  method AssembleBlock(r: Rules, round: Round, parent: FullBlock, aux: Aux, current: U64, built: Envelope)
    returns (b: Option<FullBlock>)
    ensures b == Limited(r, Assemble(round, parent, aux, current, built))
  {
    var requests := built.requests;
    requests := SortByType(requests);
    var block := FullBlock(Some(parent), parent.height + 1, current, round.epoch, round.view, built.payload,
                           requests, if aux.checkpoint.Some? then aux.checkpoint.value else 0,
                           aux.headerHash, aux.added, aux.removed, aux.stateRoot);
    b := Limited(r, block);
  }

  /** A block of the current epoch on `parent`, once the wait for its timestamp is known to fit. */
  method BuildBlock(r: Rules, round: Round, parent: FullBlock, aux: Aux, clock: nat -> U64,
                    build: Attributes -> Option<Envelope>)
    returns (b: Option<FullBlock>)
    requires parent.timestamp < MAX_U64 && SleepsFor(clock, parent.timestamp + 1, aux.allowedFuture)
    ensures b == Built(r, round, parent, aux, clock, build)
  {
    var current, reading := AwaitTimestamp(clock, parent.timestamp, aux.allowedFuture);
    var built := build(AttributesFor(aux, current));
    if built.None? {
      return None;
    }
    b := AssembleBlock(r, round, parent, aux, current, built.value);
  }

  method HandleProposal(r: Rules, round: Round, parent: FullBlock, executed: bool, aux: Option<Aux>,
                        clock: nat -> U64, build: Attributes -> Option<Envelope>) returns (b: Option<FullBlock>)
    requires aux.Some? && parent.timestamp < MAX_U64 ==> SleepsFor(clock, parent.timestamp + 1, aux.value.allowedFuture)
    ensures b == Propose(r, round, parent, executed, aux, clock, build)
  {
    if !executed || aux.None? || aux.value.epoch != round.epoch {
      return None;
    }
    if parent.height == r.lastOf(aux.value.epoch) {
      return Limited(r, parent);
    }
    if parent.timestamp == MAX_U64 {
      return None;
    }
    var initialWait := TimestampWait(clock(0), parent.timestamp + 1, aux.value.allowedFuture);
    if initialWait > r.leaderTimeout {
      return None;
    }
    b := BuildBlock(r, round, parent, aux.value, clock, build);
  }

  // -------------------- Agreement --------------------

  /** The execution layer builds what it was asked to build, with requests of distinct types that carry data. */
  ghost predicate Faithful(build: Attributes -> Option<Envelope>, parent: FullBlock) {
    forall a :: build(a).Some? ==>
      var p := build(a).value.payload;
      && p.parentHash == a.head && p.number == parent.height + 1 && p.millis == Some(a.timestamp)
      && p.feeRecipient == a.feeRecipient && p.withdrawals == a.withdrawals && p.randao == 0 && p.blobGas == 0
      && DistinctTypes(build(a).value.requests)
  }

  /** Aux data as the finalizer derives it from the state of this parent. */
  ghost predicate AuxFor(r: Rules, aux: Aux, parent: FullBlock) {
    && aux.head == ElHashOf(parent)
    && (aux.treasury != 0 ==> aux.feeRecipient == aux.treasury)
    && parent.height <= r.lastOf(aux.epoch)
  }

  /**
   A block the proposer builds passes verification on the same aux data exactly
   when its timestamp is at most the verifier's clock plus the allowed future,
   as the verifier computes that sum. A re-proposal always passes.
   */
  lemma {:induction false} ProposalVerifiesExactly(r: Rules, round: Round, parent: FullBlock, signedView: nat, aux: Aux,
                                                   clock: nat -> U64, build: Attributes -> Option<Envelope>, now: U64)
    requires Faithful(build, parent) && AuxFor(r, aux, parent) && ParentViewOk(round, parent, signedView)
    requires Propose(r, round, parent, true, Some(aux), clock, build).Some?
    ensures var b := Propose(r, round, parent, true, Some(aux), clock, build).value;
            Verify(r, round, b, parent, signedView, aux, now) <==>
            (b == parent || b.timestamp <= WrappingAdd(now, aux.allowedFuture))
  {
    var b := Propose(r, round, parent, true, Some(aux), clock, build).value;
    if b != parent {
      var minChild: U64 := parent.timestamp + 1;
      var current := SelectTimestamp(clock(ReadyAt(clock, minChild, aux.allowedFuture, 1)), minChild);
      var a := AttributesFor(aux, current);
      assert b == Assemble(round, parent, aux, current, build(a).value);
      SortAscending(build(a).value.requests);
    }
  }

  /** With a verifier clock not behind the proposer's and no overflow of its sum, every proposal passes. */
  lemma {:induction false} ProposalPassesVerify(r: Rules, round: Round, parent: FullBlock, signedView: nat, aux: Aux,
                                                clock: nat -> U64, build: Attributes -> Option<Envelope>, now: U64)
    requires Faithful(build, parent) && AuxFor(r, aux, parent) && ParentViewOk(round, parent, signedView)
    requires parent.timestamp < MAX_U64 ==> SleepsFor(clock, parent.timestamp + 1, aux.allowedFuture)
    requires forall i: nat :: i <= 2 ==> clock(i) <= now
    requires now + aux.allowedFuture <= MAX_U64
    requires Propose(r, round, parent, true, Some(aux), clock, build).Some?
    ensures Verify(r, round, Propose(r, round, parent, true, Some(aux), clock, build).value,
                   parent, signedView, aux, now)
  {
    ProposalVerifiesExactly(r, round, parent, signedView, aux, clock, build, now);
    var b := Propose(r, round, parent, true, Some(aux), clock, build).value;
    if b != parent {
      OneSleepSuffices(clock, parent.timestamp + 1, aux.allowedFuture, 1);
      var i := ReadyAt(clock, parent.timestamp + 1, aux.allowedFuture, 1);
      assert clock(i) <= now && TimestampWait(clock(i), parent.timestamp + 1, aux.allowedFuture) == 0;
    }
  }

  /** The leader's clock, execution layer and parent are as they should be, and the verifier's clock is not behind. */
  ghost predicate FairRound(r: Rules, round: Round, parent: FullBlock, signedView: nat, aux: Aux, clock: nat -> U64,
                            build: Attributes -> Option<Envelope>, now: U64) {
    && Faithful(build, parent) && AuxFor(r, aux, parent) && ParentViewOk(round, parent, signedView)
    && (parent.timestamp < MAX_U64 ==> SleepsFor(clock, parent.timestamp + 1, aux.allowedFuture))
    && (forall i: nat :: i <= 2 ==> clock(i) <= now)
    && now + aux.allowedFuture <= MAX_U64
  }

  /** What the leader needs inside an epoch: a later timestamp in its window and a payload that fits the size limit. */
  predicate CanBuild(r: Rules, round: Round, parent: FullBlock, aux: Aux, clock: nat -> U64,
                     build: Attributes -> Option<Envelope>) {
    && parent.timestamp < MAX_U64
    && TimestampWait(clock(0), parent.timestamp + 1, aux.allowedFuture) <= r.leaderTimeout
    && var built := build(AttributesFor(aux, ProposalTime(parent, aux, clock)));
       built.Some? && WithinLimit(r, Assemble(round, parent, aux, ProposalTime(parent, aux, clock), built.value))
  }

  /**
   When a leader proposes, and that verifiers accept it. At the end of the epoch
   it proposes its parent if that is within the size limit. Inside the epoch it
   proposes a later child exactly when it can build one. In a fair round either
   passes verification.
   */
  lemma {:induction false} LeaderProposes(r: Rules, round: Round, parent: FullBlock, signedView: nat, aux: Aux,
                                          clock: nat -> U64, build: Attributes -> Option<Envelope>, now: U64)
    requires aux.epoch == round.epoch
    ensures var b := Propose(r, round, parent, true, Some(aux), clock, build);
            && (if parent.height == r.lastOf(round.epoch) then
                  b == if WithinLimit(r, parent) then Some(parent) else None
                else
                  && (b.Some? <==> CanBuild(r, round, parent, aux, clock, build))
                  && (b.Some? ==> b.value.parent == Some(parent) && b.value.height == parent.height + 1
                                  && b.value.timestamp > parent.timestamp))
            && (b.Some? && FairRound(r, round, parent, signedView, aux, clock, build, now) ==>
                  Verify(r, round, b.value, parent, signedView, aux, now))
  {
    var b := Propose(r, round, parent, true, Some(aux), clock, build);
    if b.Some? && FairRound(r, round, parent, signedView, aux, clock, build, now) {
      ProposalPassesVerify(r, round, parent, signedView, aux, clock, build, now);
    }
  }

  /** Epochs end where the schedule says they end. */
  ghost predicate EndsAt(epochOf: nat -> nat, lastOf: nat -> nat) {
    forall e: nat :: epochOf(lastOf(e)) == e && IsLastOfEpoch(epochOf, lastOf(e))
  }

  /**
   The epoch of the parent's state: for a speculative parent its own epoch, for
   the canonical head the epoch its next block belongs to.
   */
  ghost predicate StateEpoch(epochOf: nat -> nat, parent: FullBlock, epoch: nat) {
    epoch == parent.epoch || epoch == epochOf(parent.height + 1)
  }

  /** What live verification accepts, catch-up accepts: the certificate binds epoch and view of the header. */
  lemma {:induction false} VerifiedBlockBinds(r: Rules, epochOf: nat -> nat, round: Round, b: FullBlock,
                                              parent: FullBlock, signedView: nat, aux: Aux, now: U64)
    requires EndsAt(epochOf, r.lastOf)
    requires Verify(r, round, b, parent, signedView, aux, now)
    requires StateEpoch(epochOf, parent, aux.epoch)
    requires b == parent ==> b.view <= round.view
    ensures b.epoch == round.epoch && ViewBinds(epochOf, b.height, b.view, round.view)
  {
    if b == parent {
      assert epochOf(r.lastOf(aux.epoch)) == aux.epoch;
    }
  }
}

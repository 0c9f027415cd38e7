/**
 From a running finalizer through proposal and live verification to the syncer:
 what is proposed on its aux data is accepted by verifiers, and what verifiers
 accept is accepted again by a node that catches up.
 */
module CatchUp {
  import opened Chain
  import F = FinalizerModel
  import T = FinalizerTheorems
  import opened Proposals
  import opened SyncerModel

  /** How hashes of the execution layer and block bodies appear in the header the consensus digest commits to. */
  datatype Projection = Projection(eth: ElHash -> nat, body: FullBlock -> nat)

  /** The header of a full block; parent digests are those of the parents' headers. */
  function HeaderOf(j: Projection, b: FullBlock): Block
    decreases b
  {
    var parent := if b.parent.None? then Digest.Seed(0) else HeaderOf(j, b.parent.value).Id();
    Block(parent, b.height, b.epoch, b.view, j.eth(ElHashOf(b)), j.body(b))
  }

  /** The aux data carries the epoch the finalizer `m` answers for this parent. */
  ghost predicate AuxFrom(p: F.Params, m: F.Machine, j: Projection, parent: FullBlock, aux: Aux) {
    var reply := F.AuxFor(p, m, KeyOf(HeaderOf(j, parent)));
    reply.Some? && reply.value.epoch == aux.epoch
  }

  lemma {:induction false} ReachedStateEpoch(p: F.Params, db: F.Db, events: seq<F.Event>, m: F.Machine, j: Projection,
                                             parent: FullBlock, aux: Aux)
    requires T.Reached(p, db, events, m) && !m.halted && AuxFrom(p, m, j, parent, aux)
    ensures StateEpoch(p.epochOf, parent, aux.epoch)
    ensures aux.epoch == p.epochOf(parent.height) || aux.epoch == p.epochOf(parent.height + 1)
  {
    T.AuxEpochFromParent(p, db, events, m, KeyOf(HeaderOf(j, parent)));
  }

  /** A height of an epoch is at most its last. */
  lemma {:induction false} WithinEpoch(epochOf: nat -> nat, lastOf: nat -> nat, h: nat, e: nat)
    requires Contiguous(epochOf) && EndsAt(epochOf, lastOf) && epochOf(h) == e
    ensures h <= lastOf(e)
  {
    var last := lastOf(e);
    assert epochOf(last) == e && IsLastOfEpoch(epochOf, last);
    EpochsMonotone(epochOf, last, last + 1);
    if h > last {
      EpochsMonotone(epochOf, last + 1, h);
    }
  }

  /**
   * What live verification accepts on a running finalizer's aux data, catch-up accepts with the certificate of that
   * round.
   */
  lemma {:induction false} VerifiedBlockIsBound(p: F.Params, db: F.Db, events: seq<F.Event>, m: F.Machine,
                                                j: Projection, c: Config, r: Rules, round: Round, b: FullBlock,
                                                parent: FullBlock, signedView: nat, aux: Aux, now: U64)
    requires T.Reached(p, db, events, m) && !m.halted && AuxFrom(p, m, j, parent, aux)
    requires c.epochOf == p.epochOf && EndsAt(p.epochOf, r.lastOf)
    requires Verify(r, round, b, parent, signedView, aux, now) && (b == parent ==> b.view <= round.view)
    ensures Binds(c, HeaderOf(j, b), Certificate(round, HeaderOf(j, b).Id()))
  {
    ReachedStateEpoch(p, db, events, m, j, parent, aux);
    VerifiedBlockBinds(r, p.epochOf, round, b, parent, signedView, aux, now);
  }

  lemma {:induction false} ReachedAuxFor(p: F.Params, db: F.Db, events: seq<F.Event>, m: F.Machine, j: Projection,
                                         r: Rules, parent: FullBlock, aux: Aux)
    requires T.Reached(p, db, events, m) && !m.halted && AuxFrom(p, m, j, parent, aux)
    requires EndsAt(p.epochOf, r.lastOf)
    requires aux.head == ElHashOf(parent) && (aux.treasury != 0 ==> aux.feeRecipient == aux.treasury)
    ensures Proposals.AuxFor(r, aux, parent)
  {
    ReachedStateEpoch(p, db, events, m, j, parent, aux);
    if aux.epoch == p.epochOf(parent.height) {
      WithinEpoch(p.epochOf, r.lastOf, parent.height, aux.epoch);
    } else {
      WithinEpoch(p.epochOf, r.lastOf, parent.height + 1, aux.epoch);
    }
  }

  /** What a leader proposes on a running finalizer's aux data passes verification, and catch-up after that. */
  lemma {:induction false} ProposalIsBound(p: F.Params, db: F.Db, events: seq<F.Event>, m: F.Machine, j: Projection,
                                           c: Config, r: Rules, round: Round, b: FullBlock, parent: FullBlock,
                                           signedView: nat, aux: Aux, clock: nat -> U64,
                                           build: Attributes -> Option<Envelope>, now: U64)
    requires T.Reached(p, db, events, m) && !m.halted && AuxFrom(p, m, j, parent, aux)
    requires c.epochOf == p.epochOf && EndsAt(p.epochOf, r.lastOf)
    requires aux.head == ElHashOf(parent) && (aux.treasury != 0 ==> aux.feeRecipient == aux.treasury)
    requires Faithful(build, parent) && ParentViewOk(round, parent, signedView)
             && (b == parent ==> b.view <= round.view)
    requires parent.timestamp < MAX_U64 ==> SleepsFor(clock, parent.timestamp + 1, aux.allowedFuture)
    requires (forall i: nat :: i <= 2 ==> clock(i) <= now) && now + aux.allowedFuture <= MAX_U64
    requires Propose(r, round, parent, true, Some(aux), clock, build) == Some(b)
    ensures Verify(r, round, b, parent, signedView, aux, now)
    ensures Binds(c, HeaderOf(j, b), Certificate(round, HeaderOf(j, b).Id()))
  {
    ReachedAuxFor(p, db, events, m, j, r, parent, aux);
    ProposalPassesVerify(r, round, parent, signedView, aux, clock, build, now);
    VerifiedBlockIsBound(p, db, events, m, j, c, r, round, b, parent, signedView, aux, now);
  }
}

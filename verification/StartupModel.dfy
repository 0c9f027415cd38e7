/**
 Checkpoint import at startup: stage, ask the execution layer, then publish or
 discard. Every database commit is atomic; a crash may fall between any two.
 */
module StartupModel {
  import opened Chain

  /**
   A consensus state as the startup protocol sees it: the encoded checkpoint it
   carries, the root of its state tree, the root captured for proofs, and `rest`
   for everything else in its encoding.
   */
  datatype Snapshot = Snapshot(
    height: nat, epoch: nat, head: nat, forkchoice: nat, pending: Option<nat>, root: nat, captured: nat, rest: nat)

  datatype Header = Header(height: nat, epoch: nat, view: nat, parent: nat, checkpoint: nat, previous: nat, rest: nat)

  /** A header with the certificate that finalizes it. */
  datatype FinalHeader = FinalHeader(header: Header, payload: nat, epoch: nat, view: nat)

  datatype LastBlock = LastBlock(digest: nat, body: nat)

  /** The authorization to skip execution up to `height`, with the artifacts of the terminal block. */
  datatype Import = Import(height: nat, config: nat, final: FinalHeader, last: Option<LastBlock>)

  /**
   What the protocol calls out to: header digests, encoding and decoding of states
   (absent if malformed or carrying a checkpoint itself), the tree root and the
   captured root of a state that carries a checkpoint, the digest of a checkpoint,
   epoch ends, committee signatures and block validity.
   */
  datatype Env = Env(
    digestOf: Header -> nat,
    encode: Snapshot -> nat,
    decode: nat -> Option<Snapshot>,
    rootWith: (Snapshot, nat) -> nat,
    capture: (Snapshot, nat) -> nat,
    snapshotDigest: nat -> nat,
    lastOfEpoch: (Snapshot, nat) -> bool,
    signed: (Snapshot, FinalHeader, nat) -> bool,
    wellFormed: LastBlock -> bool)

  datatype Reply = Valid | Invalid | Syncing | Lost

  // -------------------- Database --------------------

  datatype Db = Db(
    states: map<nat, Snapshot>,
    latest: Option<nat>,
    headers: map<nat, Header>,
    imported: Option<Import>,
    pendingState: Option<Snapshot>,
    pendingRecord: Option<Import>)

  function Latest(db: Db): Option<Snapshot> {
    if db.latest.Some? && db.latest.value in db.states then Some(db.states[db.latest.value]) else None
  }

  function Stage(db: Db, s: Snapshot, r: Import): Db {
    db.(pendingState := Some(s), pendingRecord := Some(r))
  }

  function Discard(db: Db): Db {
    db.(pendingState := None, pendingRecord := None)
  }

  /** State, latest tracker, authorization and the end of the pending pair in one commit. */
  function Publish(db: Db, s: Snapshot, r: Import): Db {
    db.(states := db.states[s.epoch := s], latest := Some(s.epoch), imported := Some(r),
        pendingState := None, pendingRecord := None)
  }

  /** The commit of the finalizer at the end of an epoch: its header and the state of the next epoch. */
  function CommitBoundary(db: Db, h: Header, s: Snapshot): Db {
    db.(states := db.states[s.epoch := s],
        latest := if db.latest.None? || s.epoch >= db.latest.value then Some(s.epoch) else db.latest,
        headers := db.headers[h.epoch := h])
  }

  // -------------------- Checks --------------------

  datatype Inputs = Inputs(initial: Snapshot, final: Option<FinalHeader>, last: Option<LastBlock>, config: nat)

  datatype Candidate = Candidate(state: Snapshot, record: Import)

  /** The checkpoint that authenticates a state: the one it carries, or its own encoding. */
  function RawOf(env: Env, s: Snapshot): nat {
    if s.pending.Some? then s.pending.value else env.encode(s)
  }

  /** The decoded state with its checkpoint put back and its root captured. */
  function Restored(env: Env, raw: nat, decoded: Snapshot): Snapshot {
    decoded.(pending := Some(raw), root := env.rootWith(decoded, raw), captured := env.capture(decoded, raw))
  }

  /** `validate_candidate`; `None` is a refusal. */
  function Validate(env: Env, s: Snapshot, f: FinalHeader, last: Option<LastBlock>, config: nat): Option<Candidate> {
    var raw := RawOf(env, s);
    var decoded := env.decode(raw);
    if decoded.None? || (s != decoded.value && s != Restored(env, raw, decoded.value)) then None
    else
      var t := Restored(env, raw, decoded.value);
      if && t.height + 1 == f.header.height
         && env.lastOfEpoch(t, f.header.height)
         && f.header.epoch == t.epoch
         && f.header.parent == t.head
         && f.header.checkpoint == env.snapshotDigest(raw)
         && env.digestOf(f.header) == f.payload
         && f.epoch == t.epoch && f.view >= f.header.view
         && env.signed(t, f, config)
         && (last.Some? ==> last.value.digest == f.payload && env.wellFormed(last.value))
      then Some(Candidate(t, Import(t.height, config, f, last)))
      else None
  }

  /** The supplied header fits one already known: the same at its epoch, its predecessor one epoch earlier. */
  predicate Fits(env: Env, known: Header, h: Header) {
    && (known.epoch == h.epoch ==> env.digestOf(known) == env.digestOf(h))
    && (known.epoch + 1 == h.epoch ==> h.previous == env.digestOf(known))
  }

  /** `check_history`: against the finalized headers and against published and pending imports. */
  predicate HistoryOk(env: Env, db: Db, h: Header) {
    && (h.epoch in db.headers ==> env.digestOf(db.headers[h.epoch]) == env.digestOf(h))
    && (h.epoch > 0 && h.epoch - 1 in db.headers ==> h.previous == env.digestOf(db.headers[h.epoch - 1]))
    && (db.imported.Some? ==> Fits(env, db.imported.value.final.header, h))
    && (db.pendingRecord.Some? ==> Fits(env, db.pendingRecord.value.final.header, h))
  }

  predicate AuthorizationOk(db: Db, config: nat) {
    db.imported.Some? ==>
      && db.imported.value.config == config
      && Latest(db).Some? && Latest(db).value.height >= db.imported.value.height
  }

  // -------------------- The protocol --------------------

  /**
   * Where a startup stands: the database and every commit so far, the selected state, and execution layer calls made.
   */
  datatype Session = Session(
    db: Db,
    trail: seq<Db>,
    stored: Option<Snapshot>,
    imported: Option<Import>,
    checked: bool,
    calls: nat,
    failed: bool)

  function Open(db: Db): Session {
    Session(db, [], Latest(db), db.imported, false, 0, false)
  }

  function Fail(x: Session): Session {
    x.(failed := true)
  }

  function Commit(x: Session, db: Db): Session {
    x.(db := db, trail := x.trail + [db])
  }

  /** `finish_import`: publish on VALID or SYNCING, discard on INVALID, keep the pending pair if the reply was lost. */
  function Finish(reply: Reply, x: Session, c: Candidate): Session {
    var y := x.(calls := x.calls + 1);
    match reply
    case Lost => Fail(y)
    case Invalid => Fail(Commit(y, Discard(y.db)))
    case _ =>
      Commit(y, Publish(y.db, c.state, c.record)).(stored := Some(c.state), imported := Some(c.record), checked := true)
  }

  /** Completes an import that an earlier startup had staged. */
  function Resume(env: Env, el: nat -> Reply, x: Session, candidate: Option<Candidate>, config: nat): Session {
    var s, r := x.db.pendingState, x.db.pendingRecord;
    if s.None? && r.None? then x
    else if s.None? || r.None? then Fail(x)
    else if r.value.config != config || s.value.height != r.value.height then Fail(x)
    else if x.stored.Some? && x.stored.value.height > r.value.height then Fail(x)
    else
      var c := Validate(env, s.value, r.value.final, r.value.last, config);
      if c.None? then Fail(x)
      else if candidate.Some? && candidate.value.record.height == c.value.record.height
              && env.digestOf(candidate.value.record.final.header) != env.digestOf(c.value.record.final.header) then
        Fail(x)
      else Finish(el(x.calls), x, c.value)
  }

  function StageAndFinish(el: nat -> Reply, x: Session, c: Candidate): Session {
    var staged := Commit(x, Stage(x.db, c.state, c.record));
    Finish(el(staged.calls), staged, c)
  }

  /** Imports the supplied checkpoint unless the node is already past it. */
  function Consider(el: nat -> Reply, x: Session, c: Candidate): Session {
    if x.stored.Some? && x.stored.value.height > c.state.height then x
    else if x.stored.Some? && x.stored.value.height == c.state.height then
      if x.stored.value.head != c.state.head || x.stored.value.root != c.state.root then Fail(x)
      else if x.imported.None? || x.imported.value.height < c.state.height then StageAndFinish(el, x, c)
      else x
    else StageAndFinish(el, x, c)
  }

  /** A recovered authorization is handed out only after the execution layer accepted the head. */
  function Confirm(el: nat -> Reply, x: Session): Session {
    if x.imported.None? || x.checked then x
    else
      var y := x.(calls := x.calls + 1);
      if el(x.calls) == Valid || el(x.calls) == Syncing then y else Fail(y)
  }

  function Select(el: nat -> Reply, x: Session, candidate: Option<Candidate>, initial: Snapshot): Session {
    if x.failed then x
    else
      var y := if candidate.Some? then Consider(el, x, candidate.value)
               else if x.stored.Some? && initial.height > x.stored.value.height then Fail(x)
               else x;
      if y.failed then y else Confirm(el, y)
  }

  datatype Started = Started(session: Session, state: Snapshot)

  /** `prepare`. The state returned is meaningful when the session did not fail. */
  function Prepare(env: Env, el: nat -> Reply, db: Db, i: Inputs): Started {
    var candidate := if i.final.Some? then Validate(env, i.initial, i.final.value, i.last, i.config) else None;
    var x := Open(db);
    var refused :=
      || (i.final.Some? && (candidate.None? || !HistoryOk(env, db, i.final.value.header)))
      || (i.final.None? && i.last.Some?)
      || !AuthorizationOk(db, i.config);
    var y := if refused then Fail(x) else Select(el, Resume(env, el, x, candidate, i.config), candidate, i.initial);
    Started(y, if y.stored.Some? then y.stored.value else i.initial)
  }
}

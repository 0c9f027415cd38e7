/** What the import protocol keeps over every sequence of startups, replies, crashes and finalizer commits. */
module StartupProofs {
  import opened Chain
  import opened StartupModel

  /** The pending pair is whole and not behind the stored state, and an authorization is backed by a state. */
  ghost predicate DbOk(db: Db) {
    && (db.pendingState.Some? <==> db.pendingRecord.Some?)
    && (db.pendingState.Some? ==>
          && db.pendingState.value.height == db.pendingRecord.value.height
          && (Latest(db).Some? ==> Latest(db).value.height <= db.pendingRecord.value.height))
    && (db.imported.Some? ==> Latest(db).Some? && Latest(db).value.height >= db.imported.value.height)
  }

  /** The latest stored height did not decrease from `a` to `b`. */
  ghost predicate NotBehind(a: Db, b: Db) {
    Latest(a).Some? ==> Latest(b).Some? && Latest(a).value.height <= Latest(b).value.height
  }

  /** A crash leaves the database as some commit, or the start, left it. */
  ghost predicate CanRemain(start: Db, x: Session, db: Db) {
    db == start || db in x.trail
  }

  ghost predicate SessionOk(start: Db, x: Session) {
    && CanRemain(start, x, x.db)
    && (forall db :: CanRemain(start, x, db) ==> DbOk(db) && NotBehind(start, db) && NotBehind(db, x.db))
    && (!x.failed ==> x.stored == Latest(x.db) && x.imported == x.db.imported)
  }

  lemma {:induction false} CommitOk(start: Db, x: Session, db: Db)
    requires SessionOk(start, x) && DbOk(db) && NotBehind(x.db, db)
    ensures var y := Commit(x, db);
            && CanRemain(start, y, y.db)
            && forall d :: CanRemain(start, y, d) ==> DbOk(d) && NotBehind(start, d) && NotBehind(d, y.db)
  {
    var y := Commit(x, db);
    assert y.trail[|x.trail|] == db;
    forall d | CanRemain(start, y, d)
      ensures DbOk(d) && NotBehind(start, d) && NotBehind(d, y.db)
    {
      assert CanRemain(start, x, d) || d == db;
    }
  }

  ghost predicate Fitting(c: Candidate) {
    c.record.height == c.state.height
  }

  /** Publishing is not a step back when the candidate is not behind the stored state. */
  lemma {:induction false} FinishOk(start: Db, reply: Reply, x: Session, c: Candidate)
    requires SessionOk(start, x) && !x.failed && Fitting(c)
    requires x.stored.Some? ==> x.stored.value.height <= c.state.height
    ensures SessionOk(start, Finish(reply, x, c))
    ensures !Finish(reply, x, c).failed ==> Finish(reply, x, c).db.pendingRecord.None?
  {
    var y := x.(calls := x.calls + 1);
    assert SessionOk(start, y);
    CommitOk(start, y, Publish(y.db, c.state, c.record));
    CommitOk(start, y, Discard(y.db));
  }

  lemma {:induction false} ResumeOk(env: Env, el: nat -> Reply, start: Db, x: Session, candidate: Option<Candidate>,
                                    config: nat)
    requires SessionOk(start, x) && !x.failed
    ensures var y := Resume(env, el, x, candidate, config);
            SessionOk(start, y) && (!y.failed ==> y.db.pendingRecord.None?)
  {
    assert SessionOk(start, Fail(x));
    var s, r := x.db.pendingState, x.db.pendingRecord;
    if s.Some? && r.Some? {
      var c := Validate(env, s.value, r.value.final, r.value.last, config);
      if c.Some? {
        assert CanRemain(start, x, x.db);
        FinishOk(start, el(x.calls), x, c.value);
      }
    }
  }

  lemma {:induction false} StageOk(start: Db, el: nat -> Reply, x: Session, c: Candidate)
    requires SessionOk(start, x) && !x.failed && Fitting(c)
    requires x.stored.Some? ==> x.stored.value.height <= c.state.height
    ensures SessionOk(start, StageAndFinish(el, x, c))
    ensures !StageAndFinish(el, x, c).failed ==> StageAndFinish(el, x, c).db.pendingRecord.None?
  {
    assert CanRemain(start, x, x.db);
    var staged := Commit(x, Stage(x.db, c.state, c.record));
    CommitOk(start, x, Stage(x.db, c.state, c.record));
    FinishOk(start, el(staged.calls), staged, c);
  }

  lemma {:induction false} SelectOk(el: nat -> Reply, start: Db, x: Session, candidate: Option<Candidate>,
                                    initial: Snapshot)
    requires SessionOk(start, x) && (!x.failed ==> x.db.pendingRecord.None?)
    requires candidate.Some? ==> Fitting(candidate.value)
    ensures var y := Select(el, x, candidate, initial);
            SessionOk(start, y) && (!y.failed ==> y.db.pendingRecord.None?)
  {
    assert SessionOk(start, Fail(x));
    if !x.failed {
      if candidate.Some? && (x.stored.None? || x.stored.value.height <= candidate.value.state.height) {
        StageOk(start, el, x, candidate.value);
      }
    }
  }

  /** Every database a startup can leave behind, crash or not, is consistent and not behind the one it found. */
  lemma {:induction false} PrepareOk(env: Env, el: nat -> Reply, db: Db, i: Inputs)
    requires DbOk(db)
    ensures var y := Prepare(env, el, db, i).session;
            SessionOk(db, y) && (!y.failed ==> y.db.pendingRecord.None? && y.db.pendingState.None?)
  {
    var candidate := if i.final.Some? then Validate(env, i.initial, i.final.value, i.last, i.config) else None;
    var x := Open(db);
    assert SessionOk(db, x) && SessionOk(db, Fail(x));
    ResumeOk(env, el, db, x, candidate, i.config);
    SelectOk(el, db, Resume(env, el, x, candidate, i.config), candidate, i.initial);
    assert CanRemain(db, Prepare(env, el, db, i).session, Prepare(env, el, db, i).session.db);
  }

  // -------------------- Rejections and lost replies --------------------

  ghost predicate SameState(a: Db, b: Db) {
    a.states == b.states && a.latest == b.latest && a.imported == b.imported && a.headers == b.headers
  }

  /** The supplied checkpoint has nothing left to add. */
  ghost predicate Settled(x: Session, c: Candidate) {
    && x.stored.Some?
    && (|| x.stored.value.height > c.state.height
        || (&& x.stored.value.height == c.state.height
            && x.stored.value.head == c.state.head && x.stored.value.root == c.state.root
            && x.imported.Some? && x.imported.value.height >= c.state.height))
  }

  /** Either nothing was pending, or the pending import was completed. */
  ghost predicate Resumed(env: Env, db: Db, config: nat, y: Session) {
    || y == Open(db)
    || (&& db.pendingRecord.Some? && db.pendingState.Some?
        && var c := Validate(env, db.pendingState.value, db.pendingRecord.value.final, db.pendingRecord.value.last,
                             config);
           && c.Some? && y.db == Publish(db, c.value.state, c.value.record)
           && y.stored == Some(c.value.state) && y.imported == Some(c.value.record))
  }

  lemma {:induction false} ResumeShape(env: Env, el: nat -> Reply, db: Db, candidate: Option<Candidate>, config: nat)
    ensures var y := Resume(env, el, Open(db), candidate, config);
            if y.failed then SameState(db, y.db) else Resumed(env, db, config, y)
  {
  }

  lemma {:induction false} StageShape(el: nat -> Reply, x: Session, c: Candidate)
    requires !x.failed
    ensures var y := StageAndFinish(el, x, c);
            && y.db.headers == x.db.headers
            && (y.failed ==> SameState(x.db, y.db))
            && (!y.failed ==> y.checked && y.stored == Some(c.state) && y.imported == Some(c.record) == y.db.imported)
  {
  }

  /** Either the checkpoint was imported, or database and selection are as before. */
  ghost predicate Considered(x: Session, c: Option<Candidate>, y: Session) {
    && y.db.headers == x.db.headers
    && (y.failed ==> SameState(x.db, y.db))
    && (!y.failed ==>
          || (y.db == x.db && y.stored == x.stored && y.imported == x.imported)
          || (c.Some? && y.checked && y.stored == Some(c.value.state)
              && y.imported == Some(c.value.record) == y.db.imported))
  }

  lemma {:induction false} ConsiderShape(el: nat -> Reply, x: Session, c: Candidate)
    requires !x.failed && Fitting(c)
    ensures var y := Consider(el, x, c); Considered(x, Some(c), y) && (!y.failed ==> Settled(y, c))
  {
    StageShape(el, x, c);
  }

  lemma {:induction false} SelectShape(el: nat -> Reply, x: Session, candidate: Option<Candidate>, initial: Snapshot)
    requires !x.failed && (candidate.Some? ==> Fitting(candidate.value))
    ensures var y := Select(el, x, candidate, initial);
            && Considered(x, candidate, y)
            && (!y.failed && candidate.Some? ==> Settled(y, candidate.value))
            && (!y.failed && candidate.None? && y.stored.Some? ==> initial.height <= y.stored.value.height)
  {
    if candidate.Some? {
      ConsiderShape(el, x, candidate.value);
    }
  }

  /**
   A startup that fails leaves state and authorization as they were, unless it
   first completed the import an earlier startup had staged.
   */
  lemma {:induction false} RejectionKeepsState(env: Env, el: nat -> Reply, db: Db, i: Inputs)
    requires DbOk(db) && Prepare(env, el, db, i).session.failed
    ensures var after := Prepare(env, el, db, i).session.db;
            || SameState(db, after)
            || (&& db.pendingRecord.Some? && db.pendingState.Some?
                && var c := Validate(env, db.pendingState.value, db.pendingRecord.value.final,
                                     db.pendingRecord.value.last, i.config);
                   c.Some? && Latest(after) == Some(c.value.state) && after.imported == Some(c.value.record))
  {
    var candidate := if i.final.Some? then Validate(env, i.initial, i.final.value, i.last, i.config) else None;
    var x := Resume(env, el, Open(db), candidate, i.config);
    ResumeShape(env, el, db, candidate, i.config);
    if !x.failed {
      SelectShape(el, x, candidate, i.initial);
    }
  }

  ghost predicate Accepting(el: nat -> Reply) {
    forall k :: el(k) == Valid || el(k) == Syncing
  }

  /** A valid checkpoint ahead of the stored state is imported when the execution layer accepts it. */
  lemma {:induction false} AcceptedCheckpointIsImported(env: Env, el: nat -> Reply, db: Db, i: Inputs)
    requires DbOk(db) && db.pendingRecord.None? && AuthorizationOk(db, i.config) && i.final.Some? && Accepting(el)
    requires Validate(env, i.initial, i.final.value, i.last, i.config).Some? && HistoryOk(env, db, i.final.value.header)
    requires Latest(db).Some? ==> Latest(db).value.height < i.initial.height
    ensures var c := Validate(env, i.initial, i.final.value, i.last, i.config).value;
            var r := Prepare(env, el, db, i);
            && !r.session.failed && r.state == c.state && r.session.imported == Some(c.record)
            && r.session.db == Publish(Stage(db, c.state, c.record), c.state, c.record)
            && r.session.trail == [Stage(db, c.state, c.record), r.session.db]
  {
    var c := Validate(env, i.initial, i.final.value, i.last, i.config).value;
    assert Resume(env, el, Open(db), Some(c), i.config) == Open(db);
    assert Consider(el, Open(db), c) == StageAndFinish(el, Open(db), c);
  }

  /** If the reply to a first import is lost, the next startup completes it. */
  lemma {:induction false} LostReplyIsRetried(env: Env, el: nat -> Reply, again: nat -> Reply, db: Db, i: Inputs)
    requires DbOk(db) && db.pendingRecord.None? && AuthorizationOk(db, i.config) && i.final.Some?
    requires Validate(env, i.initial, i.final.value, i.last, i.config).Some? && HistoryOk(env, db, i.final.value.header)
    requires Latest(db).Some? ==> Latest(db).value.height < i.initial.height
    requires el(0) == Lost && Accepting(again)
    ensures var c := Validate(env, i.initial, i.final.value, i.last, i.config).value;
            var first := Prepare(env, el, db, i);
            var second := Prepare(env, again, first.session.db, i);
            && first.session.failed && SameState(db, first.session.db)
            && !second.session.failed && second.state == c.state && second.session.imported == Some(c.record)
            && Latest(second.session.db) == Some(c.state)
  {
    var c := Validate(env, i.initial, i.final.value, i.last, i.config).value;
    var staged := Stage(db, c.state, c.record);
    var first := Prepare(env, el, db, i);
    assert first.session.db == staged && first.session.failed;
    assert Validate(env, c.state, i.final.value, i.last, i.config) == Some(c);
    var x := Resume(env, again, Open(staged), Some(c), i.config);
    assert x == Finish(again(0), Open(staged), c);
    assert !x.failed && x.stored == Some(c.state) && x.imported == Some(c.record) && x.checked;
    assert Select(again, x, Some(c), i.initial) == x;
    assert AuthorizationOk(staged, i.config) && HistoryOk(env, staged, i.final.value.header);
  }

  // -------------------- Running again --------------------

  /** What an import in `after` can come from: it was there, was pending, or was supplied. */
  ghost predicate Sourced(db: Db, after: Db, i: Inputs) {
    && after.headers == db.headers
    && (|| after.imported == db.imported
        || (&& after.imported.Some? && after.imported.value.config == i.config
            && (|| (db.pendingRecord.Some? && after.imported.value.final == db.pendingRecord.value.final)
                || (i.final.Some? && after.imported.value.final == i.final.value))))
  }

  lemma {:induction false} SuccessShape(env: Env, el: nat -> Reply, db: Db, i: Inputs)
    requires DbOk(db) && !Prepare(env, el, db, i).session.failed
    ensures var y := Prepare(env, el, db, i).session;
            && Sourced(db, y.db, i)
            && (i.final.Some? ==>
                  var c := Validate(env, i.initial, i.final.value, i.last, i.config);
                  c.Some? && Settled(y, c.value) && HistoryOk(env, db, i.final.value.header))
            && (i.final.None? ==> i.last.None? && (y.stored.Some? ==> i.initial.height <= y.stored.value.height))
            && AuthorizationOk(db, i.config)
  {
    var candidate := if i.final.Some? then Validate(env, i.initial, i.final.value, i.last, i.config) else None;
    var x := Resume(env, el, Open(db), candidate, i.config);
    ResumeShape(env, el, db, candidate, i.config);
    SelectShape(el, x, candidate, i.initial);
  }

  /** Starting again with the same inputs commits nothing, and selects the same state and authorization. */
  lemma {:induction false} RerunChangesNothing(env: Env, el: nat -> Reply, again: nat -> Reply, db: Db, i: Inputs)
    requires DbOk(db) && !Prepare(env, el, db, i).session.failed
    ensures var first := Prepare(env, el, db, i);
            var second := Prepare(env, again, first.session.db, i);
            && second.session.trail == [] && second.session.db == first.session.db
            && (Accepting(again) ==>
                  !second.session.failed && second.state == first.state
                  && second.session.imported == first.session.imported)
  {
    var y := Prepare(env, el, db, i).session;
    PrepareOk(env, el, db, i);
    SuccessShape(env, el, db, i);
    var x := Open(y.db);
    assert x.stored == y.stored && x.imported == y.imported;
    assert AuthorizationOk(y.db, i.config);
    if i.final.Some? {
      var c := Validate(env, i.initial, i.final.value, i.last, i.config).value;
      assert HistoryOk(env, y.db, i.final.value.header);
      assert Consider(again, x, c) == x;
    }
  }

  // -------------------- The life of a node --------------------

  /** `running` is the state of the finalizer while the node is up. */
  datatype Node = Node(db: Db, running: Option<Snapshot>)

  datatype Event =
    | Startup(inputs: Inputs, el: nat -> Reply)
    | CrashedStartup(inputs: Inputs, el: nat -> Reply, left: Db)
    | EpochEnds(header: Header, next: Snapshot)
    | Stopped

  ghost predicate Possible(env: Env, n: Node, e: Event) {
    match e
    case Startup(i, el) => n.running.None?
    case CrashedStartup(i, el, left) => n.running.None? && CanRemain(n.db, Prepare(env, el, n.db, i).session, left)
    case EpochEnds(h, s) => n.running.Some? && s.height > n.running.value.height
    case Stopped => true
  }

  function After(env: Env, n: Node, e: Event): Node {
    match e
    case Startup(i, el) =>
      var r := Prepare(env, el, n.db, i);
      Node(r.session.db, if r.session.failed then None else Some(r.state))
    case CrashedStartup(_, _, left) => Node(left, None)
    case EpochEnds(h, s) => Node(CommitBoundary(n.db, h, s), Some(s))
    case Stopped => Node(n.db, None)
  }

  ghost predicate NodeOk(n: Node) {
    && DbOk(n.db)
    && (n.running.Some? ==>
          && n.db.pendingState.None?
          && (Latest(n.db).Some? ==> Latest(n.db).value.height <= n.running.value.height))
  }

  lemma {:induction false} AfterOk(env: Env, n: Node, e: Event)
    requires NodeOk(n) && Possible(env, n, e)
    ensures NodeOk(After(env, n, e)) && NotBehind(n.db, After(env, n, e).db)
  {
    match e
    case Startup(i, el) =>
      PrepareOk(env, el, n.db, i);
      assert CanRemain(n.db, Prepare(env, el, n.db, i).session, Prepare(env, el, n.db, i).session.db);
    case CrashedStartup(i, el, left) => PrepareOk(env, el, n.db, i);
    case EpochEnds(h, s) =>
    case Stopped =>
  }

  ghost predicate Life(env: Env, nodes: seq<Node>, events: seq<Event>) {
    && |nodes| == |events| + 1
    && NodeOk(nodes[0])
    && forall i :: 0 <= i < |events| ==>
         Possible(env, nodes[i], events[i]) && nodes[i + 1] == After(env, nodes[i], events[i])
  }

  /**
   Over any sequence of startups, replies, crashes, epoch ends and stops: the
   latest stored height never decreases, a published import is backed by a state
   at or above its height, the pending pair is whole and never behind the stored
   state, and nothing is pending while the node runs.
   */
  lemma {:induction false} ImportProtocol(env: Env, nodes: seq<Node>, events: seq<Event>, i: nat, j: nat)
    requires Life(env, nodes, events) && i <= j < |nodes|
    ensures NodeOk(nodes[j]) && NotBehind(nodes[i].db, nodes[j].db)
    decreases j
  {
    if j == 0 {
    } else {
      ImportProtocol(env, nodes, events, if i < j then i else j - 1, j - 1);
      AfterOk(env, nodes[j - 1], events[j - 1]);
    }
  }
}

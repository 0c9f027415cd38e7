/** The finalizer database as an object, and the startup that selects its state and imports checkpoints. */
module StartupActor {
  import opened Chain
  import opened StartupModel
  import opened StartupProofs

  class FinalizerDb {
    var states: map<nat, Snapshot>
    var latest: Option<nat>
    var headers: map<nat, Header>
    var imported: Option<Import>
    var pendingState: Option<Snapshot>
    var pendingRecord: Option<Import>
    /** The commits of the current startup. */
    ghost var trail: seq<Db>

    ghost function Value(): Db
      reads this
    {
      Db(states, latest, headers, imported, pendingState, pendingRecord)
    }

    constructor ()
      ensures Value() == Db(map[], None, map[], None, None, None) && trail == [] && DbOk(Value())
    {
      states, latest, headers, imported, pendingState, pendingRecord := map[], None, map[], None, None, None;
      trail := [];
    }

    method LatestState() returns (s: Option<Snapshot>)
      ensures s == Latest(Value())
    {
      if latest.Some? && latest.value in states {
        return Some(states[latest.value]);
      }
      s := None;
    }

    method StageImport(c: Candidate)
      modifies this
      ensures Value() == Stage(old(Value()), c.state, c.record) && trail == old(trail) + [Value()]
    {
      pendingState, pendingRecord := Some(c.state), Some(c.record);
      trail := trail + [Value()];
    }

    method DiscardPending()
      modifies this
      ensures Value() == Discard(old(Value())) && trail == old(trail) + [Value()]
    {
      pendingState, pendingRecord := None, None;
      trail := trail + [Value()];
    }

    method PublishImport(c: Candidate)
      modifies this
      ensures Value() == Publish(old(Value()), c.state, c.record) && trail == old(trail) + [Value()]
    {
      states := states[c.state.epoch := c.state];
      latest, imported := Some(c.state.epoch), Some(c.record);
      pendingState, pendingRecord := None, None;
      trail := trail + [Value()];
    }

    /** The finalizer's commit at the end of an epoch; the latest tracker only moves forward. */
    method StoreBoundary(h: Header, s: Snapshot)
      modifies this
      ensures Value() == CommitBoundary(old(Value()), h, s) && trail == old(trail) + [Value()]
    {
      states := states[s.epoch := s];
      if latest.None? || s.epoch >= latest.value {
        latest := Some(s.epoch);
      }
      headers := headers[h.epoch := h];
      trail := trail + [Value()];
    }
  }

  lemma {:induction false} Guarantee(env: Env, el: nat -> Reply, db: Db, i: Inputs)
    ensures var x := Prepare(env, el, db, i).session;
            DbOk(db) ==>
              && DbOk(x.db) && NotBehind(db, x.db)
              && (forall d :: d in x.trail ==> DbOk(d) && NotBehind(db, d))
              && (!x.failed ==> x.db.pendingState.None? && x.db.pendingRecord.None?)
  {
    if DbOk(db) {
      PrepareOk(env, el, db, i);
      var x := Prepare(env, el, db, i).session;
      assert CanRemain(db, x, x.db);
      assert forall d :: d in x.trail ==> CanRemain(db, x, d);
    }
  }

  /** One startup over a database. */
  class Launcher {
    const db: FinalizerDb
    const env: Env
    const el: nat -> Reply
    var stored: Option<Snapshot>
    var imported: Option<Import>
    var executionChecked: bool
    var calls: nat

    constructor (db: FinalizerDb, env: Env, el: nat -> Reply)
      ensures this.db == db && this.env == env && this.el == el
    {
      this.db, this.env, this.el := db, env, el;
      stored, imported, executionChecked, calls := None, None, false, 0;
    }

    ghost function Value(failed: bool): Session
      reads this, db
    {
      Session(db.Value(), db.trail, stored, imported, executionChecked, calls, failed)
    }

    method Ask() returns (reply: Reply)
      modifies this`calls
      ensures reply == el(old(calls)) && calls == old(calls) + 1
    {
      reply := el(calls);
      calls := calls + 1;
    }

    method FinishImport(c: Candidate) returns (ok: bool)
      modifies this, db
      ensures Value(!ok) == Finish(el(old(calls)), old(Value(false)), c)
    {
      var reply := Ask();
      if reply == Lost {
        return false;
      }
      if reply == Invalid {
        db.DiscardPending();
        return false;
      }
      db.PublishImport(c);
      stored, imported, executionChecked := Some(c.state), Some(c.record), true;
      ok := true;
    }

    method ResumePending(candidate: Option<Candidate>, config: nat) returns (ok: bool)
      modifies this, db
      ensures Value(!ok) == Resume(env, el, old(Value(false)), candidate, config)
    {
      if db.pendingState.None? && db.pendingRecord.None? {
        return true;
      }
      if db.pendingState.None? || db.pendingRecord.None? {
        return false;
      }
      var s, r := db.pendingState.value, db.pendingRecord.value;
      if r.config != config || s.height != r.height {
        return false;
      }
      if stored.Some? && stored.value.height > r.height {
        return false;
      }
      var c := Validate(env, s, r.final, r.last, config);
      if c.None? {
        return false;
      }
      if candidate.Some? && candidate.value.record.height == c.value.record.height
         && env.digestOf(candidate.value.record.final.header) != env.digestOf(c.value.record.final.header) {
        return false;
      }
      ok := FinishImport(c.value);
    }

    method StageAndImport(c: Candidate) returns (ok: bool)
      modifies this, db
      ensures Value(!ok) == StageAndFinish(el, old(Value(false)), c)
    {
      db.StageImport(c);
      ok := FinishImport(c);
    }

    method ConsiderCandidate(c: Candidate) returns (ok: bool)
      modifies this, db
      ensures Value(!ok) == Consider(el, old(Value(false)), c)
    {
      if stored.Some? && stored.value.height > c.state.height {
        return true;
      }
      if stored.Some? && stored.value.height == c.state.height {
        if stored.value.head != c.state.head || stored.value.root != c.state.root {
          return false;
        }
        if imported.Some? && imported.value.height >= c.state.height {
          return true;
        }
      }
      ok := StageAndImport(c);
    }

    method SelectState(candidate: Option<Candidate>, initial: Snapshot) returns (ok: bool)
      modifies this, db
      ensures Value(!ok) == Select(el, old(Value(false)), candidate, initial)
    {
      if candidate.Some? {
        ok := ConsiderCandidate(candidate.value);
      } else {
        ok := stored.None? || initial.height <= stored.value.height;
      }
      if ok && imported.Some? && !executionChecked {
        var reply := Ask();
        ok := reply == Valid || reply == Syncing;
      }
    }

    /** Selects the state to start from; `None` when startup is refused. */
    method PrepareStart(i: Inputs) returns (r: Option<Snapshot>)
      modifies this, db
      ensures var p := Prepare(env, el, old(db.Value()), i);
              && Value(r.None?) == p.session
              && (r.Some? ==> r.value == p.state)
      ensures old(DbOk(db.Value())) ==>
                && DbOk(db.Value()) && NotBehind(old(db.Value()), db.Value())
                && (forall d :: d in db.trail ==> DbOk(d) && NotBehind(old(db.Value()), d))
                && (r.Some? ==> db.pendingState.None? && db.pendingRecord.None?)
    {
      Guarantee(env, el, db.Value(), i);
      db.trail := [];
      executionChecked, calls := false, 0;
      var latest := db.LatestState();
      stored, imported := latest, db.imported;
      assert Value(false) == Open(old(db.Value()));
      var candidate: Option<Candidate> := None;
      if i.final.Some? {
        candidate := Validate(env, i.initial, i.final.value, i.last, i.config);
        if candidate.None?
           || !HistoryOk(env, Db(db.states, db.latest, db.headers, db.imported, db.pendingState, db.pendingRecord),
                         i.final.value.header) {
          return None;
        }
      } else if i.last.Some? {
        return None;
      }
      if imported.Some?
         && (imported.value.config != i.config || stored.None? || stored.value.height < imported.value.height) {
        return None;
      }
      var ok := ResumePending(candidate, i.config);
      if ok {
        ok := SelectState(candidate, i.initial);
      }
      r := if !ok then None else if stored.Some? then stored else Some(i.initial);
    }
  }
}

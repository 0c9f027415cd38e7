/**
 The dynamic epoch schedule. It discharges what the other modules suppose about
 epochs: contiguous height ranges whose boundaries, once answered, never move.
 */
module Epochs {
  import opened Chain
  import Proposals

  /** From `startEpoch` on, epochs are `length` heights long; the first begins at `startHeight`. */
  datatype Segment = Segment(startEpoch: nat, startHeight: nat, length: nat)

  /** Segments in ascending order, and the epoch the node is in. */
  datatype Schedule = Schedule(segments: seq<Segment>, current: nat)

  /** The latest segment that begins at or before the epoch. */
  function SegmentOf(segments: seq<Segment>, epoch: nat): Segment
    requires segments != []
  {
    var s := segments[|segments| - 1];
    if |segments| == 1 || s.startEpoch <= epoch then s else SegmentOf(segments[..|segments| - 1], epoch)
  }

  function FirstIn(s: Segment, epoch: nat): nat {
    s.startHeight + (if epoch >= s.startEpoch then (epoch - s.startEpoch) * s.length else 0)
  }

  function First(segments: seq<Segment>, epoch: nat): nat
    requires segments != []
  {
    FirstIn(SegmentOf(segments, epoch), epoch)
  }

  function Last(segments: seq<Segment>, epoch: nat): int
    requires segments != []
  {
    First(segments, epoch) + SegmentOf(segments, epoch).length - 1
  }

  /** The epoch whose range contains the height, found from the latest segment backwards. */
  function EpochAt(segments: seq<Segment>, height: nat): nat
    requires segments != []
  {
    var s := segments[|segments| - 1];
    if s.length == 0 then 0
    else if |segments| == 1 then
      s.startEpoch + (if height >= s.startHeight then (height - s.startHeight) / s.length else 0)
    else if s.startHeight <= height then s.startEpoch + (height - s.startHeight) / s.length
    else EpochAt(segments[..|segments| - 1], height)
  }

  datatype Bounds = Bounds(epoch: nat, first: nat, last: int)

  /** `containing`: no answer beyond the next epoch. */
  function Containing(s: Schedule, height: nat): Option<Bounds>
    requires s.segments != []
  {
    var e := EpochAt(s.segments, height);
    if e > s.current + 1 then None else Some(Bounds(e, First(s.segments, e), Last(s.segments, e)))
  }

  function EpochBounds(s: Schedule, epoch: nat): Option<Bounds>
    requires s.segments != []
  {
    if epoch > s.current + 1 then None else Some(Bounds(epoch, First(s.segments, epoch), Last(s.segments, epoch)))
  }

  /** A new length takes effect two epochs later; `None` if a later change is registered already. */
  function UpdateLength(s: Schedule, length: nat): Option<Schedule>
    requires s.segments != [] && length > 0
  {
    var target := s.current + 2;
    var n := |s.segments| - 1;
    var last := s.segments[n];
    if target < last.startEpoch then None
    else if target == last.startEpoch then Some(s.(segments := s.segments[n := last.(length := length)]))
    else Some(s.(segments := s.segments + [Segment(target, First(s.segments, target), length)]))
  }

  // -------------------- The ranges tile the heights --------------------

  /** Each segment begins at a later epoch, at the height where the previous ones put that epoch. */
  ghost predicate SegmentsOk(segments: seq<Segment>)
    decreases |segments|
  {
    && segments != []
    && segments[|segments| - 1].length > 0
    && if |segments| == 1 then segments[0].startEpoch == 0 && segments[0].startHeight == 0
       else
         var front := segments[..|segments| - 1];
         var s := segments[|segments| - 1];
         && SegmentsOk(front)
         && s.startEpoch > front[|front| - 1].startEpoch
         && s.startHeight == First(front, s.startEpoch)
  }

  lemma {:induction false} SegmentFits(segments: seq<Segment>, epoch: nat)
    requires SegmentsOk(segments)
    ensures var s := SegmentOf(segments, epoch);
            s.startEpoch <= epoch && s.length > 0 && s.startEpoch <= segments[|segments| - 1].startEpoch
    decreases |segments|
  {
    if |segments| <= 1 || segments[|segments| - 1].startEpoch <= epoch {
    } else {
      SegmentFits(segments[..|segments| - 1], epoch);
    }
  }

  lemma {:induction false} NextInSegment(s: Segment, epoch: nat)
    requires s.startEpoch <= epoch
    ensures FirstIn(s, epoch + 1) == FirstIn(s, epoch) + s.length
  {
    assert (epoch + 1 - s.startEpoch) * s.length == (epoch - s.startEpoch) * s.length + s.length;
  }

  /** Every epoch is a non-empty range, and the next one begins right after it. */
  lemma {:induction false} RangesTile(segments: seq<Segment>, epoch: nat)
    requires SegmentsOk(segments)
    ensures First(segments, epoch) <= Last(segments, epoch)
    ensures First(segments, epoch + 1) == Last(segments, epoch) + 1
    ensures First(segments, 0) == 0
    decreases |segments|
  {
    SegmentFits(segments, epoch);
    var n := |segments| - 1;
    var s := segments[n];
    if n == 0 {
      NextInSegment(s, epoch);
    } else {
      RangesTile(segments[..n], epoch);
      if s.startEpoch <= epoch {
        NextInSegment(s, epoch);
      }
    }
  }

  lemma {:induction false} FirstAscends(segments: seq<Segment>, low: nat, high: nat)
    requires SegmentsOk(segments) && low < high
    ensures Last(segments, low) < First(segments, high)
    decreases high
  {
    RangesTile(segments, low);
    if low + 1 >= high {
    } else {
      FirstAscends(segments, low, high - 1);
      RangesTile(segments, high - 1);
    }
  }

  lemma {:induction false} DivisionBounds(x: nat, d: nat)
    requires d > 0
    ensures (x / d) * d <= x < (x / d) * d + d
  {
  }

  lemma {:induction false} SegmentContains(s: Segment, height: nat)
    requires s.length > 0 && height >= s.startHeight
    ensures var e := s.startEpoch + (height - s.startHeight) / s.length;
            FirstIn(s, e) <= height < FirstIn(s, e) + s.length
  {
    DivisionBounds(height - s.startHeight, s.length);
  }

  lemma {:induction false} EpochAtContains(segments: seq<Segment>, height: nat)
    requires SegmentsOk(segments)
    ensures var e := EpochAt(segments, height); First(segments, e) <= height <= Last(segments, e)
    decreases |segments|
  {
    var n := |segments| - 1;
    var s := segments[n];
    if n == 0 || s.startHeight <= height {
      SegmentContains(s, height);
    } else {
      var front := segments[..n];
      EpochAtContains(front, height);
      var e := EpochAt(front, height);
      if e >= s.startEpoch {
        if e > s.startEpoch {
          FirstAscends(front, s.startEpoch, e);
          RangesTile(front, s.startEpoch);
        }
        assert false;
      }
    }
  }

  /** A height belongs to an epoch exactly when it lies between its bounds. */
  lemma {:induction false} ContainingIsExact(segments: seq<Segment>, height: nat, epoch: nat)
    requires SegmentsOk(segments)
    ensures EpochAt(segments, height) == epoch <==> First(segments, epoch) <= height <= Last(segments, epoch)
  {
    EpochAtContains(segments, height);
    var e := EpochAt(segments, height);
    if e < epoch {
      FirstAscends(segments, e, epoch);
    } else if epoch < e {
      FirstAscends(segments, epoch, e);
    }
  }

  /** What the rest of the model supposes of epochs holds of every schedule. */
  lemma {:induction false} ScheduleIsContiguous(segments: seq<Segment>)
    requires SegmentsOk(segments)
    ensures Contiguous((h: nat) => EpochAt(segments, h))
    ensures Proposals.EndsAt((h: nat) => EpochAt(segments, h),
                             (e: nat) => if Last(segments, e) >= 0 then Last(segments, e) else 0)
  {
    forall h: nat
      ensures EpochAt(segments, h) <= EpochAt(segments, h + 1) <= EpochAt(segments, h) + 1
    {
      var e := EpochAt(segments, h);
      EpochAtContains(segments, h);
      RangesTile(segments, e);
      RangesTile(segments, e + 1);
      ContainingIsExact(segments, h + 1, e);
      ContainingIsExact(segments, h + 1, e + 1);
    }
    forall e: nat
      ensures Last(segments, e) >= 0
      ensures EpochAt(segments, Last(segments, e)) == e && EpochAt(segments, Last(segments, e) + 1) == e + 1
    {
      RangesTile(segments, e);
      RangesTile(segments, e + 1);
      ContainingIsExact(segments, Last(segments, e), e);
      ContainingIsExact(segments, Last(segments, e) + 1, e + 1);
    }
  }

  // -------------------- Answers never change --------------------

  ghost predicate ScheduleOk(s: Schedule) {
    SegmentsOk(s.segments)
  }

  /** An update leaves every epoch up to the next one, and where the one after begins, as they were. */
  lemma {:induction false} UpdateKeepsRanges(s: Schedule, length: nat, epoch: nat)
    requires ScheduleOk(s) && length > 0 && UpdateLength(s, length).Some?
    requires epoch <= s.current + 1
    ensures var t := UpdateLength(s, length).value;
            && ScheduleOk(t) && t.current == s.current
            && First(t.segments, epoch) == First(s.segments, epoch)
            && Last(t.segments, epoch) == Last(s.segments, epoch)
  {
    var t := UpdateLength(s, length).value;
    var n := |s.segments| - 1;
    if s.current + 2 == s.segments[n].startEpoch {
      assert t.segments[..n] == s.segments[..n];
    } else {
      assert t.segments[..n + 1] == s.segments;
    }
  }

  /** Whatever the schedule answered, it answers again. */
  ghost predicate Remembers(s: Schedule, t: Schedule)
    requires ScheduleOk(s) && ScheduleOk(t)
  {
    && (forall e: nat :: EpochBounds(s, e).Some? ==> EpochBounds(t, e) == EpochBounds(s, e))
    && (forall h: nat :: Containing(s, h).Some? ==> Containing(t, h) == Containing(s, h))
  }

  lemma {:induction false} SameRangesSameAnswers(s: Schedule, t: Schedule)
    requires ScheduleOk(s) && ScheduleOk(t) && s.current <= t.current
    requires forall e: nat :: e <= s.current + 1 ==>
               First(t.segments, e) == First(s.segments, e) && Last(t.segments, e) == Last(s.segments, e)
    ensures Remembers(s, t)
  {
    forall h: nat | Containing(s, h).Some?
      ensures Containing(t, h) == Containing(s, h)
    {
      var e := EpochAt(s.segments, h);
      ContainingIsExact(s.segments, h, e);
      ContainingIsExact(t.segments, h, e);
    }
  }

  datatype Change = Lengthen(length: nat) | Advance(epoch: nat)

  /** A registered length change, refused for length 0, or the node entering an epoch. */
  function Apply(s: Schedule, c: Change): (t: Schedule)
    requires s.segments != []
    ensures t.segments != []
  {
    match c
    case Lengthen(length) =>
      if length == 0 then s else var t := UpdateLength(s, length); if t.Some? then t.value else s
    case Advance(epoch) => s.(current := epoch)
  }

  function ApplyAll(s: Schedule, changes: seq<Change>): (t: Schedule)
    requires s.segments != []
    ensures t.segments != []
  {
    if changes == [] then s else Apply(ApplyAll(s, changes[..|changes| - 1]), changes[|changes| - 1])
  }

  /** A node never goes back to an earlier epoch. */
  ghost predicate Forward(s: Schedule, changes: seq<Change>)
    requires s.segments != []
  {
    forall i :: 0 <= i < |changes| && changes[i].Advance? ==> ApplyAll(s, changes[..i]).current <= changes[i].epoch
  }

  lemma {:induction false} ApplyRemembers(s: Schedule, c: Change)
    requires ScheduleOk(s) && (c.Advance? ==> s.current <= c.epoch)
    ensures ScheduleOk(Apply(s, c)) && Remembers(s, Apply(s, c)) && s.current <= Apply(s, c).current
  {
    var t := Apply(s, c);
    if t.segments != s.segments {
      UpdateKeepsRanges(s, c.length, 0);
      forall e: nat | e <= s.current + 1
        ensures First(t.segments, e) == First(s.segments, e) && Last(t.segments, e) == Last(s.segments, e)
      {
        UpdateKeepsRanges(s, c.length, e);
      }
    }
    SameRangesSameAnswers(s, t);
  }

  lemma {:induction false} ApplyAllRemembers(s: Schedule, changes: seq<Change>)
    requires ScheduleOk(s) && Forward(s, changes)
    ensures ScheduleOk(ApplyAll(s, changes)) && Remembers(s, ApplyAll(s, changes))
    decreases |changes|
  {
    if changes == [] {
    } else {
      var front := changes[..|changes| - 1];
      assert Forward(s, front) by {
        forall i | 0 <= i < |front|
          ensures front[..i] == changes[..i] && front[i] == changes[i]
        {
        }
      }
      ApplyAllRemembers(s, front);
      ApplyRemembers(ApplyAll(s, front), changes[|changes| - 1]);
    }
  }

  /** A fresh schedule, as the genesis length gives it. */
  function NewSchedule(length: nat): Schedule {
    Schedule([Segment(0, 0, length)], 0)
  }

  lemma {:induction false} NewScheduleOk(length: nat)
    requires length > 0
    ensures ScheduleOk(NewSchedule(length))
    ensures forall h: nat :: h < length ==> Containing(NewSchedule(length), h) == Some(Bounds(0, 0, length - 1))
  {
    var s := NewSchedule(length);
    forall h: nat | h < length
      ensures Containing(s, h) == Some(Bounds(0, 0, length - 1))
    {
      ContainingIsExact(s.segments, h, 0);
    }
  }

  /**
   What happens to the live handle: a change of its own, or its replacement by a
   schedule that went through changes since it was taken as a snapshot of the handle.
   */
  datatype Update = Change(change: Change) | Replace(since: seq<Change>)

  function Updated(s: Schedule, u: Update): Schedule
    requires s.segments != []
  {
    match u
    case Change(c) => Apply(s, c)
    case Replace(since) => ApplyAll(s, since)
  }

  ghost predicate ForwardUpdate(s: Schedule, u: Update)
    requires s.segments != []
  {
    match u
    case Change(c) => c.Advance? ==> s.current <= c.epoch
    case Replace(since) => Forward(s, since)
  }

  /** The life of the live handle, from a fresh schedule on. */
  ghost predicate History(states: seq<Schedule>, updates: seq<Update>) {
    && |states| == |updates| + 1
    && (exists length: nat :: length > 0 && states[0] == NewSchedule(length))
    && forall i :: 0 <= i < |updates| ==>
         states[i].segments != [] && ForwardUpdate(states[i], updates[i])
           && states[i + 1] == Updated(states[i], updates[i])
  }

  lemma {:induction false} UpdateRemembers(s: Schedule, u: Update)
    requires ScheduleOk(s) && ForwardUpdate(s, u)
    ensures ScheduleOk(Updated(s, u)) && Remembers(s, Updated(s, u))
  {
    match u
    case Change(c) => ApplyRemembers(s, c);
    case Replace(since) => ApplyAllRemembers(s, since);
  }

  lemma {:induction false} RemembersOn(s: Schedule, t: Schedule, u: Schedule)
    requires ScheduleOk(s) && ScheduleOk(t) && ScheduleOk(u) && Remembers(s, t) && Remembers(t, u)
    ensures Remembers(s, u)
  {
  }

  /** Over any sequence of length changes, epoch advances and replacements, no bound that was ever answered moves. */
  lemma {:induction false} AnswersNeverChange(states: seq<Schedule>, updates: seq<Update>, i: nat, j: nat)
    requires History(states, updates) && i <= j < |states|
    ensures ScheduleOk(states[i]) && ScheduleOk(states[j]) && Remembers(states[i], states[j])
    decreases j
  {
    if j == 0 {
      var length: nat :| length > 0 && states[0] == NewSchedule(length);
      NewScheduleOk(length);
    } else {
      AnswersNeverChange(states, updates, if i < j then i else j - 1, j - 1);
      UpdateRemembers(states[j - 1], updates[j - 1]);
      if i < j {
        RemembersOn(states[i], states[j - 1], states[j]);
      }
    }
  }

  /** Going back to an earlier epoch could move a bound: after it, a change may rewrite an answered segment. */
  lemma {:induction false} SteppingBackMovesBounds()
    ensures var s := ApplyAll(NewSchedule(10), [Lengthen(20), Advance(2)]);
            var t := Apply(Apply(s, Advance(0)), Lengthen(5));
            EpochBounds(s, 3) == Some(Bounds(3, 40, 59)) && First(t.segments, 3) == 25
  {
    var s0 := NewSchedule(10);
    var changes := [Lengthen(20), Advance(2)];
    assert changes[..1] == [Lengthen(20)] && changes[..1][..0] == [];
    var s1 := Apply(s0, Lengthen(20));
    assert ApplyAll(s0, changes[..1]) == s1;
    assert s1.segments == [Segment(0, 0, 10), Segment(2, 20, 20)];
    var s2 := ApplyAll(s0, changes);
    assert s2 == s1.(current := 2);
    var t := Apply(Apply(s2, Advance(0)), Lengthen(5));
    assert t.segments == [Segment(0, 0, 10), Segment(2, 20, 5)];
  }
}

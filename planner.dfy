/** The planner: drains the pending queue into a chain of days, one pass over
    the queue at a time, until the queue is empty. */
module Planner {
  import opened Talks
  import opened Sessions
  import opened Tracks

  /** The planner's progress measure, compared lexicographically: more Done
      sessions, else fewer pending talks, else fewer minutes placed. */
  ghost predicate Below(days: seq<DayView>, queue: seq<Talk>, days0: seq<DayView>, queue0: seq<Talk>)
  {
    DoneCount(days) > DoneCount(days0) ||
    (DoneCount(days) == DoneCount(days0) &&
     (|queue| < |queue0| || (|queue| == |queue0| && Total(Placed(days)) < Total(Placed(days0)))))
  }

  /** The bounds that make the progress measure well founded: a chain built
      from the n talks of all has at most 2 * (n + 1) Done sessions, and
      its placed minutes are never negative. */
  lemma PlanBounds(days: seq<DayView>, queue: seq<Talk>, all: seq<Talk>)
    requires WellFormed(days)
    requires multiset(Placed(days)) + multiset(queue) == multiset(all)
    ensures DoneCount(days) <= 2 * (|all| + 1)
    ensures Total(Placed(days)) >= 0
  {
    WellFormedSize(days);
    TotalNonNegative(Placed(days));
    assert |multiset(Placed(days))| + |multiset(queue)| == |multiset(all)|;
  }

  /** Below, or level with, on all three parts of the measure. */
  ghost predicate AtMost(days: seq<DayView>, queue: seq<Talk>, days0: seq<DayView>, queue0: seq<Talk>)
  {
    Below(days, queue, days0, queue0) ||
    (DoneCount(days) == DoneCount(days0) && |queue| == |queue0| && Total(Placed(days)) == Total(Placed(days0)))
  }

  lemma BelowAtMost(d2: seq<DayView>, q2: seq<Talk>, d1: seq<DayView>, q1: seq<Talk>, d0: seq<DayView>, q0: seq<Talk>)
    requires Below(d2, q2, d1, q1) && AtMost(d1, q1, d0, q0)
    ensures Below(d2, q2, d0, q0)
  {
  }

  /** Where the cursor's talk t sits once Track.set has (perhaps) sent an
      evicted talk back to the queue: one place further on exactly when a
      talk was evicted, since the evicted talk is longer than t and goes in
      ahead of it. */
  function Cursor(e: nat, ev: Option<Talk>): nat
  {
    if ev.Some? then e + 1 else e
  }

  lemma CursorFinds(queue: seq<Talk>, e: nat, t: Talk, ev: Option<Talk>)
    requires e < |queue| && queue[e] == t
    requires ev.Some? ==> ev.value.time > t.time
    ensures var q1 := Requeue(queue, ev); var c := Cursor(e, ev);
      |q1| == |queue| + (if ev.Some? then 1 else 0) && c < |q1| && q1[c] == t &&
      q1[c + 1..] == queue[e + 1..]
  {
    if ev.Some? {
      InsertedShape(queue, ev.value);
      InsertedBefore(queue, ev.value, e);
      var q1 := Requeue(queue, ev);
      assert q1[e + 1..][0] == queue[e..][0];
      assert q1[e + 2..] == q1[e + 1..][1..];
    }
  }

  /** Sending a talk of [0, 240] minutes back to the queue adds exactly
      that talk and keeps the queue's durations in range. */
  lemma RequeueBounded(queue: seq<Talk>, ev: Option<Talk>)
    requires Bounded(queue) && (ev.Some? ==> 0 <= ev.value.time <= 240)
    ensures var q1 := Requeue(queue, ev);
      Bounded(q1) && multiset(q1) == multiset(queue) + Returned(ev)
  {
    var q1 := Requeue(queue, ev);
    if ev.Some? {
      InsertedShape(queue, ev.value);
      forall i | 0 <= i < |q1| ensures 0 <= q1[i].time <= 240 {
        var k := InsertPos(queue, ev.value);
        if i < k {
          assert q1[i] == queue[i];
        } else if i > k {
          assert q1[i] == queue[i - 1];
        }
      }
    }
  }

  /** Talks placed and talks queued, taken together, are the same as
      before. */
  ghost predicate Conserved(days: seq<DayView>, queue: seq<Talk>, days0: seq<DayView>, queue0: seq<Talk>)
  {
    multiset(Placed(days)) + multiset(queue) == multiset(Placed(days0)) + multiset(queue0)
  }

  /** What a turn or a pass of the planner achieves: the chain stays well
      formed, queued durations stay in [0, 240], no talk is created or lost,
      and the progress measure goes down. */
  ghost predicate Progressed(days0: seq<DayView>, queue0: seq<Talk>, days: seq<DayView>, queue: seq<Talk>)
  {
    WellFormed(days) && Bounded(queue) && Conserved(days, queue, days0, queue0) && Below(days, queue, days0, queue0)
  }

  /** What one turn promises on values: progress; an accepted talk moves the
      cursor to the talk that followed it (the queue from next on is the old
      queue after e), nearer the end of the queue; a rejected talk leaves the
      queue as it was. */
  ghost predicate Offered(days0: seq<DayView>, queue0: seq<Talk>, e: int, days: seq<DayView>, queue: seq<Talk>, ok: bool, next: int)
  {
    Progressed(days0, queue0, days, queue) &&
    (ok ==> 0 <= e < |queue0| && 0 <= next <= |queue| && |queue| - next < |queue0| - e &&
            queue[next..] == queue0[e + 1..]) &&
    (!ok ==> queue == queue0)
  }

  lemma AcceptedConserves(days: seq<DayView>, queue: seq<Talk>, t: Talk, o: Outcome<seq<DayView>>, q1: seq<Talk>, q2: seq<Talk>)
    requires StepConserves(days, t, o) && o.ok
    requires multiset(q1) == multiset(queue) + Returned(o.evicted)
    requires multiset(q2) + multiset{t} == multiset(q1)
    ensures Conserved(o.state, q2, days, queue)
  {
    var P, P' := multiset(Placed(days)), multiset(Placed(o.state));
    calc {
      P' + multiset(q2);
      P' + (multiset(q1) - multiset{t});
      P' + (Returned(o.evicted) + multiset(queue)) - multiset{t};
      (P' + Returned(o.evicted)) + multiset(queue) - multiset{t};
      (P + multiset{t}) + multiset(queue) - multiset{t};
      P + multiset(queue);
    }
  }

  lemma AcceptedBelow(days: seq<DayView>, queue: seq<Talk>, t: Talk, o: Outcome<seq<DayView>>, q2: seq<Talk>)
    requires StepKeeps(days, o) && StepEvicts(days, t, o) && o.ok
    requires |q2| == |queue| + (if o.evicted.Some? then 1 else 0) - 1
    ensures Below(o.state, q2, days, queue)
  {
  }

  /** One accepted talk: removing it at the cursor conserves the talks,
      keeps the queue's durations in range, and moves the progress measure
      down, whether or not a talk was evicted. */
  lemma PlanStepAccepted(days: seq<DayView>, queue: seq<Talk>, e: nat, t: Talk, o: Outcome<seq<DayView>>)
    requires Bounded(queue) && e < |queue| && queue[e] == t
    requires Stepped(days, t, o) && o.ok
    ensures var q1 := Requeue(queue, o.evicted); var c := Cursor(e, o.evicted);
      c < |q1| && c == e + |q1| - |queue| &&
      Offered(days, queue, e, o.state, RemoveAt(q1, c), true, c)
  {
    CursorFinds(queue, e, t, o.evicted);
    RequeueBounded(queue, o.evicted);
    var q1 := Requeue(queue, o.evicted);
    var c := Cursor(e, o.evicted);
    RemoveAtBounded(q1, c);
    var q2 := RemoveAt(q1, c);
    AcceptedConserves(days, queue, t, o, q1, q2);
    AcceptedBelow(days, queue, t, o, q2);
    assert q2[c..] == q1[c + 1..];
  }

  /** One rejected talk: nothing moves, and one more session is Done. */
  lemma PlanStepRejected(days: seq<DayView>, queue: seq<Talk>, t: Talk, o: Outcome<seq<DayView>>, e: nat)
    requires Bounded(queue) && Stepped(days, t, o) && !o.ok
    ensures Requeue(queue, o.evicted) == queue
    ensures Offered(days, queue, e, o.state, queue, false, e)
  {
  }

  /** Track.set accepting the talk at the cursor e: taking it away at the
      cursor gives a turn that Offered describes. */
  lemma OfferAccepted(days: seq<DayView>, queue: seq<Talk>, e: nat)
    requires WellFormed(days) && Bounded(queue) && e < |queue| && TrackSet(days, queue[e]).ok
    ensures var o := TrackSet(days, queue[e]); var q1 := Requeue(queue, o.evicted);
      var c := Cursor(e, o.evicted);
      c < |q1| && c == e + |q1| - |queue| && Offered(days, queue, e, o.state, RemoveAt(q1, c), true, c)
  {
    TrackSetStep(days, queue[e]);
    PlanStepAccepted(days, queue, e, queue[e], TrackSet(days, queue[e]));
  }

  /** Track.set rejecting the talk at the cursor e: the queue is as it was. */
  lemma OfferRejected(days: seq<DayView>, queue: seq<Talk>, e: nat)
    requires WellFormed(days) && Bounded(queue) && e < |queue| && !TrackSet(days, queue[e]).ok
    ensures var o := TrackSet(days, queue[e]);
      Requeue(queue, o.evicted) == queue && Offered(days, queue, e, o.state, queue, false, e)
  {
    TrackSetStep(days, queue[e]);
    PlanStepRejected(days, queue, queue[e], TrackSet(days, queue[e]), e);
  }

  /** Track.set on the talk at the cursor e, a talk of [0, 240] minutes, and
      the queue that results from taking it away (if accepted). */
  lemma OfferOutcome(days: seq<DayView>, queue: seq<Talk>, e: nat)
    requires WellFormed(days) && Bounded(queue) && e < |queue|
    ensures var o := TrackSet(days, queue[e]); var q1 := Requeue(queue, o.evicted);
      var c := Cursor(e, o.evicted);
      (o.ok ==> c < |q1| && c == e + |q1| - |queue| && Offered(days, queue, e, o.state, RemoveAt(q1, c), true, c)) &&
      (!o.ok ==> q1 == queue && Offered(days, queue, e, o.state, queue, false, e))
  {
    if TrackSet(days, queue[e]).ok {
      OfferAccepted(days, queue, e);
    } else {
      OfferRejected(days, queue, e);
    }
  }

  /** One turn of plan's inner loop: offer the talk at the cursor e to the
      track; if it is accepted, take it out of the queue and return the
      cursor of the talk that followed it. A rejected talk stays queued. */
  method Offer(track: Track, talkList: TalkList, e: nat) returns (ok: bool, next: nat)
    requires track.Valid() && talkList !in track.Repr
    requires WellFormed(track.Days) && Bounded(talkList.talks) && e < |talkList.talks|
    modifies track.Repr, talkList
    ensures track.Valid() && fresh(track.Repr - old(track.Repr)) && talkList !in track.Repr
    ensures Offered(old(track.Days), old(talkList.talks), e, track.Days, talkList.talks, ok, next)
  {
    var t := talkList.talks[e];
    ghost var days, queue := track.Days, talkList.talks;
    var before := |talkList.talks|;
    ghost var o := TrackSet(days, t);
    ok := track.Set(t, talkList);
    assert ok == o.ok && track.Days == o.state && talkList.talks == Requeue(queue, o.evicted);
    if !ok {
      OfferRejected(days, queue, e);
      next := e;
      return;
    }
    OfferAccepted(days, queue, e);
    // the element of t, one place further on if a talk was evicted
    next := e + (|talkList.talks| - before);
    assert next == Cursor(e, o.evicted);
    ghost var q2 := RemoveAt(Requeue(queue, o.evicted), next);
    talkList.Remove(next);
    assert talkList.talks == q2;
  }

  /** The invariant of a pass that started from days0 and queue0, with the
      cursor at e; stepped says whether a talk has been offered yet. */
  ghost predicate PassInv(days0: seq<DayView>, queue0: seq<Talk>, days: seq<DayView>, queue: seq<Talk>, e: int, stepped: bool)
  {
    0 <= e <= |queue| && WellFormed(days) && Bounded(queue) && Conserved(days, queue, days0, queue0) &&
    (!stepped ==> e == 0) && (stepped ==> Below(days, queue, days0, queue0)) && AtMost(days, queue, days0, queue0)
  }

  lemma PassNext(days0: seq<DayView>, queue0: seq<Talk>, days: seq<DayView>, queue: seq<Talk>, e: int, stepped: bool,
                 days1: seq<DayView>, queue1: seq<Talk>, ok: bool, next: int)
    requires PassInv(days0, queue0, days, queue, e, stepped) && e < |queue|
    requires Offered(days, queue, e, days1, queue1, ok, next)
    ensures ok ==> PassInv(days0, queue0, days1, queue1, next, true) && |queue1| - next < |queue| - e
    ensures !ok ==> Progressed(days0, queue0, days1, queue1) && |queue1| > 0
  {
    BelowAtMost(days1, queue1, days, queue, days0, queue0);
  }

  lemma PassExit(days0: seq<DayView>, queue0: seq<Talk>, days: seq<DayView>, queue: seq<Talk>, e: int, stepped: bool)
    requires PassInv(days0, queue0, days, queue, e, stepped) && e >= |queue| && |queue0| > 0
    ensures Progressed(days0, queue0, days, queue)
  {
  }

  /** One pass of plan's inner loop: offer the queued talks to the track
      front to back, stopping at the first rejection (err). A pass always
      makes progress, since the queue is not empty. */
  method Pass(track: Track, talkList: TalkList) returns (err: bool)
    requires track.Valid() && talkList !in track.Repr
    requires WellFormed(track.Days) && Bounded(talkList.talks) && |talkList.talks| > 0
    modifies track.Repr, talkList
    ensures track.Valid() && fresh(track.Repr - old(track.Repr)) && talkList !in track.Repr
    ensures Progressed(old(track.Days), old(talkList.talks), track.Days, talkList.talks)
    ensures err ==> |talkList.talks| > 0
  {
    ghost var days0, queue0 := track.Days, talkList.talks;
    ghost var stepped := false;
    var e := 0;
    err := false;
    while e < |talkList.talks|
      invariant track.Valid() && fresh(track.Repr - old(track.Repr)) && talkList !in track.Repr
      invariant PassInv(days0, queue0, track.Days, talkList.talks, e, stepped)
      decreases |talkList.talks| - e
    {
      ghost var days, queue := track.Days, talkList.talks;
      var ok, next := Offer(track, talkList, e);
      PassNext(days0, queue0, days, queue, e, stepped, track.Days, talkList.talks, ok, next);
      stepped := true;
      if !ok {
        err := true;
        return;
      }
      e := next;
    }
    PassExit(days0, queue0, track.Days, talkList.talks, e, stepped);
  }

  /** The invariant of plan's outer loop, for the talks all it started with. */
  ghost predicate PlanInv(all: seq<Talk>, days: seq<DayView>, queue: seq<Talk>, err: bool)
  {
    WellFormed(days) && Bounded(queue) &&
    multiset(Placed(days)) + multiset(queue) == multiset(all) &&
    DoneCount(days) <= 2 * (|all| + 1) && Total(Placed(days)) >= 0 &&
    (err ==> |queue| > 0)
  }

  lemma PlanNext(all: seq<Talk>, days: seq<DayView>, queue: seq<Talk>, days1: seq<DayView>, queue1: seq<Talk>, err: bool)
    requires PlanInv(all, days, queue, err) && Progressed(days, queue, days1, queue1)
    ensures PlanInv(all, days1, queue1, err && |queue1| > 0)
    ensures Below(days1, queue1, days, queue)
  {
    PlanBounds(days1, queue1, all);
  }

  /** One turn of plan's outer loop: a pass, which keeps the outer loop's
      invariant and lowers the progress measure. */
  method Round(track: Track, talkList: TalkList, ghost all: seq<Talk>, ghost err0: bool) returns (err: bool)
    requires track.Valid() && talkList !in track.Repr
    requires PlanInv(all, track.Days, talkList.talks, err0) && |talkList.talks| > 0
    modifies track.Repr, talkList
    ensures track.Valid() && fresh(track.Repr - old(track.Repr)) && talkList !in track.Repr
    ensures PlanInv(all, track.Days, talkList.talks, err)
    ensures Below(track.Days, talkList.talks, old(track.Days), old(talkList.talks))
  {
    ghost var days, queue := track.Days, talkList.talks;
    err := Pass(track, talkList);
    PlanNext(all, days, queue, track.Days, talkList.talks, err);
  }

  /** plan: run passes over the queue until it is empty. Every talk is
      placed in the end, and no error is left over. */
  method Plan(talkList: TalkList) returns (track: Track, err: bool)
    requires Bounded(talkList.talks)
    modifies talkList
    ensures track.Valid() && fresh(track.Repr) && talkList !in track.Repr
    ensures WellFormed(track.Days)
    ensures talkList.talks == [] && !err
    ensures multiset(Placed(track.Days)) == multiset(old(talkList.talks))
  {
    ghost var all := talkList.talks;
    track := new Track();
    PlacedOne(FreshDay());
    err := false;
    PlanBounds(track.Days, talkList.talks, all);
    while |talkList.talks| > 0
      invariant track.Valid() && fresh(track.Repr) && talkList !in track.Repr
      invariant PlanInv(all, track.Days, talkList.talks, err)
      decreases 2 * (|all| + 1) - DoneCount(track.Days), |talkList.talks|, Total(Placed(track.Days))
    {
      err := Round(track, talkList, all, err);
    }
  }
}

/** Tracks: one day of a morning and an afternoon session, chained to the
    next day, which is created only when it is first needed. */
module Tracks {
  import opened Talks
  import opened Sessions

  const MorningMax := 180
  const AfternoonMax := 240

  datatype DayView = DayView(morning: SessionView, afternoon: SessionView)

  /** The day newTrack builds: an empty 180-minute morning and an empty
      240-minute afternoon, neither Done. */
  function FreshDay(): DayView
  {
    DayView(SessionView([], MorningMax, false), SessionView([], AfternoonMax, false))
  }

  predicate Closed(d: DayView)
  {
    d.morning.done && d.afternoon.done
  }

  /** A talk offered to one day goes to the morning session while it is not
      Done, and otherwise to the afternoon session. */
  function DaySet(d: DayView, t: Talk): Outcome<DayView>
    requires !Closed(d)
  {
    if !d.morning.done then
      var r := SessionSet(d.morning, t);
      Outcome(d.(morning := r.state), r.evicted, r.ok)
    else
      var r := SessionSet(d.afternoon, t);
      Outcome(d.(afternoon := r.state), r.evicted, r.ok)
  }

  /** 1 for a chain whose only day is closed, whose next call creates a day. */
  function Exhausted(days: seq<DayView>): nat
  {
    if |days| == 1 && Closed(days[0]) then 1 else 0
  }

  /** Track.set on the chain of days, first day first. */
  function TrackSet(days: seq<DayView>, t: Talk): Outcome<seq<DayView>>
    requires |days| >= 1
    decreases |days|, Exhausted(days)
  {
    var d := days[0];
    if !Closed(d) then
      var r := DaySet(d, t);
      Outcome([r.state] + days[1..], r.evicted, r.ok)
    else
      var rest := if |days| == 1 then [FreshDay()] else days[1..];
      var r := TrackSet(rest, t);
      Outcome([d] + r.state, r.evicted, r.ok)
  }

  /** The first day, in chain order, that is not closed; |days| if none is. */
  function FirstOpenDay(days: seq<DayView>): (k: nat)
    ensures k <= |days|
    ensures k < |days| ==> !Closed(days[k])
  {
    if days == [] then 0
    else if !Closed(days[0]) then 0
    else 1 + FirstOpenDay(days[1..])
  }

  /** Every day before the first open day is closed. */
  lemma {:induction false} FirstOpenDayClosed(days: seq<DayView>)
    ensures forall j :: 0 <= j < FirstOpenDay(days) ==> Closed(days[j])
  {
    if days != [] && Closed(days[0]) {
      FirstOpenDayClosed(days[1..]);
      forall j | 0 < j < FirstOpenDay(days) ensures Closed(days[j]) {
        assert days[j] == days[1..][j - 1];
      }
    }
  }

  /** ([d] + a) with the day at k + 1 replaced is d before a with the day at
      k replaced. */
  lemma UpdateBehind(d: DayView, a: seq<DayView>, k: nat, x: DayView)
    requires k < |a|
    ensures ([d] + a)[k + 1] == a[k]
    ensures ([d] + a)[k + 1 := x] == [d] + a[k := x]
  {
  }

  lemma UpdateFront(a: seq<DayView>, x: DayView)
    requires |a| > 0
    ensures a[0 := x] == [x] + a[1..]
  {
  }

  /** The chain with a fresh day appended when every day is closed: the
      days Track.set can reach. */
  function WithNextDay(days: seq<DayView>): seq<DayView>
  {
    if FirstOpenDay(days) == |days| then days + [FreshDay()] else days
  }

  /** Behind a closed first day, the first open day and WithNextDay are those
      of the rest of the chain (a fresh day when there is no rest). */
  lemma WithNextDayOfClosed(days: seq<DayView>, rest: seq<DayView>)
    requires |days| >= 1 && Closed(days[0])
    requires rest == if |days| == 1 then [FreshDay()] else days[1..]
    ensures FirstOpenDay(days) == 1 + FirstOpenDay(rest)
    ensures WithNextDay(days) == [days[0]] + WithNextDay(rest)
  {
    if |days| == 1 {
      assert days[1..] == [];
      assert FirstOpenDay(rest) == 0;
    }
  }

  /** Track.set on a chain whose first day is closed passes the talk on to
      the rest of the chain and leaves the first day as it was. */
  lemma TrackSetOfClosed(days: seq<DayView>, rest: seq<DayView>, t: Talk)
    requires |days| >= 1 && Closed(days[0])
    requires rest == if |days| == 1 then [FreshDay()] else days[1..]
    ensures var x, y := TrackSet(days, t), TrackSet(rest, t);
      x.state == [days[0]] + y.state && x.evicted == y.evicted && x.ok == y.ok
  {
  }

  /** Track.set over WithNextDay(days): the talk goes to the first open
      day; every other day is left as it was; a new day is appended exactly
      when every existing day is closed; and that one session's answer is
      the answer of the whole call. */
  lemma {:induction false} TrackSetFirstOpen(days: seq<DayView>, t: Talk)
    requires |days| >= 1
    ensures var k := FirstOpenDay(days); var r := DaySet(WithNextDay(days)[k], t);
      TrackSet(days, t).state == WithNextDay(days)[k := r.state] &&
      TrackSet(days, t).evicted == r.evicted && TrackSet(days, t).ok == r.ok
    decreases |days|, Exhausted(days)
  {
    var d := days[0];
    var k := FirstOpenDay(days);
    if Closed(d) {
      var rest := if |days| == 1 then [FreshDay()] else days[1..];
      TrackSetFirstOpen(rest, t);
      WithNextDayOfClosed(days, rest);
      TrackSetOfClosed(days, rest, t);
      var kr := FirstOpenDay(rest);
      var r := DaySet(WithNextDay(rest)[kr], t);
      UpdateBehind(d, WithNextDay(rest), kr, r.state);
    } else {
      assert k == 0 && WithNextDay(days) == days;
      UpdateFront(days, DaySet(d, t).state);
    }
  }

  /** The talks of the whole chain in day order, morning before afternoon. */
  function Placed(days: seq<DayView>): seq<Talk>
  {
    if days == [] then [] else days[0].morning.talks + days[0].afternoon.talks + Placed(days[1..])
  }

  /** The number of Done sessions in the chain. */
  function DoneCount(days: seq<DayView>): nat
  {
    if days == [] then 0
    else (if days[0].morning.done then 1 else 0) + (if days[0].afternoon.done then 1 else 0) + DoneCount(days[1..])
  }

  /** What every day of a planned chain satisfies: the fixed maxima, the
      capacity bounds, talk durations in [0, 240], and a Done afternoon is
      never empty. */
  predicate DayOk(d: DayView)
  {
    d.morning.maxLen == MorningMax && d.afternoon.maxLen == AfternoonMax &&
    Total(d.morning.talks) <= MorningMax && Total(d.afternoon.talks) <= AfternoonMax &&
    Bounded(d.morning.talks) && Bounded(d.afternoon.talks) &&
    (d.afternoon.done ==> d.afternoon.talks != [])
  }

  /** The chain invariant: at least one day, every day DayOk, and every day
      but the last closed. */
  predicate WellFormed(days: seq<DayView>)
  {
    |days| >= 1 &&
    (forall k :: 0 <= k < |days| ==> DayOk(days[k])) &&
    (forall k :: 0 <= k < |days| - 1 ==> Closed(days[k]))
  }

  /** Each session of a well-formed chain keeps getTotalTime() <= MaxLen. */
  lemma WellFormedCapacity(days: seq<DayView>)
    requires WellFormed(days)
    ensures forall k :: 0 <= k < |days| ==>
      Total(days[k].morning.talks) <= days[k].morning.maxLen == 180 &&
      Total(days[k].afternoon.talks) <= days[k].afternoon.maxLen == 240
  {
    forall k | 0 <= k < |days| ensures DayOk(days[k]) { }
  }

  /** A well-formed chain has at most two Done sessions per day and at most
      one day more than it holds talks, since every closed day holds a talk
      in its afternoon. */
  lemma {:induction false} WellFormedSize(days: seq<DayView>)
    requires WellFormed(days)
    ensures DoneCount(days) <= 2 * |days|
    ensures |days| <= |Placed(days)| + 1
    ensures Bounded(Placed(days))
  {
    if |days| > 1 {
      assert DayOk(days[0]) && Closed(days[0]);
      var rest := days[1..];
      assert forall k :: 0 <= k < |rest| ==> rest[k] == days[k + 1];
      WellFormedSize(rest);
    } else {
      assert DayOk(days[0]);
      assert days[1..] == [];
    }
    var p := days[0].morning.talks + days[0].afternoon.talks;
    assert Placed(days) == p + Placed(days[1..]);
    assert Bounded(p) by {
      forall i | 0 <= i < |p| ensures 0 <= p[i].time <= 240 {
        if i >= |days[0].morning.talks| {
          assert p[i] == days[0].afternoon.talks[i - |days[0].morning.talks|];
        }
      }
    }
  }

  /** What one call of Session.set does to a session that was not Done,
      for a talk of [0, 240] minutes. */
  predicate SessionStepped(s: SessionView, t: Talk, o: Outcome<SessionView>)
  {
    o.state.maxLen == s.maxLen && Total(o.state.talks) <= s.maxLen && Bounded(o.state.talks) &&
    (!o.ok ==> (o.state.done && o.evicted.None? && o.state.talks == s.talks &&
                (t.time <= s.maxLen ==> s.talks != []))) &&
    (o.ok ==> o.state.talks != []) &&
    (o.evicted.Some? ==> (o.ok && 0 <= o.evicted.value.time <= 240 && o.evicted.value.time > t.time &&
                          Total(o.state.talks) == Total(s.talks) - o.evicted.value.time + t.time)) &&
    multiset(o.state.talks) + Returned(o.evicted) == multiset(s.talks) + Accepted(o.ok, t)
  }

  /** What one call of Track.set does to a chain, in the terms the planner
      needs: the chain is well formed afterwards; the number of Done sessions
      never falls, and rises on a rejection, which places nothing; an
      eviction gives back a talk longer than t and lowers the minutes placed;
      and talks are conserved. */
  predicate Stepped(days: seq<DayView>, t: Talk, o: Outcome<seq<DayView>>)
  {
    StepKeeps(days, o) && StepEvicts(days, t, o) && StepConserves(days, t, o)
  }

  predicate StepKeeps(days: seq<DayView>, o: Outcome<seq<DayView>>)
  {
    WellFormed(o.state) &&
    DoneCount(o.state) >= DoneCount(days) &&
    (!o.ok ==> (DoneCount(o.state) > DoneCount(days) && o.evicted.None? && Placed(o.state) == Placed(days)))
  }

  predicate StepEvicts(days: seq<DayView>, t: Talk, o: Outcome<seq<DayView>>)
  {
    o.evicted.Some? ==> (o.ok && 0 <= o.evicted.value.time <= 240 && o.evicted.value.time > t.time &&
                         Total(Placed(o.state)) == Total(Placed(days)) - o.evicted.value.time + t.time)
  }

  predicate StepConserves(days: seq<DayView>, t: Talk, o: Outcome<seq<DayView>>)
  {
    multiset(Placed(o.state)) + Returned(o.evicted) == multiset(Placed(days)) + Accepted(o.ok, t)
  }

  lemma SessionStepKeeps(s: SessionView, t: Talk)
    requires Total(s.talks) <= s.maxLen && Bounded(s.talks) && 0 <= t.time <= 240
    ensures var o := SessionSet(s, t);
      o.state.maxLen == s.maxLen && Total(o.state.talks) <= s.maxLen && Bounded(o.state.talks)
  {
    SessionSetCapacity(s, t);
    SessionSetConserves(s, t);
    var o := SessionSet(s, t);
    BoundedPart(o.state.talks, s.talks, t);
  }

  lemma SessionStepRejects(s: SessionView, t: Talk)
    requires Total(s.talks) <= s.maxLen
    ensures var o := SessionSet(s, t);
      !o.ok ==> (o.state.done && o.evicted.None? && o.state.talks == s.talks &&
                 (t.time <= s.maxLen ==> s.talks != []))
  {
    SessionSetRejection(s, t);
    var o := SessionSet(s, t);
    if !o.ok && t.time <= s.maxLen {
      assert Total(s.talks) > 0;
    }
  }

  lemma SessionStepEvicts(s: SessionView, t: Talk)
    requires Total(s.talks) <= s.maxLen && Bounded(s.talks)
    ensures var o := SessionSet(s, t);
      (o.ok ==> o.state.talks != []) &&
      (o.evicted.Some? ==> (o.ok && 0 <= o.evicted.value.time <= 240 && o.evicted.value.time > t.time &&
                            Total(o.state.talks) == Total(s.talks) - o.evicted.value.time + t.time))
  {
    SessionSetEviction(s, t);
    SessionSetSuccess(s, t);
    var gone := Evictee(s, t);
    if gone.Some? {
      assert 0 <= s.talks[gone.value].time <= 240;
    }
  }

  lemma SessionStep(s: SessionView, t: Talk)
    requires Total(s.talks) <= s.maxLen && Bounded(s.talks) && !s.done && 0 <= t.time <= 240
    ensures SessionStepped(s, t, SessionSet(s, t))
  {
    SessionStepKeeps(s, t);
    SessionStepRejects(s, t);
    SessionStepEvicts(s, t);
    SessionSetConserves(s, t);
  }

  lemma PlacedOne(d: DayView)
    ensures Placed([d]) == d.morning.talks + d.afternoon.talks
    ensures DoneCount([d]) == (if d.morning.done then 1 else 0) + (if d.afternoon.done then 1 else 0)
  {
    assert [d][1..] == [];
  }

  /** A one-day step whose minute totals move as an eviction requires. */
  lemma DayEvicts(d: DayView, e: DayView, t: Talk, ev: Option<Talk>, ok: bool)
    requires ev.Some? ==>
      (ok && 0 <= ev.value.time <= 240 && ev.value.time > t.time &&
       Total(e.morning.talks) + Total(e.afternoon.talks) ==
       Total(d.morning.talks) + Total(d.afternoon.talks) - ev.value.time + t.time)
    ensures StepEvicts([d], t, Outcome([e], ev, ok))
  {
    PlacedOne(d);
    PlacedOne(e);
    TotalConcat(d.morning.talks, d.afternoon.talks);
    TotalConcat(e.morning.talks, e.afternoon.talks);
  }

  /** A one-day step whose sessions together conserve the talks. */
  lemma DayConserves(d: DayView, e: DayView, t: Talk, ev: Option<Talk>, ok: bool)
    requires multiset(e.morning.talks) + multiset(e.afternoon.talks) + Returned(ev) ==
      multiset(d.morning.talks) + multiset(d.afternoon.talks) + Accepted(ok, t)
    ensures StepConserves([d], t, Outcome([e], ev, ok))
  {
    PlacedOne(d);
    PlacedOne(e);
    assert multiset(Placed([e])) == multiset(e.morning.talks) + multiset(e.afternoon.talks);
    assert multiset(Placed([d])) == multiset(d.morning.talks) + multiset(d.afternoon.talks);
  }

  lemma MorningKeeps(d: DayView, t: Talk, o: Outcome<SessionView>)
    requires DayOk(d) && !d.morning.done && 0 <= t.time <= 240
    requires SessionStepped(d.morning, t, o)
    ensures StepKeeps([d], Outcome([d.(morning := o.state)], o.evicted, o.ok))
  {
    var e := d.(morning := o.state);
    PlacedOne(d);
    PlacedOne(e);
    assert DayOk(e);
  }

  /** The step of a day whose morning session takes the talk. */
  lemma MorningStep(d: DayView, t: Talk, o: Outcome<SessionView>)
    requires DayOk(d) && !d.morning.done && 0 <= t.time <= 240
    requires SessionStepped(d.morning, t, o)
    ensures Stepped([d], t, Outcome([d.(morning := o.state)], o.evicted, o.ok))
  {
    var e := d.(morning := o.state);
    MorningKeeps(d, t, o);
    DayEvicts(d, e, t, o.evicted, o.ok);
    var R, A := Returned(o.evicted), Accepted(o.ok, t);
    calc {
      multiset(e.morning.talks) + multiset(e.afternoon.talks) + R;
      (multiset(o.state.talks) + R) + multiset(d.afternoon.talks);
      (multiset(d.morning.talks) + A) + multiset(d.afternoon.talks);
      multiset(d.morning.talks) + multiset(d.afternoon.talks) + A;
    }
    DayConserves(d, e, t, o.evicted, o.ok);
  }

  lemma AfternoonKeeps(d: DayView, t: Talk, o: Outcome<SessionView>)
    requires DayOk(d) && d.morning.done && !d.afternoon.done && 0 <= t.time <= 240
    requires SessionStepped(d.afternoon, t, o)
    ensures StepKeeps([d], Outcome([d.(afternoon := o.state)], o.evicted, o.ok))
  {
    var e := d.(afternoon := o.state);
    PlacedOne(d);
    PlacedOne(e);
    assert e.afternoon.talks != [] by {
      if !o.ok { assert o.state.talks == d.afternoon.talks; }
    }
    assert DayOk(e);
    assert DoneCount([e]) == 1 + (if o.state.done then 1 else 0);
  }

  /** The step of a day whose afternoon session takes the talk. */
  lemma AfternoonStep(d: DayView, t: Talk, o: Outcome<SessionView>)
    requires DayOk(d) && d.morning.done && !d.afternoon.done && 0 <= t.time <= 240
    requires SessionStepped(d.afternoon, t, o)
    ensures Stepped([d], t, Outcome([d.(afternoon := o.state)], o.evicted, o.ok))
  {
    var e := d.(afternoon := o.state);
    AfternoonKeeps(d, t, o);
    DayEvicts(d, e, t, o.evicted, o.ok);
    var R, A := Returned(o.evicted), Accepted(o.ok, t);
    calc {
      multiset(e.morning.talks) + multiset(e.afternoon.talks) + R;
      multiset(d.morning.talks) + (multiset(o.state.talks) + R);
      multiset(d.morning.talks) + (multiset(d.afternoon.talks) + A);
      multiset(d.morning.talks) + multiset(d.afternoon.talks) + A;
    }
    DayConserves(d, e, t, o.evicted, o.ok);
  }

  /** A closed day in front of a chain's step leaves the step's facts intact. */
  lemma PrependClosed(d: DayView, days: seq<DayView>, rest: seq<DayView>, t: Talk, r: Outcome<seq<DayView>>)
    requires DayOk(d) && Closed(d) && Stepped(rest, t, r)
    requires Placed(days) == d.morning.talks + d.afternoon.talks + Placed(rest)
    requires DoneCount(days) == 2 + DoneCount(rest)
    ensures Stepped(days, t, Outcome([d] + r.state, r.evicted, r.ok))
  {
    var o := [d] + r.state;
    assert o[1..] == r.state;
    assert Placed(o) == d.morning.talks + d.afternoon.talks + Placed(r.state);
    assert DoneCount(o) == 2 + DoneCount(r.state);
    PrependKeeps(d, days, rest, r);
    PrependEvicts(d, days, rest, t, r);
    PrependConserves(d, days, rest, t, r);
  }

  lemma PrependKeeps(d: DayView, days: seq<DayView>, rest: seq<DayView>, r: Outcome<seq<DayView>>)
    requires DayOk(d) && Closed(d) && StepKeeps(rest, r)
    requires Placed(days) == d.morning.talks + d.afternoon.talks + Placed(rest)
    requires DoneCount(days) == 2 + DoneCount(rest)
    requires Placed([d] + r.state) == d.morning.talks + d.afternoon.talks + Placed(r.state)
    requires DoneCount([d] + r.state) == 2 + DoneCount(r.state)
    ensures StepKeeps(days, Outcome([d] + r.state, r.evicted, r.ok))
  {
    WellFormedPrepend(d, r.state);
  }

  /** A closed day in front of a well-formed chain gives a well-formed chain. */
  lemma WellFormedPrepend(d: DayView, a: seq<DayView>)
    requires DayOk(d) && Closed(d) && WellFormed(a)
    ensures WellFormed([d] + a)
  {
    var o := [d] + a;
    forall k | 0 <= k < |o| ensures DayOk(o[k]) && (k < |o| - 1 ==> Closed(o[k])) {
      if k > 0 { assert o[k] == a[k - 1]; }
    }
  }

  lemma PrependEvicts(d: DayView, days: seq<DayView>, rest: seq<DayView>, t: Talk, r: Outcome<seq<DayView>>)
    requires StepEvicts(rest, t, r)
    requires Placed(days) == d.morning.talks + d.afternoon.talks + Placed(rest)
    requires Placed([d] + r.state) == d.morning.talks + d.afternoon.talks + Placed(r.state)
    ensures StepEvicts(days, t, Outcome([d] + r.state, r.evicted, r.ok))
  {
    var p := d.morning.talks + d.afternoon.talks;
    TotalConcat(p, Placed(r.state));
    TotalConcat(p, Placed(rest));
  }

  lemma PrependConserves(d: DayView, days: seq<DayView>, rest: seq<DayView>, t: Talk, r: Outcome<seq<DayView>>)
    requires StepConserves(rest, t, r)
    requires Placed(days) == d.morning.talks + d.afternoon.talks + Placed(rest)
    requires Placed([d] + r.state) == d.morning.talks + d.afternoon.talks + Placed(r.state)
    ensures StepConserves(days, t, Outcome([d] + r.state, r.evicted, r.ok))
  {
    var p := d.morning.talks + d.afternoon.talks;
    var R, A := Returned(r.evicted), Accepted(r.ok, t);
    calc {
      multiset(Placed([d] + r.state)) + R;
      multiset(p) + (multiset(Placed(r.state)) + R);
      multiset(p) + (multiset(Placed(rest)) + A);
      multiset(Placed(days)) + A;
    }
  }

  /** Track.set on a one-day chain whose morning is open. */
  lemma TrackSetMorning(days: seq<DayView>, t: Talk)
    requires |days| == 1 && !days[0].morning.done
    ensures var d := days[0]; var o := SessionSet(d.morning, t);
      TrackSet(days, t) == Outcome([d.(morning := o.state)], o.evicted, o.ok)
  {
    var d := days[0];
    var r := DaySet(d, t);
    var o := SessionSet(d.morning, t);
    assert r.state == d.(morning := o.state) && r.ok == o.ok && r.evicted == o.evicted;
    var x := TrackSet(days, t);
    assert x.state == [r.state] + days[1..];
    assert days[1..] == [];
    assert x == Outcome(x.state, x.evicted, x.ok);
    assert x.state == [d.(morning := o.state)];
    assert x == Outcome([d.(morning := o.state)], o.evicted, o.ok);
  }

  /** Track.set on a one-day chain whose morning is Done and afternoon open. */
  lemma TrackSetAfternoon(days: seq<DayView>, t: Talk)
    requires |days| == 1 && days[0].morning.done && !days[0].afternoon.done
    ensures var d := days[0]; var o := SessionSet(d.afternoon, t);
      TrackSet(days, t) == Outcome([d.(afternoon := o.state)], o.evicted, o.ok)
  {
    var d := days[0];
    var r := DaySet(d, t);
    var o := SessionSet(d.afternoon, t);
    assert r.state == d.(afternoon := o.state) && r.ok == o.ok && r.evicted == o.evicted;
    var x := TrackSet(days, t);
    assert x.state == [r.state] + days[1..];
    assert days[1..] == [];
    assert x == Outcome(x.state, x.evicted, x.ok);
    assert x.state == [d.(afternoon := o.state)];
    assert x == Outcome([d.(afternoon := o.state)], o.evicted, o.ok);
  }

  /** Track.set's step on a well-formed chain, for a talk of [0, 240]
      minutes: see Stepped. */
  lemma {:induction false} TrackSetStep(days: seq<DayView>, t: Talk)
    requires WellFormed(days) && 0 <= t.time <= 240
    ensures Stepped(days, t, TrackSet(days, t))
    decreases |days|, Exhausted(days)
  {
    var d := days[0];
    assert DayOk(d);
    if !Closed(d) {
      assert |days| == 1 && days == [d];
      if !d.morning.done {
        SessionStep(d.morning, t);
        MorningStep(d, t, SessionSet(d.morning, t));
        TrackSetMorning(days, t);
      } else {
        SessionStep(d.afternoon, t);
        AfternoonStep(d, t, SessionSet(d.afternoon, t));
        TrackSetAfternoon(days, t);
      }
    } else {
      var rest := if |days| == 1 then [FreshDay()] else days[1..];
      assert WellFormed(rest) by {
        if |days| > 1 {
          assert forall k :: 0 <= k < |rest| ==> rest[k] == days[k + 1];
        }
      }
      TrackSetStep(rest, t);
      if |days| == 1 {
        assert days == [d];
        PlacedOne(d);
        PlacedOne(FreshDay());
      }
      var r := TrackSet(rest, t);
      PrependClosed(d, days, rest, t, r);
    }
  }

  /** A day of the chain (`Track` of the source), holding its two sessions
      and the lazily created next day. Days is the chain from this day on. */
  class Track {
    const morning: Session
    const afternoon: Session
    var nextDay: Track?
    ghost var Days: seq<DayView>
    ghost var Repr: set<object>

    ghost predicate Valid()
      reads this, Repr
      decreases Repr
    {
      this in Repr && morning in Repr && afternoon in Repr && morning != afternoon &&
      |Days| >= 1 && Days[0] == DayView(morning.View(), afternoon.View()) &&
      (nextDay == null ==> |Days| == 1) &&
      (nextDay != null ==>
        nextDay in Repr && nextDay.Repr <= Repr && this !in nextDay.Repr &&
        morning !in nextDay.Repr && afternoon !in nextDay.Repr &&
        nextDay.Valid() && Days[1..] == nextDay.Days)
    }

    /** newTrack. */
    constructor ()
      ensures Valid() && fresh(Repr)
      ensures Days == [FreshDay()] && nextDay == null
    {
      morning := new Session(MorningMax);
      afternoon := new Session(AfternoonMax);
      nextDay := null;
      Days := [FreshDay()];
      Repr := {this, morning, afternoon};
    }

    /** Track.set: the morning session while it is not Done, else the
        afternoon session while it is not Done, else the next day, created
        here if it does not yet exist. */
    method Set(t: Talk, q: TalkList) returns (ok: bool)
      requires Valid() && q !in Repr
      modifies Repr, q
      ensures Valid() && fresh(Repr - old(Repr)) && q !in Repr
      ensures var o := TrackSet(old(Days), t);
        Days == o.state && ok == o.ok && q.talks == Requeue(old(q.talks), o.evicted)
      decreases |Days|, Exhausted(Days)
    {
      if !morning.done {
        ok := morning.Set(t, q);
        Days := [DayView(morning.View(), afternoon.View())] + Days[1..];
      } else if !afternoon.done {
        ok := afternoon.Set(t, q);
        Days := [DayView(morning.View(), afternoon.View())] + Days[1..];
      } else {
        if nextDay == null {
          nextDay := new Track();
          Repr := Repr + nextDay.Repr;
          Days := Days + nextDay.Days;
        }
        ok := nextDay.Set(t, q);
        Repr := Repr + nextDay.Repr;
        Days := [Days[0]] + nextDay.Days;
      }
    }
  }
}

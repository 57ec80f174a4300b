/** A session: a capacity-bounded, ordered list of talks with a `Done` flag,
    and its insertion rule with one-step eviction. */
module Sessions {
  import opened Talks

  /** The value of a session: its talks in the order they were added, its
      maximum length in minutes, and whether it is closed. */
  datatype SessionView = SessionView(talks: seq<Talk>, maxLen: int, done: bool)

  /** What one insertion does: the new state, the talk sent back to the
      pending queue (if any), and whether the incoming talk was accepted. */
  datatype Outcome<S> = Outcome(state: S, evicted: Option<Talk>, ok: bool)

  /** The pending queue after an insertion that evicted ev (if anything). */
  function Requeue(q: seq<Talk>, ev: Option<Talk>): seq<Talk>
  {
    if ev.Some? then Inserted(q, ev.value) else q
  }

  /** The talk an insertion sent back to the queue, as a multiset. */
  function Returned(ev: Option<Talk>): multiset<Talk>
  {
    if ev.Some? then multiset{ev.value} else multiset{}
  }

  /** The incoming talk t if it was accepted, as a multiset. */
  function Accepted(ok: bool, t: Talk): multiset<Talk>
  {
    if ok then multiset{t} else multiset{}
  }

  /** Frees(s, i, t, room): removing s[i] and adding t leaves the session
      within its maximum, in the source's form `s[i].time - t.time > room`. */
  predicate Frees(s: seq<Talk>, i: nat, t: Talk, room: int)
    requires i < |s|
  {
    s[i].time - t.time > room
  }

  /** The eviction scan: the index of the most recently added talk (the
      highest index) whose removal frees more than room, or None. */
  function LastFreeing(s: seq<Talk>, t: Talk, room: int): (r: Option<nat>)
    ensures r.Some? ==> r.value < |s| && Frees(s, r.value, t, room)
    ensures r.Some? ==> forall j :: r.value < j < |s| ==> !Frees(s, j, t, room)
    ensures r.None? ==> forall j :: 0 <= j < |s| ==> !Frees(s, j, t, room)
  {
    if s == [] then None
    else if Frees(s, |s| - 1, t, room) then Some(|s| - 1)
    else
      var r := LastFreeing(s[..|s| - 1], t, room);
      assert forall j :: 0 <= j < |s| - 1 ==> (Frees(s[..|s| - 1], j, t, room) <==> Frees(s, j, t, room));
      r
  }

  /** The conditions LastFreeing's contract states determine its result. */
  lemma LastFreeingIs(s: seq<Talk>, t: Talk, room: int, i: nat)
    requires i < |s| && Frees(s, i, t, room)
    requires forall j :: i < j < |s| ==> !Frees(s, j, t, room)
    ensures LastFreeing(s, t, room) == Some(i)
  {
  }

  /** Index of the talk that Session.set evicts for t: the scan runs only
      when t does not fit. */
  function Evictee(s: SessionView, t: Talk): Option<nat>
  {
    if Total(s.talks) + t.time > s.maxLen then LastFreeing(s.talks, t, s.maxLen - Total(s.talks)) else None
  }

  /** The session's talks once the eviction (if any) has happened. */
  function Kept(s: SessionView, t: Talk): seq<Talk>
  {
    var gone := Evictee(s, t);
    if gone.Some? then RemoveAt(s.talks, gone.value) else s.talks
  }

  /** Session.set on values. */
  function SessionSet(s: SessionView, t: Talk): Outcome<SessionView>
  {
    var gone := Evictee(s, t);
    var kept := Kept(s, t);
    var evicted := if gone.Some? then Some(s.talks[gone.value]) else None;
    if Total(kept) + t.time > s.maxLen then
      Outcome(s.(talks := kept, done := true), evicted, false)
    else
      Outcome(s.(talks := kept + [t], done := s.done || Total(kept + [t]) == s.maxLen), evicted, true)
  }

  /** The capacity bound `getTotalTime() <= MaxLen` survives every insertion,
      and the maximum itself never changes. */
  lemma SessionSetCapacity(s: SessionView, t: Talk)
    requires Total(s.talks) <= s.maxLen
    ensures var o := SessionSet(s, t);
      o.state.maxLen == s.maxLen && Total(o.state.talks) <= s.maxLen
  {
    var gone := Evictee(s, t);
    if gone.Some? { TotalRemove(s.talks, gone.value); }
    TotalAppend(Kept(s, t), t);
  }

  /** Eviction happens only when t does not fit; the talk evicted is the
      last-added one whose removal frees enough room; it is longer than t;
      and t is then always accepted, with the total strictly below the
      maximum and the Done flag left as it was. */
  lemma SessionSetEviction(s: SessionView, t: Talk)
    requires Total(s.talks) <= s.maxLen
    ensures var o := SessionSet(s, t); var room := s.maxLen - Total(s.talks);
      o.evicted.Some? <==> (Total(s.talks) + t.time > s.maxLen && LastFreeing(s.talks, t, room).Some?)
    ensures var o := SessionSet(s, t); var room := s.maxLen - Total(s.talks);
      o.evicted.Some? ==>
        var i := LastFreeing(s.talks, t, room).value;
        o.evicted.value == s.talks[i] && o.evicted.value.time > t.time &&
        (forall j :: i < j < |s.talks| ==> s.talks[j].time - t.time <= room) &&
        o.ok && o.state.talks == RemoveAt(s.talks, i) + [t] &&
        Total(o.state.talks) == Total(s.talks) - s.talks[i].time + t.time &&
        Total(o.state.talks) < s.maxLen && o.state.done == s.done
  {
    var gone := Evictee(s, t);
    if gone.Some? {
      var i := gone.value;
      var room := s.maxLen - Total(s.talks);
      assert Frees(s.talks, i, t, room);
      var kept := Kept(s, t);
      assert kept == RemoveAt(s.talks, i);
      TotalRemove(s.talks, i);
      assert Total(kept) == Total(s.talks) - s.talks[i].time;
      assert Total(kept) + t.time < s.maxLen;
      TotalAppend(kept, t);
      forall j | i < j < |s.talks| ensures s.talks[j].time - t.time <= room {
        assert !Frees(s.talks, j, t, room);
      }
    }
  }

  /** A rejected talk leaves the session's talks and the pending queue as they
      were and closes the session. A rejection needs no eviction to have
      happened, since an eviction always makes room. */
  lemma SessionSetRejection(s: SessionView, t: Talk)
    requires Total(s.talks) <= s.maxLen
    ensures var o := SessionSet(s, t);
      !o.ok <==> (Total(s.talks) + t.time > s.maxLen && LastFreeing(s.talks, t, s.maxLen - Total(s.talks)).None?)
    ensures var o := SessionSet(s, t);
      !o.ok ==> o.evicted.None? && o.state == s.(done := true)
  {
    SessionSetEviction(s, t);
  }

  /** An accepted talk is appended at the back (after at most one eviction);
      the session becomes Done exactly when the new total equals the maximum
      (or stays Done if it already was). */
  lemma SessionSetSuccess(s: SessionView, t: Talk)
    requires Total(s.talks) <= s.maxLen
    ensures var o := SessionSet(s, t);
      o.ok ==> |o.state.talks| > 0 && o.state.talks[|o.state.talks| - 1] == t &&
               o.state.done == (s.done || Total(o.state.talks) == s.maxLen)
    ensures var o := SessionSet(s, t);
      (o.ok && o.evicted.None?) ==> o.state.talks == s.talks + [t] && Total(o.state.talks) == Total(s.talks) + t.time
  {
    var o := SessionSet(s, t);
    if o.ok && o.evicted.None? { TotalAppend(s.talks, t); }
  }

  /** No insertion ever reopens a closed session. */
  lemma SessionSetMonotone(s: SessionView, t: Talk)
    ensures s.done ==> SessionSet(s, t).state.done
  {
  }

  /** Talks are neither created nor lost: what the session holds afterwards
      plus what it evicted equals what it held before plus t if accepted. */
  lemma SessionSetConserves(s: SessionView, t: Talk)
    ensures var o := SessionSet(s, t);
      multiset(o.state.talks) + Returned(o.evicted)
      == multiset(s.talks) + Accepted(o.ok, t)
  {
  }

  /** A session with its talks held in place; `talk` of the source. */
  class Session {
    var talks: seq<Talk>
    const maxLen: int
    var done: bool

    function View(): SessionView
      reads this
    {
      SessionView(talks, maxLen, done)
    }

    constructor (maxLen: int)
      ensures View() == SessionView([], maxLen, false)
    {
      this.maxLen := maxLen;
      talks := [];
      done := false;
    }

    /** getTotalTime. */
    function TotalTime(): int
      reads this
    {
      Total(talks)
    }

    /** Session.set: if t does not fit, scan from the back for a talk whose
        removal frees enough room and send it back to the pending queue q;
        then append t, or reject it and close the session. */
    method Set(t: Talk, q: TalkList) returns (ok: bool)
      modifies this, q
      ensures var o := SessionSet(old(View()), t);
        View() == o.state && ok == o.ok && q.talks == Requeue(old(q.talks), o.evicted)
    {
      ghost var s0 := talks;
      ghost var v0 := View();
      ghost var room := maxLen - Total(s0);
      ghost var gone: Option<nat> := None;
      if TotalTime() + t.time > maxLen {
        var e := |talks| - 1;
        while e >= 0
          invariant -1 <= e < |s0|
          invariant gone.None? ==> talks == s0 && q.talks == old(q.talks)
          invariant gone.None? ==> forall j :: e < j < |s0| ==> !Frees(s0, j, t, room)
          invariant gone.Some? ==> e == -1 && gone == LastFreeing(s0, t, room)
          invariant gone.Some? ==> talks == RemoveAt(s0, gone.value) && q.talks == Inserted(old(q.talks), s0[gone.value])
          invariant done == old(done)
        {
          var next := e - 1;
          if talks[e].time - t.time > maxLen - TotalTime() {
            var x := talks[e];
            talks := talks[..e] + talks[e + 1..];
            q.Put(x);
            gone := Some(e);
            LastFreeingIs(s0, t, room, e);
            // list.Remove clears e's links, so e.Prev() is nil and the scan ends
            next := -1;
          }
          e := next;
        }
        assert gone == LastFreeing(s0, t, room);
      }
      assert gone == Evictee(v0, t) && talks == Kept(v0, t);
      ghost var o := SessionSet(v0, t);
      assert o.evicted == (if gone.Some? then Some(s0[gone.value]) else None);
      assert q.talks == Requeue(old(q.talks), o.evicted);
      if TotalTime() + t.time > maxLen {
        ok := false;
        done := true;
      } else {
        talks := talks + [t];
        ok := true;
        if TotalTime() == maxLen {
          done := true;
        }
      }
    }
  }
}

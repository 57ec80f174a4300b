/** Talks and the pending-talk queue.

    A talk is a title and a duration in minutes. The pending queue is the
    doubly linked list that both the planner and the sessions write into; here
    it is an object whose contents are a sequence, and each insertion puts the
    new talk immediately before the first queued talk that is not longer. */
module Talks {

  datatype Option<T> = None | Some(value: T)

  datatype Talk = Talk(title: string, time: int)

  /** Sum of the durations of a sequence of talks; 0 for the empty sequence. */
  function Total(s: seq<Talk>): int
  {
    if s == [] then 0 else Total(s[..|s| - 1]) + s[|s| - 1].time
  }

  lemma TotalAppend(s: seq<Talk>, t: Talk)
    ensures Total(s + [t]) == Total(s) + t.time
  {
    assert (s + [t])[..|s|] == s;
  }

  lemma {:induction false} TotalConcat(a: seq<Talk>, b: seq<Talk>)
    ensures Total(a + b) == Total(a) + Total(b)
    decreases |b|
  {
    if b == [] {
      assert a + b == a;
    } else {
      var b' := b[..|b| - 1];
      assert (a + b)[..|a + b| - 1] == a + b';
      TotalConcat(a, b');
    }
  }

  /** Removing the talk at index i takes exactly its duration off the total. */
  lemma {:induction false} TotalRemove(s: seq<Talk>, i: nat)
    requires i < |s|
    ensures Total(s[..i] + s[i + 1..]) == Total(s) - s[i].time
  {
    TotalConcat(s[..i], s[i + 1..]);
    TotalConcat(s[..i], [s[i]] + s[i + 1..]);
    TotalConcat([s[i]], s[i + 1..]);
    assert s == s[..i] + ([s[i]] + s[i + 1..]);
    assert Total([s[i]]) == s[i].time by { assert [s[i]][..0] == []; }
  }

  /** Every talk in s lasts from 0 to 240 minutes. */
  predicate Bounded(s: seq<Talk>)
  {
    forall i :: 0 <= i < |s| ==> 0 <= s[i].time <= 240
  }

  /** A sequence made of talks of s and of t keeps the duration bound. */
  lemma BoundedPart(n: seq<Talk>, s: seq<Talk>, t: Talk)
    requires Bounded(s) && 0 <= t.time <= 240
    requires multiset(n) <= multiset(s) + multiset{t}
    ensures Bounded(n)
  {
    forall i | 0 <= i < |n| ensures 0 <= n[i].time <= 240 {
      assert n[i] in multiset(n);
      if n[i] != t {
        assert n[i] in multiset(s);
        assert n[i] in s;
      }
    }
  }

  lemma {:induction false} TotalNonNegative(s: seq<Talk>)
    requires Bounded(s)
    ensures Total(s) >= 0
  {
    if s != [] {
      TotalNonNegative(s[..|s| - 1]);
    }
  }

  /** Durations never increase from the front of the queue to its back. */
  predicate NonIncreasing(q: seq<Talk>)
  {
    forall i, j :: 0 <= i < j < |q| ==> q[i].time >= q[j].time
  }

  /** Index of the first queued talk that is not longer than t, or |q| if
      every queued talk is longer. */
  function InsertPos(q: seq<Talk>, t: Talk): (k: nat)
    ensures k <= |q|
  {
    if q == [] then 0
    else if t.time >= q[0].time then 0
    else 1 + InsertPos(q[1..], t)
  }

  /** Every talk ahead of the insertion point is longer than t, and the talk
      at the insertion point (if any) is not. */
  lemma {:induction false} InsertPosSpec(q: seq<Talk>, t: Talk)
    ensures var k := InsertPos(q, t);
      (forall j :: 0 <= j < k ==> q[j].time > t.time) &&
      (k < |q| ==> q[k].time <= t.time)
  {
    if q != [] && t.time < q[0].time {
      InsertPosSpec(q[1..], t);
      var k := InsertPos(q, t);
      forall j | 0 <= j < k ensures q[j].time > t.time {
        if j > 0 { assert q[j] == q[1..][j - 1]; }
      }
    }
  }

  /** The insertion point is the only index with those two properties. */
  lemma {:induction false} InsertPosIs(q: seq<Talk>, t: Talk, k: nat)
    requires k <= |q|
    requires forall j :: 0 <= j < k ==> q[j].time > t.time
    requires k < |q| ==> q[k].time <= t.time
    ensures InsertPos(q, t) == k
  {
    if k > 0 {
      assert q[0].time > t.time;
      forall j | 0 <= j < k - 1 ensures q[1..][j].time > t.time {
        assert q[1..][j] == q[j + 1];
      }
      if k - 1 < |q| - 1 { assert q[1..][k - 1] == q[k]; }
      InsertPosIs(q[1..], t, k - 1);
    }
  }

  /** q with t inserted at InsertPos(q, t). */
  function Inserted(q: seq<Talk>, t: Talk): seq<Talk>
  {
    var k := InsertPos(q, t);
    q[..k] + [t] + q[k..]
  }

  /** Inserting adds exactly t and keeps every queued talk in its relative
      order. */
  lemma InsertedShape(q: seq<Talk>, t: Talk)
    ensures var r := Inserted(q, t); var k := InsertPos(q, t);
      |r| == |q| + 1 && r[k] == t && r[..k] + r[k + 1..] == q &&
      multiset(r) == multiset(q) + multiset{t}
  {
    var k := InsertPos(q, t);
    var r := Inserted(q, t);
    var a, b := q[..k], q[k..];
    assert r[..k] == a && r[k + 1..] == b;
    assert q == a + b;
    calc {
      multiset(r);
      multiset(a + [t]) + multiset(b);
      multiset(a) + multiset{t} + multiset(b);
      multiset(a + b) + multiset{t};
    }
  }

  /** t goes in ahead of every queued talk of equal duration. */
  lemma InsertedAhead(q: seq<Talk>, t: Talk, j: nat)
    requires j < |q| && q[j].time == t.time
    ensures InsertPos(q, t) <= j
  {
    InsertPosSpec(q, t);
  }

  /** A non-increasing queue stays non-increasing after an insertion. */
  lemma InsertedSorted(q: seq<Talk>, t: Talk)
    requires NonIncreasing(q)
    ensures NonIncreasing(Inserted(q, t))
  {
    var k := InsertPos(q, t);
    var r := Inserted(q, t);
    InsertPosSpec(q, t);
    forall i, j | 0 <= i < j < |r| ensures r[i].time >= r[j].time {
      if j < k {
        assert r[i] == q[i] && r[j] == q[j];
      } else if j == k {
        assert r[i] == q[i];
      } else if i < k {
        assert r[i] == q[i] && r[j] == q[j - 1];
      } else if i == k {
        assert r[j] == q[j - 1];
        assert q[k].time <= t.time;
        if k < j - 1 { assert q[k].time >= q[j - 1].time; }
      } else {
        assert r[i] == q[i - 1] && r[j] == q[j - 1];
      }
    }
  }

  /** A talk longer than the talk at index i is inserted at or before i. */
  lemma InsertedBefore(q: seq<Talk>, x: Talk, i: nat)
    requires i < |q| && q[i].time < x.time
    ensures InsertPos(q, x) <= i
    ensures Inserted(q, x)[i + 1..] == q[i..]
  {
    var k := InsertPos(q, x);
    InsertPosSpec(q, x);
    assert k <= i;
    assert Inserted(q, x)[i + 1..] == q[k..][i - k..];
  }

  /** q with the element at index i taken out (list.Remove). */
  function RemoveAt(q: seq<Talk>, i: nat): (r: seq<Talk>)
    requires i < |q|
    ensures |r| == |q| - 1
    ensures multiset(r) + multiset{q[i]} == multiset(q)
  {
    assert q == q[..i] + [q[i]] + q[i + 1..];
    q[..i] + q[i + 1..]
  }

  lemma RemoveAtSorted(q: seq<Talk>, i: nat)
    requires i < |q| && NonIncreasing(q)
    ensures NonIncreasing(RemoveAt(q, i))
  {
    var r := RemoveAt(q, i);
    forall a, b | 0 <= a < b < |r| ensures r[a].time >= r[b].time {
      var a' := if a < i then a else a + 1;
      var b' := if b < i then b else b + 1;
      assert r[a] == q[a'] && r[b] == q[b'];
    }
  }

  lemma RemoveAtBounded(q: seq<Talk>, i: nat)
    requires i < |q| && Bounded(q)
    ensures Bounded(RemoveAt(q, i))
  {
    var r := RemoveAt(q, i);
    forall j | 0 <= j < |r| ensures 0 <= r[j].time <= 240 {
      assert r[j] == (if j < i then q[j] else q[j + 1]);
    }
  }

  /** The pending queue (the global `talkList` of the program). */
  class TalkList {
    var talks: seq<Talk>

    constructor ()
      ensures talks == []
    {
      talks := [];
    }

    /** putToTalkList: an empty list gets t at its front; otherwise t goes
        before the first element e with t.time >= e.time, or at the back. */
    method Put(t: Talk)
      modifies this
      ensures talks == Inserted(old(talks), t)
    {
      if |talks| == 0 {
        InsertPosIs(talks, t, 0);
        talks := [t];
        return;
      }
      var e := 0;
      while e < |talks|
        invariant 0 <= e <= |talks|
        invariant talks == old(talks)
        invariant forall j :: 0 <= j < e ==> talks[j].time > t.time
      {
        if t.time >= talks[e].time {
          InsertPosIs(talks, t, e);
          talks := talks[..e] + [t] + talks[e..];
          return;
        }
        e := e + 1;
      }
      InsertPosIs(talks, t, e);
      talks := talks + [t];
    }

    /** list.Remove of the element at index i. */
    method Remove(i: nat)
      requires i < |talks|
      modifies this
      ensures talks == RemoveAt(old(talks), i)
    {
      talks := talks[..i] + talks[i + 1..];
    }
  }
}

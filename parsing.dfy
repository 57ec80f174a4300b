/** Reading the talk list: each input line is a title, a space, and either
    `lightning` (a 5-minute talk) or a decimal number followed by `min`. */
module Parsing {
  import opened Talks

  /** The range of Go's `int` on a 64-bit platform, which strconv.Atoi
      checks. */
  const MinInt64 := -0x8000_0000_0000_0000
  const MaxInt64 := 0x7fff_ffff_ffff_ffff

  /** strings.LastIndex(s, " "): the index of the last space in s, or -1. */
  function LastSpace(s: string): (n: int)
    ensures -1 <= n < |s|
    ensures n >= 0 ==> s[n] == ' '
    ensures forall j :: n < j < |s| ==> s[j] != ' '
  {
    if s == [] then -1
    else if s[|s| - 1] == ' ' then |s| - 1
    else LastSpace(s[..|s| - 1])
  }

  /** The last space of title + " " + w is the one after the title when w
      holds no space. */
  lemma LastSpaceAfter(title: string, w: string)
    requires forall j :: 0 <= j < |w| ==> w[j] != ' '
    ensures LastSpace(title + " " + w) == |title|
  {
    var s := title + " " + w;
    var n := LastSpace(s);
    assert s[|title|] == ' ';
  }

  predicate IsDigit(c: char)
  {
    '0' <= c <= '9'
  }

  predicate AllDigits(s: string)
  {
    forall i :: 0 <= i < |s| ==> IsDigit(s[i])
  }

  /** The value of a string of decimal digits, most significant first. */
  function DigitsValue(s: string): nat
    requires AllDigits(s)
  {
    if s == [] then 0 else DigitsValue(s[..|s| - 1]) * 10 + (s[|s| - 1] as int - '0' as int)
  }

  /** strconv.Atoi: an optional sign, then one or more decimal digits, and a
      value in the range of a 64-bit int; anything else is an error (None). */
  function Atoi(s: string): (r: Option<int>)
    ensures r.Some? ==> MinInt64 <= r.value <= MaxInt64
  {
    var signed := |s| > 0 && (s[0] == '-' || s[0] == '+');
    var digits := if signed then s[1..] else s;
    if digits == [] || !AllDigits(digits) then None
    else
      var v: int := if signed && s[0] == '-' then -(DigitsValue(digits) as int) else DigitsValue(digits);
      if MinInt64 <= v <= MaxInt64 then Some(v) else None
  }

  /** The shortest decimal spelling of n. */
  function Decimal(n: nat): string
  {
    var d := ['0' + (n % 10) as char];
    if n < 10 then d else Decimal(n / 10) + d
  }

  /** The spelling of an int: a minus sign for negative values. */
  function IntDecimal(i: int): string
  {
    if i < 0 then "-" + Decimal(-i) else Decimal(i)
  }

  lemma {:induction false} DecimalDigits(n: nat)
    ensures |Decimal(n)| > 0 && AllDigits(Decimal(n)) && DigitsValue(Decimal(n)) == n
  {
    var s := Decimal(n);
    if n >= 10 {
      DecimalDigits(n / 10);
      assert s[..|s| - 1] == Decimal(n / 10);
    }
  }

  /** Atoi reads back what IntDecimal writes, for every 64-bit value. */
  lemma AtoiDecimal(i: int)
    requires MinInt64 <= i <= MaxInt64
    ensures Atoi(IntDecimal(i)) == Some(i)
  {
    var s := IntDecimal(i);
    if i < 0 {
      DecimalDigits(-i);
      assert s[1..] == Decimal(-i);
    } else {
      DecimalDigits(i);
      assert IsDigit(s[0]);
    }
  }

  /** What initTalkList makes of one line. */
  datatype LineResult = Parsed(talk: Talk) | Skipped | Fatal

  predicate EndsWithMin(w: string)
  {
    |w| >= 3 && w[|w| - 3..] == "min"
  }

  /** One line of initTalkList: v[:n] with n == -1 (no space) panics, so it
      is fatal, and so is a `min` word whose number Atoi refuses; a word
      that is neither `lightning` nor ends in `min` is skipped. */
  function ParseLine(v: string): LineResult
  {
    var n := LastSpace(v);
    if n < 0 then Fatal
    else
      var title, word := v[..n], v[n + 1..];
      if word == "lightning" then Parsed(Talk(title, 5))
      else if EndsWithMin(word) then
        match Atoi(word[..|word| - 3])
        case None => Fatal
        case Some(m) => Parsed(Talk(title, m))
      else Skipped
  }

  /** The line that describes a talk, in the `<title> <n>min` form. */
  function Line(t: Talk): string
  {
    t.title + " " + IntDecimal(t.time) + "min"
  }

  lemma IntDecimalNoSpace(i: int)
    ensures forall j :: 0 <= j < |IntDecimal(i)| ==> IntDecimal(i)[j] != ' '
  {
    var s := IntDecimal(i);
    if i < 0 {
      DecimalDigits(-i);
      forall j | 0 <= j < |s| ensures s[j] != ' ' {
        if j > 0 { assert s[j] == Decimal(-i)[j - 1]; }
      }
    } else {
      DecimalDigits(i);
    }
  }

  /** Parsing a talk's line gives back the talk, for every duration in the
      range of a 64-bit int and every title (spaces included). */
  lemma ParseLineOfLine(t: Talk)
    requires MinInt64 <= t.time <= MaxInt64
    ensures ParseLine(Line(t)) == Parsed(t)
  {
    var w := IntDecimal(t.time) + "min";
    IntDecimalNoSpace(t.time);
    LastSpaceAfter(t.title, w);
    assert Line(t) == t.title + " " + w;
    var v := Line(t);
    assert v[..|t.title|] == t.title && v[|t.title| + 1..] == w;
    assert w[..|w| - 3] == IntDecimal(t.time);
    AtoiDecimal(t.time);
  }

  /** `<title> lightning` is a 5-minute talk. */
  lemma ParseLightning(title: string)
    ensures ParseLine(title + " lightning") == Parsed(Talk(title, 5))
  {
    LastSpaceAfter(title, "lightning");
    var v := title + " lightning";
    assert v == title + " " + "lightning";
    assert v[..|title|] == title && v[|title| + 1..] == "lightning";
  }

  /** A line without a space is fatal. */
  lemma ParseNoSpace(v: string)
    requires forall j :: 0 <= j < |v| ==> v[j] != ' '
    ensures ParseLine(v) == Fatal
  {
  }

  /** A last word other than `lightning` that does not end in `min` is
      skipped; one that ends in `min` after something Atoi refuses is fatal. */
  lemma ParseOtherWord(title: string, w: string)
    requires forall j :: 0 <= j < |w| ==> w[j] != ' '
    requires w != "lightning"
    ensures !EndsWithMin(w) ==> ParseLine(title + " " + w) == Skipped
    ensures EndsWithMin(w) && Atoi(w[..|w| - 3]).None? ==> ParseLine(title + " " + w) == Fatal
  {
    LastSpaceAfter(title, w);
    var v := title + " " + w;
    assert v[|title| + 1..] == w;
  }

  /** A parsed talk's title is the line up to its last space, and its
      duration is 5 or a 64-bit value. */
  lemma ParsedTalkShape(v: string)
    requires ParseLine(v).Parsed?
    ensures var t := ParseLine(v).talk;
      LastSpace(v) == |t.title| && v[..|t.title|] == t.title && v[|t.title|] == ' ' &&
      (forall j :: |t.title| < j < |v| ==> v[j] != ' ') &&
      MinInt64 <= t.time <= MaxInt64
  {
  }

  /** The talks of the lines that parse, in input order. */
  function ParsedTalks(lines: seq<string>): seq<Talk>
  {
    if lines == [] then []
    else
      var last := ParseLine(lines[|lines| - 1]);
      ParsedTalks(lines[..|lines| - 1]) + (if last.Parsed? then [last.talk] else [])
  }

  /** The index of the first fatal line, or |lines| when none is. */
  function FirstFatal(lines: seq<string>): (k: nat)
    ensures k <= |lines|
  {
    if lines == [] then 0
    else if ParseLine(lines[0]).Fatal? then 0
    else 1 + FirstFatal(lines[1..])
  }

  lemma {:induction false} FirstFatalIs(lines: seq<string>, i: nat)
    requires i <= |lines|
    requires forall j :: 0 <= j < i ==> !ParseLine(lines[j]).Fatal?
    requires i < |lines| ==> ParseLine(lines[i]).Fatal?
    ensures FirstFatal(lines) == i
  {
    if i > 0 {
      assert !ParseLine(lines[0]).Fatal?;
      forall j | 0 <= j < i - 1 ensures !ParseLine(lines[1..][j]).Fatal? {
        assert lines[1..][j] == lines[j + 1];
      }
      if i - 1 < |lines| - 1 { assert lines[1..][i - 1] == lines[i]; }
      FirstFatalIs(lines[1..], i - 1);
    }
  }

  /** The queue after putToTalkList of each of ts in turn. */
  function InsertAll(q: seq<Talk>, ts: seq<Talk>): seq<Talk>
  {
    if ts == [] then q else Inserted(InsertAll(q, ts[..|ts| - 1]), ts[|ts| - 1])
  }

  lemma InsertAllSnoc(q: seq<Talk>, ts: seq<Talk>, t: Talk)
    ensures InsertAll(q, ts + [t]) == Inserted(InsertAll(q, ts), t)
  {
    assert (ts + [t])[..|ts|] == ts;
  }

  /** Loading keeps the queue non-increasing, so a queue loaded from empty
      is sorted longest first. */
  lemma {:induction false} InsertAllSorted(q: seq<Talk>, ts: seq<Talk>)
    requires NonIncreasing(q)
    ensures NonIncreasing(InsertAll(q, ts))
  {
    if ts != [] {
      InsertAllSorted(q, ts[..|ts| - 1]);
      InsertedSorted(InsertAll(q, ts[..|ts| - 1]), ts[|ts| - 1]);
    }
  }

  /** Loading adds exactly the loaded talks. */
  lemma {:induction false} InsertAllContents(q: seq<Talk>, ts: seq<Talk>)
    ensures multiset(InsertAll(q, ts)) == multiset(q) + multiset(ts)
  {
    if ts != [] {
      var init, t := ts[..|ts| - 1], ts[|ts| - 1];
      InsertAllContents(q, init);
      InsertedShape(InsertAll(q, init), t);
      assert ts == init + [t];
    }
  }

  lemma ParsedTalksSnoc(lines: seq<string>, i: nat)
    requires i < |lines|
    ensures ParsedTalks(lines[..i + 1]) ==
      ParsedTalks(lines[..i]) + (if ParseLine(lines[i]).Parsed? then [ParseLine(lines[i]).talk] else [])
  {
    assert lines[..i + 1][..i] == lines[..i];
  }

  /** A queue loaded from empty is sorted longest first, holds exactly the
      parsed talks, and is ready for the planner when every parsed duration
      is in [0, 240]. */
  lemma LoadedFromEmpty(ts: seq<Talk>)
    ensures NonIncreasing(InsertAll([], ts)) && multiset(InsertAll([], ts)) == multiset(ts)
    ensures Bounded(ts) ==> Bounded(InsertAll([], ts))
  {
    var q := InsertAll([], ts);
    InsertAllSorted([], ts);
    InsertAllContents([], ts);
    assert multiset(q) == multiset(ts);
    if Bounded(ts) {
      forall i | 0 <= i < |q| ensures 0 <= q[i].time <= 240 {
        assert q[i] in multiset(ts);
        var j :| 0 <= j < |ts| && ts[j] == q[i];
      }
    }
  }

  /** The queue after one line's result has been put into q. */
  function Load(q: seq<Talk>, r: LineResult): seq<Talk>
  {
    if r.Parsed? then Inserted(q, r.talk) else q
  }

  /** The loading loop's invariant: the first i lines are not fatal, and q
      holds q0 with their talks put in. */
  ghost predicate Loaded(q0: seq<Talk>, input: seq<string>, i: nat, q: seq<Talk>)
  {
    i <= |input| && (forall j :: 0 <= j < i ==> !ParseLine(input[j]).Fatal?) &&
    q == InsertAll(q0, ParsedTalks(input[..i]))
  }

  lemma LoadStep(q0: seq<Talk>, input: seq<string>, i: nat, q: seq<Talk>)
    requires i < |input| && Loaded(q0, input, i, q) && !ParseLine(input[i]).Fatal?
    ensures Loaded(q0, input, i + 1, Load(q, ParseLine(input[i])))
  {
    var r := ParseLine(input[i]);
    ParsedTalksSnoc(input, i);
    assert input[..i + 1][..i] == input[..i];
    if r.Parsed? {
      InsertAllSnoc(q0, ParsedTalks(input[..i]), r.talk);
    } else {
      var p := ParsedTalks(input[..i]);
      assert p + [] == p;
      assert ParsedTalks(input[..i + 1]) == p;
    }
  }

  /** The loop ends at the first fatal line or at the end of the input. */
  lemma LoadEnd(q0: seq<Talk>, input: seq<string>, i: nat, q: seq<Talk>)
    requires Loaded(q0, input, i, q) && (i < |input| ==> ParseLine(input[i]).Fatal?)
    ensures FirstFatal(input) == i
    ensures q == InsertAll(q0, ParsedTalks(input[..FirstFatal(input)]))
  {
    FirstFatalIs(input, i);
  }

  /** initTalkList: parse the lines in order and put each talk into the
      queue; a fatal line stops the program (ok is false), with the talks of
      the lines before it loaded. */
  method InitTalkList(talkList: TalkList, input: seq<string>) returns (ok: bool)
    modifies talkList
    ensures ok <==> FirstFatal(input) == |input|
    ensures talkList.talks == InsertAll(old(talkList.talks), ParsedTalks(input[..FirstFatal(input)]))
  {
    ghost var q0 := talkList.talks;
    var i := 0;
    while i < |input|
      invariant Loaded(q0, input, i, talkList.talks)
    {
      var r := ParseLine(input[i]);
      if r.Fatal? {
        LoadEnd(q0, input, i, talkList.talks);
        return false;
      }
      ghost var q := talkList.talks;
      LoadStep(q0, input, i, q);
      if r.Parsed? {
        talkList.Put(r.talk);
      }
      assert talkList.talks == Load(q, r);
      i := i + 1;
    }
    LoadEnd(q0, input, i, talkList.talks);
    ok := true;
  }
}

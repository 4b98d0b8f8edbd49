/**
 * The splash screen's intro animation as a value: a tree of delays, timed
 * property transitions, sequences and parallel groups, with the usual
 * semantics (a sequence starts each step when the previous one ends; a
 * parallel group starts its members together and ends with its longest one).
 * Only integer durations (milliseconds) and integer target values are kept.
 */
module Intro {

  /** The animated values of the splash screen. */
  datatype Prop = CompanyFade | LogoFade | LogoTranslate | LogoHeight | LogoMarginBottom | ContentFade

  datatype Anim =
    | Delay(ms: nat)
    | Timing(prop: Prop, target: int, ms: nat)
    | Sequence(steps: seq<Anim>)
    | Parallel(members: seq<Anim>)

  function Max(x: int, y: int): int { if x < y then y else x }

  /** How long an animation runs from its start to its completion. */
  function Duration(a: Anim): nat
  {
    match a
    case Delay(ms) => ms
    case Timing(_, _, ms) => ms
    case Sequence(steps) => SeqDuration(steps)
    case Parallel(members) => ParDuration(members)
  }

  /** A sequence lasts as long as its steps together, so at least as long as each. */
  function SeqDuration(steps: seq<Anim>): (r: nat)
    ensures forall i :: 0 <= i < |steps| ==> Duration(steps[i]) <= r
  {
    if steps == [] then 0 else Duration(steps[0]) + SeqDuration(steps[1..])
  }

  /** A parallel group lasts exactly as long as its longest member (0 when empty). */
  function ParDuration(members: seq<Anim>): (r: nat)
    ensures forall i :: 0 <= i < |members| ==> Duration(members[i]) <= r
    ensures members == [] ==> r == 0
    ensures members != [] ==> exists i :: 0 <= i < |members| && r == Duration(members[i])
  {
    if members == [] then 0 else Max(Duration(members[0]), ParDuration(members[1..]))
  }

  /** One timed transition placed on the time line. */
  datatype Slot = Slot(prop: Prop, target: int, start: int, end: int)

  /** The timings of `a`, in declaration order, when `a` starts at `t0`. */
  function Schedule(a: Anim, t0: int): seq<Slot>
  {
    match a
    case Delay(_) => []
    case Timing(p, v, ms) => [Slot(p, v, t0, t0 + ms)]
    case Sequence(steps) => SeqSchedule(steps, t0)
    case Parallel(members) => ParSchedule(members, t0)
  }

  function SeqSchedule(steps: seq<Anim>, t0: int): seq<Slot>
  {
    if steps == [] then [] else Schedule(steps[0], t0) + SeqSchedule(steps[1..], t0 + Duration(steps[0]))
  }

  function ParSchedule(members: seq<Anim>, t0: int): seq<Slot>
  {
    if members == [] then [] else Schedule(members[0], t0) + ParSchedule(members[1..], t0)
  }

  /** Every slot of `s` runs inside the interval [lo, hi]. */
  predicate Within(s: seq<Slot>, lo: int, hi: int)
  {
    forall i :: 0 <= i < |s| ==> lo <= s[i].start <= s[i].end <= hi
  }

  lemma WithinConcat(x: seq<Slot>, y: seq<Slot>, lo: int, hi: int)
    requires Within(x, lo, hi) && Within(y, lo, hi)
    ensures Within(x + y, lo, hi)
  {
    forall i | 0 <= i < |x + y| ensures lo <= (x + y)[i].start <= (x + y)[i].end <= hi {
      if i >= |x| { assert (x + y)[i] == y[i - |x|]; }
    }
  }

  /** No timing of an animation starts before the animation or ends after it. */
  lemma {:induction false} ScheduleWithin(a: Anim, t0: int)
    ensures Within(Schedule(a, t0), t0, t0 + Duration(a))
  {
    match a
    case Delay(_) =>
    case Timing(_, _, _) =>
    case Sequence(steps) => SeqScheduleWithin(steps, t0);
    case Parallel(members) => ParScheduleWithin(members, t0);
  }

  lemma {:induction false} SeqScheduleWithin(steps: seq<Anim>, t0: int)
    ensures Within(SeqSchedule(steps, t0), t0, t0 + SeqDuration(steps))
  {
    if steps != [] {
      var t1 := t0 + Duration(steps[0]);
      ScheduleWithin(steps[0], t0);
      SeqScheduleWithin(steps[1..], t1);
      WithinConcat(Schedule(steps[0], t0), SeqSchedule(steps[1..], t1), t0, t0 + SeqDuration(steps));
    }
  }

  lemma {:induction false} ParScheduleWithin(members: seq<Anim>, t0: int)
    ensures Within(ParSchedule(members, t0), t0, t0 + ParDuration(members))
  {
    if members != [] {
      ScheduleWithin(members[0], t0);
      ParScheduleWithin(members[1..], t0);
      WithinConcat(Schedule(members[0], t0), ParSchedule(members[1..], t0), t0, t0 + ParDuration(members));
    }
  }

  /** Cutting a sequence after `k` steps: the rest starts when the first `k` steps end. */
  lemma {:induction false} SeqScheduleSplit(steps: seq<Anim>, t0: int, k: nat)
    requires k <= |steps|
    ensures SeqSchedule(steps, t0)
         == SeqSchedule(steps[..k], t0) + SeqSchedule(steps[k..], t0 + SeqDuration(steps[..k]))
  {
    if k > 0 {
      var t1 := t0 + Duration(steps[0]);
      var head, tail := steps[..k], steps[1..];
      SeqScheduleSplit(tail, t1, k - 1);
      assert head[0] == steps[0] && head[1..] == tail[..k - 1];
      assert tail[k - 1..] == steps[k..];
      assert SeqDuration(head) == Duration(steps[0]) + SeqDuration(tail[..k - 1]);
      var x, y, z := Schedule(steps[0], t0), SeqSchedule(tail[..k - 1], t1), SeqSchedule(steps[k..], t0 + SeqDuration(head));
      assert SeqSchedule(head, t0) == x + y;
      assert SeqSchedule(steps, t0) == x + (y + z);
      assert x + (y + z) == (x + y) + z;
    } else {
      assert steps[..0] == [] && steps[0..] == steps;
    }
  }

  /**
   * A sequence is strictly ordered: cut after any `k` steps, every timing of
   * the first part ends no later than any timing of the rest starts.
   */
  lemma SequenceBarrier(steps: seq<Anim>, t0: int, k: nat)
    requires k <= |steps|
    ensures var s := SeqSchedule(steps, t0);
            var n := |SeqSchedule(steps[..k], t0)|;
            n <= |s| && forall i, j :: 0 <= i < n <= j < |s| ==> s[i].end <= s[j].start
  {
    var tk := t0 + SeqDuration(steps[..k]);
    var before, after := SeqSchedule(steps[..k], t0), SeqSchedule(steps[k..], tk);
    SeqScheduleSplit(steps, t0, k);
    SeqScheduleWithin(steps[..k], t0);
    SeqScheduleWithin(steps[k..], tk);
    var s := before + after;
    forall i, j | 0 <= i < |before| <= j < |s| ensures s[i].end <= s[j].start {
      assert s[i] == before[i];
      assert s[j] == after[j - |before|];
    }
  }

  /** Every timing of a parallel group of timings starts with the group. */
  lemma {:induction false} ParallelStartsTogether(members: seq<Anim>, t0: int)
    requires forall i :: 0 <= i < |members| ==> members[i].Timing?
    ensures |ParSchedule(members, t0)| == |members|
    ensures forall i :: 0 <= i < |members| ==>
              ParSchedule(members, t0)[i] == Slot(members[i].prop, members[i].target, t0, t0 + members[i].ms)
  {
    if members != [] {
      ParallelStartsTogether(members[1..], t0);
      var m := members[0];
      assert m == Timing(m.prop, m.target, m.ms);
      assert Schedule(m, t0) == [Slot(m.prop, m.target, t0, t0 + m.ms)];
      var s := ParSchedule(members, t0);
      assert s == [Slot(members[0].prop, members[0].target, t0, t0 + members[0].ms)] + ParSchedule(members[1..], t0);
      forall i | 0 <= i < |members|
        ensures s[i] == Slot(members[i].prop, members[i].target, t0, t0 + members[i].ms)
      {
        if i > 0 { assert s[i] == ParSchedule(members[1..], t0)[i - 1]; }
      }
    }
  }

  /** Slot `i` is the last timing of its property in `slots`. */
  predicate LastFor(slots: seq<Slot>, i: nat)
    requires i < |slots|
  {
    forall j :: i < j < |slots| ==> slots[j].prop != slots[i].prop
  }

  /** Does any slot animate property `p`? */
  predicate Animates(slots: seq<Slot>, p: Prop)
  {
    exists i :: 0 <= i < |slots| && slots[i].prop == p
  }

  /**
   * The values left behind once the slots have run: each timing leaves its
   * property at its target, the later timing winning; others keep their value.
   */
  function Apply(slots: seq<Slot>, v: map<Prop, int>): (r: map<Prop, int>)
    ensures forall p :: p in r <==> p in v || Animates(slots, p)
    ensures forall p :: p in v && !Animates(slots, p) ==> r[p] == v[p]
    ensures forall i :: 0 <= i < |slots| ==> slots[i].prop in r
    ensures forall i :: 0 <= i < |slots| && LastFor(slots, i) ==> r[slots[i].prop] == slots[i].target
  {
    if slots == [] then v
    else
      var r := Apply(slots[1..], v[slots[0].prop := slots[0].target]);
      AnimatesCons(slots);
      LastForTail(slots);
      r
  }

  /** The last timing of a property after the head is also its last one in the tail. */
  lemma LastForTail(slots: seq<Slot>)
    requires slots != []
    ensures forall i :: 1 <= i < |slots| && LastFor(slots, i) ==> LastFor(slots[1..], i - 1)
  {
    forall i | 1 <= i < |slots| && LastFor(slots, i) ensures LastFor(slots[1..], i - 1) {
      forall j | i - 1 < j < |slots[1..]| ensures slots[1..][j].prop != slots[1..][i - 1].prop {
        assert slots[1..][j] == slots[j + 1];
      }
    }
  }

  /** A property is animated by a list of slots when its head or its tail animates it. */
  lemma AnimatesCons(slots: seq<Slot>)
    requires slots != []
    ensures forall p :: Animates(slots, p) <==> p == slots[0].prop || Animates(slots[1..], p)
  {
    forall p | Animates(slots[1..], p) ensures Animates(slots, p) {
      var k :| 0 <= k < |slots[1..]| && slots[1..][k].prop == p;
      assert slots[k + 1].prop == p;
    }
    forall p | Animates(slots, p) && p != slots[0].prop ensures Animates(slots[1..], p) {
      var k :| 0 <= k < |slots| && slots[k].prop == p;
      assert k > 0 && slots[1..][k - 1].prop == p;
    }
    assert Animates(slots, slots[0].prop);
  }

  /** The values an animation leaves behind when it runs to completion. */
  function Settle(a: Anim, v: map<Prop, int>): map<Prop, int>
  {
    Apply(Schedule(a, 0), v)
  }

  /** Running two lists of slots one after the other is running their concatenation. */
  lemma {:induction false} ApplyConcat(x: seq<Slot>, y: seq<Slot>, v: map<Prop, int>)
    ensures Apply(x + y, v) == Apply(y, Apply(x, v))
  {
    if x == [] {
      assert x + y == y;
    } else {
      var w := v[x[0].prop := x[0].target];
      calc {
        Apply(x + y, v);
        { assert (x + y)[0] == x[0] && (x + y)[1..] == x[1..] + y; }
        Apply(x[1..] + y, w);
        { ApplyConcat(x[1..], y, w); }
        Apply(y, Apply(x[1..], w));
        { assert Apply(x, v) == Apply(x[1..], w); }
        Apply(y, Apply(x, v));
      }
    }
  }

  // ---- Landing on the clock ---------------------------------------------------
  //
  // A timing leaves its target behind when it ends; what the animated values
  // hold at a time is what the timings that have ended by then left.

  /** The slots that have ended by time `t`, in order. */
  function EndingBy(slots: seq<Slot>, t: int): (r: seq<Slot>)
    ensures forall x :: x in r <==> x in slots && x.end <= t
  {
    if slots == [] then []
    else (if slots[0].end <= t then [slots[0]] else []) + EndingBy(slots[1..], t)
  }

  /** The slots that end in the interval (lo, hi], in order. */
  function EndingIn(slots: seq<Slot>, lo: int, hi: int): (r: seq<Slot>)
    ensures forall x :: x in r <==> x in slots && lo < x.end <= hi
  {
    if slots == [] then []
    else (if lo < slots[0].end <= hi then [slots[0]] else []) + EndingIn(slots[1..], lo, hi)
  }

  /** The slots are listed in the order they end. */
  predicate SortedByEnd(slots: seq<Slot>)
  {
    forall i, j :: 0 <= i < j < |slots| ==> slots[i].end <= slots[j].end
  }

  /** A list none of whose members qualify filters to nothing. */
  lemma NothingEndingBy(slots: seq<Slot>, t: int)
    requires forall x :: x in slots ==> t < x.end
    ensures EndingBy(slots, t) == []
  {
  }

  /** The tail of a sorted list is sorted, and ends no earlier than its head. */
  lemma SortedTail(slots: seq<Slot>)
    requires SortedByEnd(slots) && slots != []
    ensures SortedByEnd(slots[1..])
    ensures forall x :: x in slots[1..] ==> slots[0].end <= x.end
  {
    var rest := slots[1..];
    forall i, j | 0 <= i < j < |rest| ensures rest[i].end <= rest[j].end {
      assert rest[i] == slots[i + 1] && rest[j] == slots[j + 1];
    }
    forall x | x in rest ensures slots[0].end <= x.end {
      var k :| 0 <= k < |rest| && rest[k] == x;
      assert slots[k + 1] == x;
    }
  }

  /** When nothing has ended by `a`, what has ended by `b` is what ended in (a, b]. */
  lemma {:induction false} NothingYetThenInterval(slots: seq<Slot>, a: int, b: int)
    requires forall x :: x in slots ==> a < x.end
    ensures EndingBy(slots, a) == []
    ensures EndingBy(slots, b) == EndingIn(slots, a, b)
  {
    NothingEndingBy(slots, a);
    if slots != [] {
      NothingYetThenInterval(slots[1..], a, b);
    }
  }

  /**
   * On a list sorted by end time, what has ended by `b` is what had ended by
   * `a` followed by what ended in between.
   */
  lemma {:induction false} SplitByTime(slots: seq<Slot>, a: int, b: int)
    requires SortedByEnd(slots) && a <= b
    ensures EndingBy(slots, b) == EndingBy(slots, a) + EndingIn(slots, a, b)
    decreases |slots|, 1
  {
    if slots == [] {
      var none: seq<Slot> := [];
      assert EndingBy(slots, b) == none + none;
    } else if slots[0].end <= a {
      SplitAfterEarlyHead(slots, a, b);
    } else {
      SortedTail(slots);
      NothingYetThenInterval(slots, a, b);
      assert EndingBy(slots, a) + EndingIn(slots, a, b) == [] + EndingIn(slots, a, b);
    }
  }

  /** The step of `SplitByTime` for a head that had already ended by `a`. */
  lemma {:induction false} SplitAfterEarlyHead(slots: seq<Slot>, a: int, b: int)
    requires SortedByEnd(slots) && a <= b && slots != [] && slots[0].end <= a
    ensures EndingBy(slots, b) == EndingBy(slots, a) + EndingIn(slots, a, b)
    decreases |slots|, 0
  {
    var rest, h := slots[1..], slots[0];
    SortedTail(slots);
    SplitByTime(rest, a, b);
    var early, between := EndingBy(rest, a), EndingIn(rest, a, b);
    calc {
      EndingBy(slots, b);
      [h] + EndingBy(rest, b);
      [h] + (early + between);
      { assert [h] + (early + between) == ([h] + early) + between; }
      ([h] + early) + between;
      { assert EndingIn(slots, a, b) == [] + between && [] + between == between; }
      EndingBy(slots, a) + EndingIn(slots, a, b);
    }
  }

  /** Once every slot has ended, everything has landed. */
  lemma {:induction false} EndingByAll(slots: seq<Slot>, t: int)
    requires forall x :: x in slots ==> x.end <= t
    ensures EndingBy(slots, t) == slots
  {
    if slots != [] {
      forall x | x in slots[1..] ensures x.end <= t { }
      EndingByAll(slots[1..], t);
    }
  }

  /** A property that no qualifying slot animates is left alone by the slots that qualify. */
  lemma NotAnimatedIn(filtered: seq<Slot>, slots: seq<Slot>, p: Prop)
    requires forall x :: x in filtered ==> x in slots
    requires forall x :: x in filtered && x in slots ==> x.prop != p
    ensures !Animates(filtered, p)
  {
  }

  // ---- The intro plan of the splash screen ----------------------------------

  const FinalLogoMargin: int := 20
  const FinalLogoPosition: int := 0
  /** Estimated height of the splash content box. */
  const ContentHeight: int := 340
  /** The logo starts centred: half the content height down. */
  const InitialLogoPosition: int := ContentHeight / 2

  /**
   * `Math.min(250, viewportHeight - 500)`: never above 250, and, having no
   * lower clamp, equal to `viewportHeight - 500` on short viewports.
   */
  function FinalLogoHeight(viewportHeight: int): (h: int)
    ensures h <= 250 && h <= viewportHeight - 500
    ensures h == 250 || h == viewportHeight - 500
  {
    if viewportHeight - 500 < 250 then viewportHeight - 500 else 250
  }

  /** There is no lower clamp: a viewport of 500 or less gives a height of 0 or less. */
  lemma NoLowerClamp(viewportHeight: int)
    requires viewportHeight <= 500
    ensures FinalLogoHeight(viewportHeight) <= 0
  {
  }

  /** The last step of the intro: logo moves up and shrinks while the content fades in. */
  function IntroGroup(finalLogoHeight: int): Anim
  {
    Parallel([
      Timing(LogoTranslate, FinalLogoPosition, 600),
      Timing(LogoHeight, finalLogoHeight, 600),
      Timing(LogoMarginBottom, FinalLogoMargin, 600),
      Timing(ContentFade, 1, 800)
    ])
  }

  /** The intro sequence, for a given final logo height. */
  function IntroPlan(finalLogoHeight: int): Anim
  {
    Sequence([Delay(1200), Timing(CompanyFade, 0, 600), Timing(LogoFade, 1, 600), Delay(400), IntroGroup(finalLogoHeight)])
  }

  /** The slots of the final group, started at `t0`. */
  function GroupTimeline(finalLogoHeight: int, t0: int): seq<Slot>
  {
    [ Slot(LogoTranslate, FinalLogoPosition, t0, t0 + 600),
      Slot(LogoHeight, finalLogoHeight, t0, t0 + 600),
      Slot(LogoMarginBottom, FinalLogoMargin, t0, t0 + 600),
      Slot(ContentFade, 1, t0, t0 + 800) ]
  }

  /** The intro's time line, starting at 0: the whole plan ends at 3600 ms. */
  function IntroTimeline(finalLogoHeight: int): seq<Slot>
  {
    [Slot(CompanyFade, 0, 1200, 1800), Slot(LogoFade, 1, 1800, 2400)] + GroupTimeline(finalLogoHeight, 2800)
  }

  /** The final group starts its four timings together and ends after the longest, 800 ms. */
  lemma IntroGroupSchedule(finalLogoHeight: int, t0: int)
    ensures Duration(IntroGroup(finalLogoHeight)) == 800
    ensures Schedule(IntroGroup(finalLogoHeight), t0) == GroupTimeline(finalLogoHeight, t0)
  {
    var ms := IntroGroup(finalLogoHeight).members;
    ParallelStartsTogether(ms, t0);
    assert ParDuration(ms[3..]) == 800;
    assert ParDuration(ms[2..]) == 800;
    assert ParDuration(ms[1..]) == 800;
  }

  /**
   * The 1200 ms hold comes first; the company-logo fade ends before the
   * game-logo fade starts; 400 ms later the four final transitions start
   * together, and the plan ends with the longest of them, at 3600 ms.
   */
  lemma IntroSchedule(finalLogoHeight: int)
    ensures Duration(IntroPlan(finalLogoHeight)) == 3600
    ensures Schedule(IntroPlan(finalLogoHeight), 0) == IntroTimeline(finalLogoHeight)
  {
    var rest := IntroAfterHold(finalLogoHeight);
    IntroFades(finalLogoHeight);
    SeqCons(Delay(1200), rest, 0);
    assert IntroPlan(finalLogoHeight).steps == [Delay(1200)] + rest;
  }

  /** The steps after the opening hold. */
  function IntroAfterHold(finalLogoHeight: int): seq<Anim>
  {
    [Timing(CompanyFade, 0, 600), Timing(LogoFade, 1, 600), Delay(400), IntroGroup(finalLogoHeight)]
  }

  /** After the opening hold: the two fades one after the other, then the hold and the group. */
  lemma IntroFades(finalLogoHeight: int)
    ensures SeqDuration(IntroAfterHold(finalLogoHeight)) == 2400
    ensures SeqSchedule(IntroAfterHold(finalLogoHeight), 1200)
         == [Slot(CompanyFade, 0, 1200, 1800), Slot(LogoFade, 1, 1800, 2400)] + GroupTimeline(finalLogoHeight, 2800)
  {
    var s4 := [Delay(400), IntroGroup(finalLogoHeight)];
    var s3 := [Timing(LogoFade, 1, 600)] + s4;
    IntroHoldThenGroup(finalLogoHeight);
    SeqCons(Timing(LogoFade, 1, 600), s4, 1800);
    SeqCons(Timing(CompanyFade, 0, 600), s3, 1200);
    assert IntroAfterHold(finalLogoHeight) == [Timing(CompanyFade, 0, 600)] + s3;
  }

  /** The 400 ms hold, then the group. */
  lemma IntroHoldThenGroup(finalLogoHeight: int)
    ensures SeqDuration([Delay(400), IntroGroup(finalLogoHeight)]) == 1200
    ensures SeqSchedule([Delay(400), IntroGroup(finalLogoHeight)], 2400) == GroupTimeline(finalLogoHeight, 2800)
  {
    var group := IntroGroup(finalLogoHeight);
    IntroGroupSchedule(finalLogoHeight, 2800);
    SeqCons(group, [], 2800);
    assert [group] + [] == [group];
    SeqCons(Delay(400), [group], 2400);
  }

  /** Unfolding a sequence by its first step. */
  lemma SeqCons(a: Anim, rest: seq<Anim>, t0: int)
    ensures SeqDuration([a] + rest) == Duration(a) + SeqDuration(rest)
    ensures SeqSchedule([a] + rest, t0) == Schedule(a, t0) + SeqSchedule(rest, t0 + Duration(a))
  {
    assert ([a] + rest)[1..] == rest;
  }

  /** Every property the intro animates ends at its target once the intro has run. */
  lemma IntroSettles(finalLogoHeight: int, v: map<Prop, int>)
    ensures Settle(IntroPlan(finalLogoHeight), v)
         == v[CompanyFade := 0][LogoFade := 1][LogoTranslate := FinalLogoPosition]
             [LogoHeight := finalLogoHeight][LogoMarginBottom := FinalLogoMargin][ContentFade := 1]
  {
    IntroSchedule(finalLogoHeight);
    var s := IntroTimeline(finalLogoHeight);
    var v1 := v[CompanyFade := 0];
    var v2 := v1[LogoFade := 1];
    var v3 := v2[LogoTranslate := FinalLogoPosition];
    var v4 := v3[LogoHeight := finalLogoHeight];
    var v5 := v4[LogoMarginBottom := FinalLogoMargin];
    var v6 := v5[ContentFade := 1];
    calc {
      Apply(s, v);
      Apply(s[1..], v1);
      Apply(s[2..], v2);
      { assert s[2..][1..] == s[3..]; }
      Apply(s[3..], v3);
      { assert s[3..][1..] == s[4..]; }
      Apply(s[4..], v4);
      { assert s[4..][1..] == s[5..]; }
      Apply(s[5..], v5);
      { assert s[5..][1..] == s[6..] == []; }
      v6;
    }
  }

  /** The intro's timings are listed in the order they end. */
  lemma IntroTimelineSorted(finalLogoHeight: int)
    ensures SortedByEnd(Schedule(IntroPlan(finalLogoHeight), 0))
  {
    IntroSchedule(finalLogoHeight);
  }

  /** The intro ends at 3600 ms, when every one of its timings has ended. */
  lemma IntroAllLanded(finalLogoHeight: int, t: int)
    requires t >= Duration(IntroPlan(finalLogoHeight))
    ensures EndingBy(Schedule(IntroPlan(finalLogoHeight), 0), t) == Schedule(IntroPlan(finalLogoHeight), 0)
  {
    IntroSchedule(finalLogoHeight);
    EndingByAll(IntroTimeline(finalLogoHeight), t);
  }

  /** Nothing of the intro has landed when it starts: its first timing ends at 1800 ms. */
  lemma IntroNothingAtStart(finalLogoHeight: int)
    ensures EndingBy(Schedule(IntroPlan(finalLogoHeight), 0), 0) == []
  {
    IntroSchedule(finalLogoHeight);
    NothingEndingBy(IntroTimeline(finalLogoHeight), 0);
  }

  /**
   * The logo's move is the intro's only timing of the logo offset: it runs
   * from 2800 ms to 3400 ms and lands the logo at its final offset.
   */
  lemma IntroTranslateSlot(finalLogoHeight: int)
    ensures forall x :: x in Schedule(IntroPlan(finalLogoHeight), 0) && x.prop == LogoTranslate ==>
              x.start == 2800 && x.end == 3400 && x.target == FinalLogoPosition
  {
    IntroSchedule(finalLogoHeight);
  }

  /** Before 3400 ms nothing has moved the logo offset. */
  lemma IntroTranslateNotYet(finalLogoHeight: int, t: int)
    requires t < 3400
    ensures !Animates(EndingBy(Schedule(IntroPlan(finalLogoHeight), 0), t), LogoTranslate)
  {
    var tl := Schedule(IntroPlan(finalLogoHeight), 0);
    IntroTranslateSlot(finalLogoHeight);
    NotAnimatedIn(EndingBy(tl, t), tl, LogoTranslate);
  }

  /** From 3400 ms on, nothing moves the logo offset any more. */
  lemma IntroTranslateDone(finalLogoHeight: int, lo: int, hi: int)
    requires lo >= 3400
    ensures !Animates(EndingIn(Schedule(IntroPlan(finalLogoHeight), 0), lo, hi), LogoTranslate)
  {
    var tl := Schedule(IntroPlan(finalLogoHeight), 0);
    IntroTranslateSlot(finalLogoHeight);
    NotAnimatedIn(EndingIn(tl, lo, hi), tl, LogoTranslate);
  }
}

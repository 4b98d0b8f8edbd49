/**
 * The splash screen component: its draft language, the intro animation's
 * animated values and its completion flag, and the resume-button rule.
 */
module SplashScreen {
  import opened Types
  import opened Intro

  /** Every animated value of the screen. */
  function AllProps(): set<Prop>
  {
    {CompanyFade, LogoFade, LogoTranslate, LogoHeight, LogoMarginBottom, ContentFade}
  }

  /** The animated values as the screen creates them. */
  function InitialValues(): (v: map<Prop, int>)
    ensures v.Keys == AllProps()
  {
    map[CompanyFade := 1, LogoFade := 0, LogoTranslate := 0, LogoHeight := 250,
        LogoMarginBottom := -60, ContentFade := 0]
  }

  /** The targets of the intro plan: logo docked, company logo gone, content shown. */
  function TargetValues(finalLogoHeight: int): map<Prop, int>
  {
    map[CompanyFade := 0, LogoFade := 1, LogoTranslate := FinalLogoPosition, LogoHeight := finalLogoHeight,
        LogoMarginBottom := FinalLogoMargin, ContentFade := 1]
  }

  /** Whatever the values were, the finished intro leaves every one at its target. */
  lemma IntroReachesTargets(finalLogoHeight: int, v: map<Prop, int>)
    requires v.Keys == AllProps()
    ensures Settle(IntroPlan(finalLogoHeight), v) == TargetValues(finalLogoHeight)
  {
    IntroSettles(finalLogoHeight, v);
    var r := Settle(IntroPlan(finalLogoHeight), v);
    assert r.Keys == TargetValues(finalLogoHeight).Keys;
  }

  /** Whatever timings land, the screen keeps exactly its six animated values. */
  lemma ApplyKeepsProps(slots: seq<Slot>, v: map<Prop, int>)
    requires v.Keys == AllProps()
    ensures Apply(slots, v).Keys == AllProps()
  {
    var r := Apply(slots, v);
    forall p | p in r ensures p in AllProps() {
      match p
      case CompanyFade =>
      case LogoFade =>
      case LogoTranslate =>
      case LogoHeight =>
      case LogoMarginBottom =>
      case ContentFade =>
    }
  }

  /** The language switch: on means German, off means English. */
  function DraftLanguage(isGerman: bool): (l: Language)
    ensures l == De <==> isGerman
    ensures l == En <==> !isGerman
  {
    if isGerman then De else En
  }

  /**
   * The resume button is shown only when the screen was told there is a saved
   * game (an absent flag counting as no) and was given a resume handler.
   */
  function ResumeOffered(hasSavedGame: Option<bool>, hasResumeHandler: bool): (shown: bool)
    ensures shown <==> hasSavedGame == Some(true) && hasResumeHandler
  {
    var saved := match hasSavedGame case Some(b) => b case None => false;
    saved && hasResumeHandler
  }

  class SplashScreen {
    /** The draft language, shown by the switch and handed over by the start button. */
    var language: Language
    /** Set by the intro sequence's completion callback, and only there. */
    var animationCompleted: bool
    /** The mount effect has run and started the intro sequence. */
    var started: bool
    var values: map<Prop, int>
    /** Milliseconds since the intro sequence was started. */
    var clock: int
    /** The animated values as the intro sequence found them when it started. */
    ghost var startValues: map<Prop, int>
    /** The logo's final height, fixed when the intro sequence is built. */
    const finalLogoHeight: int

    /** The time line of this screen's intro sequence. */
    function Timeline(): seq<Slot>
    {
      Schedule(IntroPlan(finalLogoHeight), 0)
    }

    /**
     * The animated values always exist; the logo sits at its centred offset
     * until the sequence starts; the completion callback comes no earlier than
     * the sequence's end.
     */
    ghost predicate Valid()
      reads this
    {
      values.Keys == AllProps() &&
      (!started ==> !animationCompleted && values[LogoTranslate] == InitialLogoPosition) &&
      (started ==> clock >= 0 && startValues.Keys == AllProps() &&
                   startValues[LogoTranslate] == InitialLogoPosition) &&
      (animationCompleted ==> clock >= Duration(IntroPlan(finalLogoHeight)))
    }

    /**
     * Once started, the animated values are exactly what the timings that have
     * ended by now left behind: no other writer has touched them.
     */
    ghost predicate OnTimeline()
      reads this
    {
      started ==> values == Apply(EndingBy(Timeline(), clock), startValues)
    }

    /**
     * The screen's state after its creation and first render, for a viewport of
     * the given height: the render has moved the logo to its centred offset.
     */
    constructor (viewportHeight: int)
      ensures Valid() && OnTimeline()
      ensures language == En && !animationCompleted && !started
      ensures values == InitialValues()[LogoTranslate := InitialLogoPosition]
      ensures finalLogoHeight == FinalLogoHeight(viewportHeight)
    {
      language := En;
      animationCompleted := false;
      started := false;
      values := InitialValues()[LogoTranslate := InitialLogoPosition];
      clock := 0;
      startValues := map[];
      finalLogoHeight := FinalLogoHeight(viewportHeight);
    }

    /**
     * A render, as written: it puts the logo back at its centred offset every
     * time until the intro has completed, the logo's move included.  It keeps
     * the values on the time line only when it comes before the move starts
     * (2800 ms) or after completion.
     */
    method Render()
      requires Valid()
      modifies this
      ensures Valid()
      ensures values == if old(animationCompleted) then old(values)
                        else old(values)[LogoTranslate := InitialLogoPosition]
      ensures language == old(language) && animationCompleted == old(animationCompleted) && started == old(started)
      ensures clock == old(clock) && startValues == old(startValues)
      ensures old(OnTimeline()) && (old(animationCompleted) || old(clock) < 2800) ==> OnTimeline()
    {
      if !animationCompleted {
        if started && clock < 2800 {
          IntroTranslateNotYet(finalLogoHeight, clock);
        }
        values := values[LogoTranslate := InitialLogoPosition];
      }
    }

    /**
     * A render as the comment on the reset intends ("only once"): the logo is
     * centred before the intro starts and left to the intro afterwards, so
     * every render keeps the values on the time line.
     */
    method RenderBeforeStart()
      requires Valid()
      modifies this
      ensures Valid()
      ensures values == if old(started) then old(values)
                        else old(values)[LogoTranslate := InitialLogoPosition]
      ensures language == old(language) && animationCompleted == old(animationCompleted) && started == old(started)
      ensures clock == old(clock) && startValues == old(startValues)
      ensures old(OnTimeline()) ==> OnTimeline()
    {
      if !started {
        values := values[LogoTranslate := InitialLogoPosition];
      }
    }

    /** The mount effect: adopt the device language and start the intro sequence at time 0. */
    method MountEffect(deviceLanguage: Language)
      requires Valid() && !started
      modifies this
      ensures Valid() && started && OnTimeline()
      ensures language == deviceLanguage && clock == 0 && startValues == old(values)
      ensures values == old(values) && animationCompleted == old(animationCompleted)
    {
      language := deviceLanguage;
      started := true;
      clock := 0;
      startValues := values;
      IntroNothingAtStart(finalLogoHeight);
    }

    /** Time passes while the sequence runs: every timing ending meanwhile lands its target. */
    method Advance(now: int)
      requires Valid() && started && clock <= now
      modifies this
      ensures Valid() && clock == now
      ensures values == Apply(EndingIn(Timeline(), old(clock), now), old(values))
      ensures language == old(language) && animationCompleted == old(animationCompleted) && started == old(started)
      ensures startValues == old(startValues)
      ensures old(OnTimeline()) ==> OnTimeline()
    {
      var tl := Timeline();
      ApplyKeepsProps(EndingIn(tl, clock, now), values);
      if OnTimeline() {
        IntroTimelineSorted(finalLogoHeight);
        SplitByTime(tl, clock, now);
        ApplyConcat(EndingBy(tl, clock), EndingIn(tl, clock, now), startValues);
      }
      values := Apply(EndingIn(tl, clock, now), values);
      clock := now;
    }

    /**
     * The intro sequence has run to its end and its completion callback fires.
     * When nothing but the time line wrote the values, each sits at its target.
     */
    method CompleteIntro()
      requires Valid() && started && !animationCompleted && clock >= Duration(IntroPlan(finalLogoHeight))
      modifies this
      ensures Valid() && animationCompleted
      ensures values == old(values) && language == old(language) && started == old(started)
      ensures clock == old(clock) && startValues == old(startValues)
      ensures old(OnTimeline()) ==> OnTimeline() && values == TargetValues(finalLogoHeight)
    {
      if OnTimeline() {
        IntroAllLanded(finalLogoHeight, clock);
        IntroReachesTargets(finalLogoHeight, startValues);
      }
      animationCompleted := true;
    }

    /** The language switch. */
    method ToggleLanguage(isGerman: bool)
      requires Valid()
      modifies this
      ensures Valid()
      ensures language == DraftLanguage(isGerman)
      ensures values == old(values) && animationCompleted == old(animationCompleted) && started == old(started)
      ensures clock == old(clock) && startValues == old(startValues)
    {
      language := DraftLanguage(isGerman);
    }

    /** The start button hands the draft language to the start handler. */
    method PressStart() returns (chosen: Language)
      ensures chosen == language
    {
      chosen := language;
    }
  }

  /**
   * The render reset as written: the intro starts, the logo lands at 3400 ms,
   * a language switch re-renders at 3500 ms and puts the logo back at its
   * centred offset, and nothing moves it again — the intro completes with the
   * logo 170 units below its final place, whatever the viewport.
   */
  method StuckLogoTrace(viewportHeight: int) returns (completed: bool, logoOffset: int)
    ensures completed && logoOffset == InitialLogoPosition && logoOffset != FinalLogoPosition
  {
    var screen := new SplashScreen(viewportHeight);
    screen.MountEffect(En);
    screen.Advance(3500);
    screen.ToggleLanguage(true);
    screen.Render();
    IntroTranslateDone(screen.finalLogoHeight, 3500, 3600);
    screen.Advance(3600);
    IntroSchedule(screen.finalLogoHeight);
    screen.CompleteIntro();
    screen.Render();
    completed, logoOffset := screen.animationCompleted, screen.values[LogoTranslate];
  }

  /** The same run with the reset kept to before the start: the logo docks at its final offset. */
  method DockedLogoTrace(viewportHeight: int) returns (completed: bool, logoOffset: int)
    ensures completed && logoOffset == FinalLogoPosition
  {
    var screen := new SplashScreen(viewportHeight);
    screen.MountEffect(En);
    screen.Advance(3500);
    screen.ToggleLanguage(true);
    screen.RenderBeforeStart();
    screen.Advance(3600);
    IntroSchedule(screen.finalLogoHeight);
    screen.CompleteIntro();
    screen.RenderBeforeStart();
    completed, logoOffset := screen.animationCompleted, screen.values[LogoTranslate];
  }
}

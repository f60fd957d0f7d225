/**
  * Exactly which programs keep acid and caustic apart on a line that starts
  * from rest: those whose first phase is neither self-cleaning nor custom.
  */
module CipExactness {
  import opened Wrappers
  import opened CipProgram
  import opened CipSchedule
  import opened CipRouting
  import opened CipSpec
  import opened CipControl
  import opened CipSafety

  const SHUT := Valves(FEED_SHUT, false, false, RETURN_SHUT, false)

  const REST := Rig(SHUT, Delays(false, 0, false, 0, 0, false), Flags(false, false, false, false),
                    Feeding(false, 0, 0, 0), 0, false, false, EMPTY_METER)

  /** One reading of the sensors, with a custom step that opens everything. */
  const OPEN_WIDE := Valves(Feed(true, true, true, true, true), true, true,
      Ret(true, true, true, true, true, true), true)

  const PLAIN_OPTIONS := Options(Choice(false, false, false, false, false, false), false, Kanal, false, false,
                                 false, false, false, 0, false)

  const SOME_SENSE := Sense(0, false, 0, false, false, false, false, false, false, false, false, false, false, 0,
                            Conc(false, false, false), Conc(false, false, false), false,
                            false, false, false, false, false, None, None,
                            false, false, false, false, false, false, false, false, false, false, false,
                            false, false, false, 0, OPEN_WIDE, PLAIN_OPTIONS)

  /** A line at rest with a recipe and a program chosen. */
  function Ready(program: nat, carWash: bool): LineView {
    LineView(carWash, STEP_START, 0, NO_PHASE, false, false, 0, program, REST)
  }

  /** Ticks only: the program stays what it was when the line started. */
  predicate Operated(es: seq<Event>) {
    forall e | e in es :: e.TickOf? && RinsesSafely(e.s.o)
  }

  ghost predicate AlwaysApart(program: nat, carWash: bool) {
    forall es: seq<Event> | Operated(es) ::
      !(AcidOpen(Run(Ready(program, carWash), es).rig.v) && CausticOpen(Run(Ready(program, carWash), es).rig.v))
  }

  lemma ReadyIsSound(program: nat, carWash: bool)
    ensures Sound(Ready(program, carWash))
    ensures OrdinaryProgram(program) ==> Apart(Ready(program, carWash))
  {
  }

  /** An operator skips from step to step: only the last step's routing counts. */
  lemma {:induction false} SkippingReachesTheMix(l: LineView, s: Sense) returns (es: seq<Event>)
    requires InPhase(l.step, PRG_SELFCLEAN) && l.step < 163 && l.state > 0 && !l.blocked
    requires RinsesSafely(s.o) && !s.o.oldValves
    ensures Operated(es)
    ensures AcidOpen(Run(l, es).rig.v) && CausticOpen(Run(l, es).rig.v)
    decreases 163 - l.step
  {
    var e := TickOf(Next, NotNow, s);
    SkipMovesOn(l, s);
    if l.step == 162 {
      es := [e];
      assert Run(Apply(l, e), []) == Apply(l, e);
    } else {
      var rest := SkippingReachesTheMix(Apply(l, e), s);
      es := [e] + rest;
      assert es[1..] == rest;
    }
  }

  lemma SkipMovesOn(l: LineView, s: Sense)
    requires InPhase(l.step, PRG_SELFCLEAN) && l.step < 163 && l.state > 0 && !l.blocked
    ensures var q := Tick(l, Next, NotNow, s);
      && q.state > 0 && !q.blocked && l.step < q.step <= 163 && InPhase(q.step, PRG_SELFCLEAN)
      && (q.step == 163 <==> l.step == 162)
      && (q.step == 163 && !s.o.oldValves ==> q.rig.v.feed.v02 && q.rig.v.ret.v09)
  {
    hide InitAct, GoToStep;
    var p := GoToStep(Place(l.step, l.prg), 0, l.program, s.o.choice);
    SelfCleanSuccessor(Place(l.step, l.prg), l.program, s.o.choice);
    MixingAct(l.program, s.o);
  }

  lemma SelfCleanSuccessor(at: Place, program: nat, c: Choice)
    requires InPhase(at.step, PRG_SELFCLEAN) && at.step < 163
    ensures var p := GoToStep(at, 0, program, c);
      at.step < p.step <= 163 && InPhase(p.step, PRG_SELFCLEAN) && (p.step == 163 <==> at.step == 162)
  {
  }

  lemma MixingAct(program: nat, o: Options)
    ensures InitAct(163, program, o) == Act.Pump(TankK, TankSHead)
  {
  }

  /** The calls that lead a line into its first phase: a car wash enters it at once, other lines by a skip. */
  function Entering(carWash: bool, s: Sense): seq<Event> {
    var start, next := TickOf(Evaluate, Go, s), TickOf(Next, NotNow, s);
    if carWash then [start] else [start, next]
  }

  /** The rig just before the routing of the first phase. */
  function RigBefore(program: nat, carWash: bool, s: Sense): Rig {
    if carWash then REST else Begin(Ready(program, false), Go, s).rig
  }

  lemma FirstPhase(program: nat, carWash: bool, s: Sense)
    requires program > 0
    ensures var q := Run(Ready(program, carWash), Entering(carWash, s));
      var p := LoadProgram(NO_PHASE, program, s.o.choice);
      q.step == p.step && q.state == 1 && !q.blocked
      && q.rig == InitStep(RigBefore(program, carWash, s), p.step, false, 1, program, s)
  {
    hide InitStep, LoadProgram, GoToStep;
    var start, next := TickOf(Evaluate, Go, s), TickOf(Next, NotNow, s);
    StartLoadsProgram(NO_PHASE, program, s.o.choice);
    var a := Apply(Ready(program, carWash), start);
    assert a == Begin(Ready(program, carWash), Go, s);
    if carWash {
      assert [start][1..] == [];
      assert Run(Ready(program, carWash), [start]) == Run(a, []) == a;
    } else {
      assert [start, next][1..] == [next] && [next][1..] == [];
      assert Run(Ready(program, carWash), [start, next]) == Run(a, [next]) == Run(Apply(a, next), []) == Apply(a, next);
    }
  }

  lemma {:induction false} RunTwice(l: LineView, es: seq<Event>, fs: seq<Event>)
    ensures Run(l, es + fs) == Run(Run(l, es), fs)
    decreases |es|
  {
    if es == [] {
      assert es + fs == fs;
    } else {
      assert (es + fs)[1..] == es[1..] + fs;
      RunTwice(Apply(l, es[0]), es[1..], fs);
    }
  }

  /** Any program that begins with the tanks or a custom step can mix. */
  lemma UnusualProgramMixes(program: nat, carWash: bool, s: Sense) returns (es: seq<Event>)
    requires !OrdinaryProgram(program)
    requires RinsesSafely(s.o) && !s.o.oldValves
    requires AcidOpen(s.customValves) && CausticOpen(s.customValves)
    ensures Operated(es)
    ensures AcidOpen(Run(Ready(program, carWash), es).rig.v) && CausticOpen(Run(Ready(program, carWash), es).rig.v)
  {
    hide InitStep, GoToStep, Tick, RinsesSafely, RigBefore;
    assert program > 0 by { if program == 0 { NothingIsOrdinary(); } }
    FirstPhase(program, carWash, s);
    var es0 := Entering(carWash, s);
    var q := Run(Ready(program, carWash), es0);
    UnusualStart(program, s.o.choice);
    if HighestBelow(program, 16) == PRG_ASO {
      CustomStepOpens(RigBefore(program, carWash, s), program, s);
      es := es0;
    } else {
      var rest := SkippingReachesTheMix(q, s);
      RunTwice(Ready(program, carWash), es0, rest);
      es := es0 + rest;
    }
  }

  /** Where a program with one of the two unusual bits begins. */
  lemma UnusualStart(program: nat, c: Choice)
    requires !OrdinaryProgram(program)
    ensures var p := LoadProgram(NO_PHASE, program, c);
      if HighestBelow(program, 16) == PRG_ASO then p.step == 300
      else InPhase(p.step, PRG_SELFCLEAN) && p.step < 163
  {
  }

  lemma CustomStepOpens(r: Rig, program: nat, s: Sense)
    requires AcidOpen(s.customValves) && CausticOpen(s.customValves)
    ensures var v := InitStep(r, 300, false, 1, program, s).v; AcidOpen(v) && CausticOpen(v)
  {
    hide InitAct;
    CustomAct(program, s.o);
  }

  lemma CustomAct(program: nat, o: Options)
    ensures InitAct(300, program, o) == Act.Custom
  {
  }

  lemma ApartExactlyForOrdinaryPrograms(program: nat, carWash: bool)
    ensures AlwaysApart(program, carWash) <==> OrdinaryProgram(program)
  {
    if OrdinaryProgram(program) {
      ReadyIsSound(program, carWash);
      forall es: seq<Event> | Operated(es)
        ensures !(AcidOpen(Run(Ready(program, carWash), es).rig.v)
          && CausticOpen(Run(Ready(program, carWash), es).rig.v))
      {
        SolutionsStayApart(Ready(program, carWash), es);
      }
    } else {
      var es := UnusualProgramMixes(program, carWash, SOME_SENSE);
      assert !AlwaysApart(program, carWash);
    }
  }
}

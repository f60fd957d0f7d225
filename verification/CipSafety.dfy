/**
  * Safety of one CIP line over all its runs: acid and caustic stay apart, and
  * an idle line stands at its first step.
  */
module CipSafety {
  import opened CipProgram
  import opened CipSchedule
  import opened CipRouting
  import opened CipSpec
  import opened CipControl

  // ---- Acid and caustic stay apart ----

  predicate FeedsAcid(step: int) { step in {42, 43, 44, 46, 48, 116, 118, 119} }

  predicate FeedsCaustic(step: int) { step in {22, 23, 24, 26, 28, 106, 108, 109} }

  /** Steps 61, 71, 81 and 91 inherit the return valves of the step before. */
  predicate Inherits(step: int) { step in {61, 71, 81, 91} }

  predicate ReturnsAcid(step: int) {
    step in {44, 48, 49, 53, 54, 55, 115, 116, 118, 119, 121} || Inherits(step)
  }

  predicate ReturnsCaustic(step: int) {
    step in {24, 28, 29, 31, 33, 34, 35, 105, 106, 108, 109, 111} || Inherits(step)
  }

  /** Which solution valves a line may have open at a step. */
  predicate FeedFits(f: Feed, step: int) {
    (f.v02 ==> FeedsAcid(step)) && (f.v03 ==> FeedsCaustic(step))
  }

  predicate ReturnFits(r: Ret, step: int) {
    (r.v08 ==> ReturnsAcid(step)) && (r.v09 ==> ReturnsCaustic(step)) && !(r.v08 && r.v09)
  }

  predicate Segregated(v: Valves, step: int) {
    FeedFits(v.feed, step) && ReturnFits(v.ret, step)
  }

  predicate AcidOpen(v: Valves) { v.feed.v02 || v.ret.v08 }

  predicate CausticOpen(v: Valves) { v.feed.v03 || v.ret.v09 }

  lemma SegregatedMeansApart(v: Valves, step: int)
    requires Segregated(v, step)
    ensures !(AcidOpen(v) && CausticOpen(v))
  {
  }

  /** A line that neither cleans the tanks nor runs a custom step. */
  predicate OrdinaryPlace(at: Place) {
    OnTrack(at) && (at.step != STEP_END ==> at.prg != PRG_SELFCLEAN && at.prg != PRG_ASO)
  }

  /** Its first phase, the largest bit, decides: no later phase is larger. */
  predicate OrdinaryProgram(program: nat) {
    var first := HighestBelow(program, 16);
    first != PRG_SELFCLEAN && first != PRG_ASO
  }

  predicate RinsesSafely(o: Options) { o.rinseTo.Kanal? || o.rinseTo.TankW? }

  /** The steps that can come before one whose start leaves some valves alone. */
  predicate Comes(p: int, step: int) {
    p == step ||
    match step
    case 6 => p == 5
    case 9 => p == 16
    case 13 => p == 12
    case 23 => p == 22
    case 26 => p == 24
    case 31 => p == 29
    case 34 => p == 33
    case 40 => p == 39
    case 43 => p == 42
    case 46 => p == 44
    case 54 => p == 53
    case 60 => p == 59
    case 63 => p == 62
    case 65 => p == 64
    case 73 => p == 72
    case 75 => p == 74
    case 79 => p == 78
    case 84 => p == 83
    case 10 => EndsPhase(p)
    case 61 => EndsPhase(p)
    case 71 => EndsPhase(p)
    case 81 => EndsPhase(p)
    case 91 => EndsPhase(p) || p == 86
    case _ => true
  }

  predicate EndsPhase(p: int) { p in {0, 9, 15, 16, 40, 60, 67, 79, 91, 111, 121} }

  lemma GoToStepComes(at: Place, param: int, program: nat, c: Choice)
    requires OrdinaryPlace(at) && at.step != STEP_END && OrdinaryProgram(program)
    ensures OrdinaryPlace(GoToStep(at, param, program, c))
    ensures Comes(at.step, GoToStep(at, param, program, c).step)
  {
    if LoadsProgram(at.step, program) {
      LoadComes(at, program, c);
    } else {
      SuccessorComes(at, param, program, c);
    }
  }

  lemma LoadComes(at: Place, program: nat, c: Choice)
    requires OrdinaryPlace(at) && OrdinaryProgram(program) && LoadsProgram(at.step, program)
    ensures OrdinaryPlace(LoadProgram(at.prg, program, c))
    ensures Comes(at.step, LoadProgram(at.prg, program, c).step)
  {
    hide Bit, HighestBelow;
    assert EndsPhase(at.step);
  }

  lemma SuccessorComes(at: Place, param: int, program: nat, c: Choice)
    requires OrdinaryPlace(at) && at.step != STEP_END && !LoadsProgram(at.step, program)
    ensures OrdinaryPlace(Place(Successor(at.step, param, program, c), at.prg))
    ensures Comes(at.step, Successor(at.step, param, program, c))
  {
    if at.step < 40 { EarlySuccessorComes(at, param, program, c); }
    else { LateSuccessorComes(at, param, program, c); }
  }

  lemma EarlySuccessorComes(at: Place, param: int, program: nat, c: Choice)
    requires OrdinaryPlace(at) && at.step < 40 && !LoadsProgram(at.step, program)
    ensures OrdinaryPlace(Place(Successor(at.step, param, program, c), at.prg))
    ensures Comes(at.step, Successor(at.step, param, program, c))
  {
  }

  lemma LateSuccessorComes(at: Place, param: int, program: nat, c: Choice)
    requires OrdinaryPlace(at) && 40 <= at.step < STEP_END && !LoadsProgram(at.step, program)
    ensures OrdinaryPlace(Place(Successor(at.step, param, program, c), at.prg))
    ensures Comes(at.step, Successor(at.step, param, program, c))
  {
  }

  /** The acts of ordinary steps, and at which steps they touch solutions. */
  predicate ActFits(act: Act, step: int) {
    match act
    case ToObject(from, where) =>
      (from.TankK? ==> step == 42) && (from.TankS? ==> step == 22)
      && (where.TankK? ==> step == 53) && (where.TankS? ==> step == 33)
      && !FeedlessMedium(from) && ReturnMedium(where)
    case FromObject(from, where) =>
      (from.TankK? ==> step == 44) && (from.TankS? ==> step == 24)
      && (where.TankK? ==> step == 55) && (where.TankS? ==> step == 35)
      && !FeedlessMedium(from) && ReturnMedium(where)
    case OporCip(where) =>
      step in {6, 9, 23, 34, 40, 43, 54, 60, 63, 73, 79, 84, 91}
      && (where.TankK? ==> step == 54) && (where.TankS? ==> step == 34) && ReturnMedium(where)
    case FillCirc(with) =>
      if with.WithReturn? then step in {10, 13, 26, 46}
      else (with.WithWater? || with.Sanitizer?) && step in {31, 61, 65, 71, 75, 81}
    case Circ(what) => (what.Kisl? ==> step == 48) && (what.Shch? ==> step == 28)
    case OporCirc(where) => (where.TankK? ==> step == 49) && (where.TankS? ==> step == 29) && ReturnMedium(where)
    case FilRR(tank) => SolutionStep(tank, step, 115, 105)
    case CircRR(tank) => SolutionStep(tank, step, 116, 106)
    case CheckConc(tank) => SolutionStep(tank, step, 118, 108)
    case AddRR(tank) => SolutionStep(tank, step, 119, 109)
    case OpolRR(tank) => SolutionStep(tank, step, 121, 111)
    case Pump(_, _) => false
    case Custom => false
    case Unknown => false
    case Idle => step == 0
    case Finish => step == STEP_END
    case DoseRR => true
  }

  predicate SolutionStep(tank: Medium, step: int, acid: int, caustic: int) {
    (tank.TankK? && step == acid) || (tank.TankS? && step == caustic)
  }

  predicate FeedlessMedium(m: Medium) {
    !m.Water? && !m.Sanitizer? && !m.TankW? && !m.TankK? && !m.TankS?
  }

  predicate ReturnMedium(m: Medium) { m.Kanal? || m.TankW? || m.TankK? || m.TankS? }

  lemma InitActFitsEarly(step: int, program: nat, o: Options)
    requires InPhase(step, PRG_PRO) || InPhase(step, PRG_CIRC) || InPhase(step, PRG_S) || step == STEP_START
    requires RinsesSafely(o)
    ensures ActFits(InitAct(step, program, o), step)
  {
  }

  lemma InitActFitsAcid(step: int, program: nat, o: Options)
    requires InPhase(step, PRG_K) || InPhase(step, PRG_D) || step == STEP_END
    requires RinsesSafely(o)
    ensures ActFits(InitAct(step, program, o), step)
  {
  }

  lemma InitActFitsLate(step: int, program: nat, o: Options)
    requires InPhase(step, PRG_SANITIZER) || InPhase(step, PRG_OKO)
      || InPhase(step, PRG_NAVS) || InPhase(step, PRG_NAVK)
    requires RinsesSafely(o)
    ensures ActFits(InitAct(step, program, o), step)
  {
  }

  lemma InitActFits(at: Place, program: nat, o: Options)
    requires OrdinaryPlace(at) && RinsesSafely(o)
    ensures ActFits(InitAct(at.step, program, o), at.step)
  {
    hide InitAct, ActFits;
    if at.prg == PRG_K || at.prg == PRG_D || at.step == STEP_END {
      InitActFitsAcid(at.step, program, o);
    } else if at.prg == PRG_PRO || at.prg == PRG_CIRC || at.prg == PRG_S || at.prg == PRG_S1 || at == START {
      InitActFitsEarly(at.step, program, o);
    } else {
      InitActFitsLate(at.step, program, o);
    }
  }

  lemma DoActFits(at: Place, program: nat, o: Options)
    requires OrdinaryPlace(at) && RinsesSafely(o)
    ensures ActFits(DoAct(at.step, program, o), at.step)
  {
    hide InitAct, DoAct, ActFits;
    InitActFits(at, program, o);
    TablesAgree(at.step, program, o);
  }

  lemma ShutSegregates(v: Valves, step: int)
    ensures v.feed.v02 == v.feed.v03 == false ==> FeedFits(v.feed, step)
    ensures v.ret.v08 == v.ret.v09 == false ==> ReturnFits(v.ret, step)
  {
  }

  lemma InitObjectSegregates(v: Valves, act: Act, step: int, s: Sense)
    requires ActFits(act, step) && (act.ToObject? || act.FromObject? || act.OporCirc?)
    ensures Segregated(InitValves(v, act, step, 1, s), step)
  {
  }

  /** A drained line keeps its valves: they were already those of this phase. */
  lemma InitOporCipSegregates(v: Valves, p: int, where: Medium, step: int, s: Sense)
    requires Segregated(v, p) && Comes(p, step) && ActFits(Act.OporCip(where), step)
    ensures Segregated(InitOporCip(v, where, s), step)
  {
    if s.line { KeptValvesFit(v, p, step); }
  }

  lemma KeptValvesFit(v: Valves, p: int, step: int)
    requires Segregated(v, p) && Comes(p, step)
    requires step in {6, 9, 23, 34, 40, 43, 54, 60, 63, 73, 79, 84, 91}
    ensures Segregated(v, step)
  {
  }

  lemma InitFillSegregates(v: Valves, p: int, with: Medium, step: int)
    requires Segregated(v, p) && Comes(p, step) && ActFits(Act.FillCirc(with), step)
    ensures Segregated(InitFillCirc(v, with, step), step)
  {
  }

  lemma InitTankSegregates(v: Valves, act: Act, step: int, s: Sense)
    requires ActFits(act, step)
    requires act.Circ? || act.FilRR? || act.CircRR? || act.CheckConc? || act.AddRR? || act.OpolRR?
    ensures Segregated(InitValves(v, act, step, 1, s), step)
  {
  }

  lemma InitSegregates(v: Valves, p: int, act: Act, step: int, state: int, s: Sense)
    requires Segregated(v, p) && Comes(p, step) && ActFits(act, step)
    requires state != ERR_OS && state != ERR_CIP_OBJECT
    ensures Segregated(InitValves(v, act, step, state, s), step)
  {
    hide CipSpec.InitToObject, CipSpec.InitFromObject, InitOporCip, InitFillCirc, CipSpec.InitOporCirc,
         CipSpec.InitCirc, FillTank, TankLoop, Comes, FeedFits, ReturnFits;
    match act
    case OporCip(where) => InitOporCipSegregates(v, p, where, step, s);
    case FillCirc(with) => InitFillSegregates(v, p, with, step);
    case ToObject(_, _) => InitObjectSegregates(v, act, step, s);
    case FromObject(_, _) => InitObjectSegregates(v, act, step, s);
    case OporCirc(_) => InitObjectSegregates(v, act, step, s);
    case Idle => ShutSegregates(InitValves(v, act, step, state, s), step);
    case Finish => ShutSegregates(InitValves(v, act, step, state, s), step);
    case DoseRR => ShutSegregates(DOSING, step);
    case _ => InitTankSegregates(v, act, step, s);
  }

  lemma SortSegregates(x: ReturnSide, where: Medium, toTank: bool, s: Sense, step: int)
    requires (where.TankK? && ReturnsAcid(step)) || (where.TankS? && ReturnsCaustic(step))
    requires ReturnFits(x.ret, step)
    ensures ReturnFits(SortRR(x, where, toTank, s).ret, step)
  {
  }

  lemma FeedKeepsSolutionValves(x: FeedSide, from: Medium, s: Sense, step: int)
    requires FeedFits(x.feed, step)
    ensures FeedFits(FeedFor(x, from, s).feed, step)
  {
  }

  lemma ReturnSegregates(x: ReturnSide, where: Medium, sewer: bool, s: Sense, step: int)
    requires where.TankK? ==> ReturnsAcid(step)
    requires where.TankS? ==> ReturnsCaustic(step)
    requires ReturnFits(x.ret, step)
    ensures ReturnFits(Return(x, where, sewer, s).ret, step)
  {
    hide SortRR;
    if IsSolution(where) { SortSegregates(x, where, false, s, step); }
  }

  lemma ToObjectSegregates(r: Rig, step: int, from: Medium, where: Medium, program: nat, s: Sense)
    requires Segregated(r.v, step) && ActFits(Act.ToObject(from, where), step)
    ensures Segregated(CipSpec.ToObject(r, step, from, where, program, s).rig.v, step)
  {
    hide FeedFor, Return, FeedFits, ReturnFits;
    var q := WithFeed(r, FeedFor(FeedSideOf(r), from, s));
    FeedKeepsSolutionValves(FeedSideOf(r), from, s, step);
    ReturnSegregates(ReturnSideOf(q), where, from.TankW?, s, step);
  }

  lemma FromObjectSegregates(r: Rig, step: int, from: Medium, where: Medium, s: Sense)
    requires Segregated(r.v, step) && ActFits(Act.FromObject(from, where), step)
    ensures Segregated(CipSpec.FromObject(r, from, where, s).rig.v, step)
  {
    hide FeedFor, Return, SortRR, CheckArrival, FeedFits, ReturnFits;
    var a := if s.volDone then CheckArrival(r.f, from, where, s) else (r.f, 0);
    var q := r.(f := a.0);
    var p := WithFeed(q, FeedFor(FeedSideOf(q), from, s));
    FeedKeepsSolutionValves(FeedSideOf(q), from, s, step);
    var x := ReturnSideOf(p);
    if IsSolution(from) { SortSegregates(x, from, false, s, step); }
    var y := if IsSolution(from) then SortRR(x, from, false, s) else x;
    ReturnSegregates(y, where, false, s, step);
  }

  lemma OporCipSegregates(r: Rig, step: int, where: Medium, s: Sense)
    requires Segregated(r.v, step) && ActFits(Act.OporCip(where), step)
    ensures Segregated(CipSpec.OporCip(r, step, where, s).rig.v, step)
  {
    hide SortRR, Drained, FeedFits;
    if IsSolution(where) { SortSegregates(ReturnSideOf(r), where, false, s, step); }
  }

  lemma CircFeedSegregates(f: Feed, c: Feeding, step: int, what: Medium, s: Sense)
    requires FeedFits(f, step) && ActFits(Act.Circ(what), step)
    ensures FeedFits(CircFeed(f, c, what, s).0, step)
  {
  }

  lemma CircOverflowSegregates(r: Ret, c: Feeding, step: int, what: Medium, s: Sense)
    requires ReturnFits(r, step) && ActFits(Act.Circ(what), step)
    ensures ReturnFits(CircOverflow(r, c, what, s).0, step)
  {
  }

  lemma CircSegregates(r: Rig, step: int, what: Medium, s: Sense)
    requires Segregated(r.v, step) && ActFits(Act.Circ(what), step)
    ensures Segregated(CipSpec.Circ(r, what, s).rig.v, step)
  {
    hide CircResult, CircValves;
    CircValvesSegregates(r, step, what, s);
  }

  lemma CircValvesSegregates(r: Rig, step: int, what: Medium, s: Sense)
    requires Segregated(r.v, step) && ActFits(Act.Circ(what), step)
    ensures Segregated(CircValves(r, what, s).v, step)
  {
    hide CircFeed, CircOverflow, FeedFits, ReturnFits, ActFits;
    CircFeedSegregates(r.v.feed, r.c, step, what, s);
    var a := if FeedsDuring(what, s.o) then CircFeed(r.v.feed, r.c, what, s) else (r.v.feed, r.c);
    CircOverflowSegregates(r.v.ret, a.1, step, what, s);
  }

  lemma TopUpFits(f: Feed, s: Sense, step: int)
    requires FeedFits(f, step)
    ensures FeedFits(TopUp(f, s.lm, s.lh), step)
  {
  }

  lemma OpolSegregates(r: Rig, step: int, tank: Medium, s: Sense)
    requires Segregated(r.v, step) && ActFits(Act.OpolRR(tank), step)
    ensures Segregated(CipSpec.OpolRR(r, tank, s).rig.v, step)
  {
    hide SortRR, FeedFits, ReturnFits, TopUp;
    SortSegregates(ReturnSideOf(r), tank, true, s, step);
    TopUpFits(r.v.feed, s, step);
  }

  lemma DoSegregates(r: Rig, act: Act, step: int, program: nat, s: Sense)
    requires Segregated(r.v, step) && ActFits(act, step)
    ensures Segregated(DoRouting(r, act, step, program, s).rig.v, step)
  {
    hide CipSpec.ToObject, CipSpec.FromObject, CipSpec.OporCip, CipSpec.Circ, CipSpec.OpolRR;
    match act
    case ToObject(from, where) => ToObjectSegregates(r, step, from, where, program, s);
    case FromObject(from, where) => FromObjectSegregates(r, step, from, where, s);
    case OporCip(where) => OporCipSegregates(r, step, where, s);
    case Circ(what) => CircSegregates(r, step, what, s);
    case OpolRR(tank) => OpolSegregates(r, step, tank, s);
    case FilRR(tank) => TopUpFits(r.v.feed, s, step);
    case _ =>
  }

  /** What holds of a line in every reachable state. */
  predicate Apart(l: LineView) {
    OrdinaryPlace(Place(l.step, l.prg)) && OrdinaryProgram(l.program) && Segregated(l.rig.v, l.step)
  }

  predicate OrdinaryEvent(e: Event) {
    match e
    case TickOf(_, _, s) => RinsesSafely(s.o)
    case ChooseProgram(p) => OrdinaryProgram(p)
    case ChooseRecipe(_) => true
  }

  /** Entering a step, for the first time or after a pause. */
  lemma InitAtKeepsApart(l: LineView, p: int, again: bool, s: Sense)
    requires OrdinaryPlace(Place(l.step, l.prg)) && OrdinaryProgram(l.program)
    requires Segregated(l.rig.v, p) && Comes(p, l.step) && RinsesSafely(s.o)
    requires l.state != ERR_OS && l.state != ERR_CIP_OBJECT
    ensures Apart(InitAt(l, again, s))
  {
    hide InitAct, InitValves, InitFlags, InitFeeding, ActFits, OnTrack, Segregated, Comes;
    InitActFits(Place(l.step, l.prg), l.program, s.o);
    InitSegregates(l.rig.v, p, InitAct(l.step, l.program, s.o), l.step, l.state, s);
  }

  lemma MoveKeepsApart(l: LineView, param: int, s: Sense)
    requires Apart(l) && RinsesSafely(s.o) && l.step != STEP_END
    requires l.state != ERR_OS && l.state != ERR_CIP_OBJECT
    ensures Apart(InitAt(GoTo(l, param, s), false, s))
    ensures GoTo(l, param, s).step == l.step ==> Apart(GoTo(l, param, s))
  {
    hide GoToStep, InitStep, Segregated, OnTrack, Comes, OrdinaryProgram;
    GoToStepComes(Place(l.step, l.prg), param, l.program, s.o.choice);
    InitAtKeepsApart(GoTo(l, param, s), l.step, false, s);
  }

  lemma StopKeepsApart(l: LineView, state: int)
    requires Apart(l)
    ensures Apart(l.(rig := l.rig.(v := StopDev(l.rig.v, state))))
  {
    hide OnTrack;
  }

  lemma WorkKeepsApart(l: LineView, s: Sense)
    requires Apart(l) && RinsesSafely(s.o)
    ensures Apart(Work(l, s))
  {
    hide DoAct, DoRouting, InitStep, OnTrack, GoToStep, Comes;
    if l.state > 0 {
      var q := l.(rig := EvalPids(l.rig, s));
      assert Segregated(q.rig.v, q.step);
      if q.step != STEP_END {
        DoActFits(Place(q.step, q.prg), q.program, s.o);
        DoSegregates(q.rig, DoAct(q.step, q.program, s.o), q.step, q.program, s);
        var o := DoStep(q.rig, q.step, q.program, s);
        var p := q.(rig := o.rig);
        assert Apart(p);
        if o.result > 0 {
          MoveKeepsApart(p, o.result, s);
        } else if o.result < 0 {
          StopKeepsApart(p, o.result);
        }
      } else {
        FinishedIsApart(q);
      }
    } else if l.state < 0 && s.resume && l.state in {ERR_CIP_OBJECT, ERR_OS} {
      ComesAgain(l.step);
      InitAtKeepsApart(l.(state := 1), l.step, true, s);
    }
  }

  lemma NothingIsOrdinary()
    ensures OrdinaryProgram(0)
  {
    assert !Bit(0, PRG_SELFCLEAN) && !Bit(0, PRG_ASO);
  }

  lemma ComesAgain(step: int)
    ensures Comes(step, step)
  {
  }

  lemma FinishedIsApart(l: LineView)
    requires Apart(l) && l.step == STEP_END && l.state > 0
    ensures Apart(Finished(l))
  {
    NothingIsOrdinary();
  }

  lemma CommandKeepsApart(l: LineView, cmd: Command, start: Start, s: Sense)
    requires Apart(l) && RinsesSafely(s.o)
    requires l.step == STEP_START || l.state != 0
    ensures Apart(EvalCommands(l, cmd, start, s))
  {
    hide InitStep, OnTrack, GoToStep, Comes;
    match cmd
    case Next =>
      if l.state != 0 && l.step != STEP_END { MoveKeepsApart(l.(state := 1), 0, s); }
    case Reset =>
      if l.state != 0 {
        ResetKeepsApart(l, s);
      } else {
        NothingIsOrdinary();
      }
    case Evaluate =>
      ComesAgain(l.step);
      if l.state < 0 {
        InitAtKeepsApart(l.(state := 1), l.step, true, s);
      } else if MayStart(l) {
        BeginKeepsApart(l, start, s);
      }
    case _ =>
  }

  lemma ResetKeepsApart(l: LineView, s: Sense)
    requires Apart(l) && RinsesSafely(s.o) && l.state != 0
    ensures Apart(ResetLine(l, s))
  {
    hide InitAct, OnTrack;
    LastActFinishes(l.program, s.o);
    EndsAreOnTrack(l.prg);
  }

  lemma LastActFinishes(program: nat, o: Options)
    ensures InitAct(STEP_END, program, o) == Finish
  {
  }

  lemma BeginKeepsApart(l: LineView, start: Start, s: Sense)
    requires Apart(l) && RinsesSafely(s.o) && l.step == STEP_START
    ensures Apart(Begin(l, start, s))
  {
    hide InitStep, GoToStep, Comes, Segregated;
    if start == Go {
      var q := l.(state := 1, conflict := false);
      if l.carWash {
        GoToStepComes(Place(l.step, l.prg), 0, l.program, s.o.choice);
        assert GoToStep(Place(l.step, l.prg), 0, l.program, s.o.choice)
            == LoadProgram(l.prg, l.program, s.o.choice) by {
          StartLoadsProgram(l.prg, l.program, s.o.choice);
        }
        var p := LoadProgram(q.prg, q.program, s.o.choice);
        InitAtKeepsApart(q.(step := p.step, prg := p.prg), l.step, false, s);
      } else {
        ComesAgain(l.step);
        InitAtKeepsApart(q, l.step, false, s);
      }
    }
  }

  lemma StartLoadsProgram(prg: int, program: nat, c: Choice)
    ensures GoToStep(Place(STEP_START, prg), 0, program, c) == LoadProgram(prg, program, c)
  {
  }

  // ---- What every line keeps, whatever it washes ----

  /**
    * An idle line stands at its first step with no phase loaded, and the
    * scheduler never loses its way.
    */
  predicate Sound(l: LineView) {
    && OnTrack(Place(l.step, l.prg))
    && (l.state == 0 ==> l.step == STEP_START)
    && (l.blocked ==> l.state == STATE_BLOCKED)
  }

  lemma SoundIdle(l: LineView)
    requires Sound(l) && l.state == 0
    ensures l.step == STEP_START && l.prg == NO_PHASE
  {
  }

  lemma EventKeepsSound(l: LineView, e: Event)
    requires Sound(l)
    ensures Sound(Apply(l, e))
  {
    match e
    case TickOf(cmd, start, s) => TickKeepsSound(l, cmd, start, s);
    case _ =>
  }

  lemma GoToKeepsTrack(l: LineView, param: int, s: Sense)
    requires OnTrack(Place(l.step, l.prg)) && l.step != STEP_END
    ensures OnTrack(Place(GoTo(l, param, s).step, GoTo(l, param, s).prg))
  {
    hide GoToStep;
    GoToStepStaysOnTrack(Place(l.step, l.prg), param, l.program, s.o.choice);
  }

  lemma TickKeepsSound(l: LineView, cmd: Command, start: Start, s: Sense)
    requires Sound(l)
    ensures Sound(Tick(l, cmd, start, s))
  {
    hide GoToStep, InitStep, DoStep, EvalPids, LoadProgram, OnTrack;
    var q := Block(l, cmd);
    EndsAreOnTrack(l.prg);
    TrackedStepsArePositive(Place(l.step, l.prg));
    if !q.blocked {
      if cmd in {NoCommand, Lock, Unlock} {
        if q.state > 0 && q.step != STEP_END {
          var p := q.(rig := EvalPids(q.rig, s));
          GoToKeepsTrack(p.(rig := DoStep(p.rig, p.step, p.program, s).rig),
                         DoStep(p.rig, p.step, p.program, s).result, s);
        }
      } else {
        if q.step != STEP_END { GoToKeepsTrack(q, 0, s); }
        if q.state == 0 { SoundIdle(l); }
        LoadFromStartOnTrack(q.program, s.o.choice);
      }
    }
  }

  lemma EndsAreOnTrack(prg: int)
    ensures OnTrack(Place(STEP_START, NO_PHASE)) && OnTrack(Place(STEP_END, prg))
  {
  }

  lemma TrackedStepsArePositive(at: Place)
    requires OnTrack(at)
    ensures at.step >= 0
  {
  }

  lemma LoadFromStartOnTrack(program: nat, c: Choice)
    ensures var p := LoadProgram(NO_PHASE, program, c); OnTrack(p) && p.step != STEP_START
  {
  }

  // ---- Runs ----

  lemma EventKeepsApart(l: LineView, e: Event)
    requires Apart(l) && Sound(l) && OrdinaryEvent(e)
    ensures Apart(Apply(l, e))
  {
    hide Segregated, OrdinaryPlace, OrdinaryProgram, Work, EvalCommands, Hold;
    match e
    case TickOf(cmd, start, s) =>
      var q := Block(l, cmd);
      if q.blocked {
        HoldKeepsApart(q);
      } else if cmd in {NoCommand, Lock, Unlock} {
        WorkKeepsApart(q, s);
      } else {
        CommandKeepsApart(q, cmd, start, s);
      }
    case _ =>
  }

  lemma HoldKeepsApart(l: LineView)
    requires Apart(l)
    ensures Apart(Hold(l))
  {
    hide OrdinaryPlace, OrdinaryProgram;
  }

  /**
    * Every run of a line that neither self-cleans nor runs custom steps, under
    * any sensors, clocks, commands and errors, keeps acid and caustic apart.
    */
  lemma {:induction false} SolutionsStayApart(l: LineView, es: seq<Event>)
    requires Apart(l) && Sound(l)
    requires forall e | e in es :: OrdinaryEvent(e)
    ensures Apart(Run(l, es)) && Sound(Run(l, es))
    ensures !(AcidOpen(Run(l, es).rig.v) && CausticOpen(Run(l, es).rig.v))
    decreases |es|
  {
    if es == [] {
      SegregatedMeansApart(l.rig.v, l.step);
    } else {
      EventKeepsApart(l, es[0]);
      EventKeepsSound(l, es[0]);
      SolutionsStayApart(Apply(l, es[0]), es[1..]);
    }
  }
}

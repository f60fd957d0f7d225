/**
  * What one call of a step switches, charges and remembers, step by step:
  * the returns while liquid is emptied, the top-ups, the doses and the pumps.
  */
module CipWorks {
  import opened Wrappers
  import opened CipProgram
  import opened CipRouting
  import opened CipSpec
  import opened CipControl
  import opened CipSafety
  import opened CipValves
  import opened CipEnds
  import opened CipTicks

  /** The additional rinses remember that the object let them go on; no other feed asks. */
  lemma FeedRemembers(r: Rig, step: int, program: nat, s: Sense)
    requires s.fault == 0 && step in {5, 8, 14, 33, 37, 53, 57, 62, 72, 83, 86}
    ensures DoStep(r, step, program, s).rig.f ==
      r.f.(flip := r.f.flip || (step in {8, 37, 57, 86} && s.mayContinue == Some(true)))
  {
    hide InitAct, DoAct, FeedFor, Return, FeedError;
    FeedActs(step, program, s.o);
    NoSolutionNoError(DoAct(step, program, s.o).from, s);
  }

  lemma NoSolutionNoError(from: Medium, s: Sense)
    requires from != TankK && from != TankS
    ensures FeedError(from, s) == 0
  {
  }

  /** A push-out remembers whether what arrives has the right concentration, as long as it does not fail. */
  lemma PushOutRemembers(r: Rig, step: int, program: nat, s: Sense)
    requires s.fault == 0 && PushesOut(step) && s.volDone && Result(r, step, program, s) !in {-12, -13, -14}
    ensures DoStep(r, step, program, s).rig.f == r.f.(returnOk := r.f.returnOk || s.flow, concOk := Arrived(step, s))
  {
    hide InitAct, DoAct, FeedFor, Return, SortRR;
    PushOutActs(step, program, s.o);
  }

  /** That liquid was seen is forgotten whenever the emptying of the object is entered, resumed or anew. */
  lemma EmptyingForgets(r: Rig, step: int, again: bool, state: int, program: nat, s: Sense)
    requires step in {6, 9, 23, 34, 40, 43, 54, 60, 63, 73, 79, 84, 91}
    ensures !InitStep(r, step, again, state, program, s).f.opcip
  {
    hide InitAct, DoAct, InitValves, InitFeeding;
    TablesAgree(step, program, s.o);
    Empties(step, program, s.o);
  }

  /** While the object is emptied its water goes to the tank until that is full, and its solution is sorted. */
  lemma EmptyingReturns(r: Rig, step: int, program: nat, s: Sense)
    requires s.fault == 0 && step in {6, 9, 23, 34, 40, 43, 54, 60, 63, 73, 79}
    ensures var q, x := DoStep(r, step, program, s).rig, ReturnSide(r.v.ret, r.d);
      && (s.line || step in {6, 9, 23, 43, 79} ==> q.v == r.v && q.d == r.d)
      && (!s.line && step in {40, 60, 63, 73} && !s.o.noWaterTank ==> q.v == r.v.(ret := Drainage(!s.lwh)))
      && (!s.line && step == 34 ==> q.v.ret == SortRR(x, TankS, false, s).ret && q.d == SortRR(x, TankS, false, s).d)
      && (!s.line && step == 54 ==> q.v.ret == SortRR(x, TankK, false, s).ret && q.d == SortRR(x, TankK, false, s).d)
  {
    hide InitAct, DoAct, SortRR, Drained;
    TablesAgree(step, program, s.o);
    EmptyingActs(step, program, s.o);
  }

  /** The water of the vessel goes to the tank until that is full, and then to the drain. */
  lemma VesselReturns(r: Rig, step: int, program: nat, s: Sense)
    requires s.fault == 0 && step in {39, 59, 67} && !s.o.noWaterTank
    ensures DoStep(r, step, program, s).rig == r.(v := r.v.(ret := r.v.ret.(v07 := !s.lwh, v11 := s.lwh)))
  {
    hide InitAct, DoAct;
    TablesAgree(step, program, s.o);
    CirculationActs(step, program, s.o);
  }

  /** Which option lets a circulation be topped up. */
  predicate TopsUp(step: int, o: Options) {
    if step == 28 then o.feedS else if step == 48 then o.feedK else o.feedW
  }

  function Circulated(step: int): Medium {
    if step == 28 then Shch else if step == 48 then Kisl else Water
  }

  /**
    * A circulation is topped up where the options say so, and only caustic
    * and acid overflow to their tanks, with the return pump kept on.
    */
  lemma CirculationWorks(r: Rig, step: int, program: nat, s: Sense)
    requires s.fault == 0 && step in {11, 28, 48, 66, 77}
    ensures var q, what := DoStep(r, step, program, s).rig, Circulated(step);
      var fed := if TopsUp(step, s.o) then CircFeed(r.v.feed, r.c, what, s) else (r.v.feed, r.c);
      var back := if step in {28, 48} && s.o.keepPump then CircOverflow(r.v.ret, fed.1, what, s) else (r.v.ret, fed.1);
      q.v == r.v.(v06 := false, feed := fed.0, ret := back.0) && q.c == back.1 && q.m == r.m && q.d == r.d
  {
    hide InitAct, DoAct, CircFeed, CircOverflow, CircResult;
    TablesAgree(step, program, s.o);
    CirculationActs(step, program, s.o);
    TownIsTown(r.v.feed, r.c, s);
  }

  lemma TownIsTown(f: Feed, c: Feeding, s: Sense)
    ensures CircFeed(f, c, HotWater, s) == CircFeed(f, c, Water, s) == CircFeed(f, c, Sanitizer, s)
  {
  }

  /**
    * Filling a preparation and rinsing its pipes: town water is charged or not, and tops the vessel up until the end.
    */
  lemma PreparationDraws(r: Rig, step: int, program: nat, s: Sense)
    requires s.fault == 0 && step in {105, 115, 111, 121}
    ensures var q, over := DoStep(r, step, program, s).rig, Result(r, step, program, s) == 1;
      && q.v.feed == (if over then r.v.feed else r.v.feed.(v00 := !s.lh && (r.v.feed.v00 || !s.lm)))
      && q.m == (if step in {105, 115} then r.m.(wc := r.m.wc + s.litres - r.m.lv, lv := s.litres) else r.m)
      && (step == 111 ==> q.v.ret == SortRR(ReturnSide(r.v.ret, r.d), TankS, true, s).ret)
      && (step == 121 ==> q.v.ret == SortRR(ReturnSide(r.v.ret, r.d), TankK, true, s).ret)
  {
    hide InitAct, DoAct, SortRR;
    TablesAgree(step, program, s.o);
    PreparationActs(step, program, s.o);
  }

  /**
    * A dose that is begun anew after another one is noted for a warning if
    * the dose is the same or a warning was noted before, and the warning is
    * given once.
    */
  lemma DoseIsNoted(r: Rig, step: int, again: bool, state: int, program: nat, s: Sense)
    requires step in {109, 119}
    ensures var q := InitStep(r, step, again, state, program, s);
      && q.dosed == (r.dosed || !again)
      && q.doseWarn == if again then r.doseWarn else r.dosed && (s.sameDose || r.doseWarn)
    ensures s.fault == 0 ==>
      DoStep(r, step, program, s).rig == (if s.overDose || s.opUp then r else r.(doseWarn := false))
  {
    hide InitAct, DoAct, InitValves;
    TablesAgree(step, program, s.o);
    PreparationActs(step, program, s.o);
  }

  /** No other step notes a dose, and the end of the program forgets it. */
  lemma OthersKeepDose(r: Rig, step: int, again: bool, state: int, program: nat, s: Sense)
    requires step in {105, 106, 108, 111, 115, 116, 118, 121}
    ensures var q := InitStep(r, step, again, state, program, s); q.dosed == r.dosed && q.doseWarn == r.doseWarn
    ensures var q := DoStep(r, step, program, s).rig; q.dosed == r.dosed && q.doseWarn == r.doseWarn
  {
    hide InitAct, DoAct, InitValves, SortRR;
    TablesAgree(step, program, s.o);
    PreparationActs(step, program, s.o);
  }

  lemma EndForgetsDose(l: LineView, s: Sense)
    requires l.state > 0 && l.step == 555 && !l.blocked && s.endOk
    ensures var q := Tick(l, NoCommand, NotNow, s);
      && !q.rig.dosed && !q.rig.doseWarn && q.rig.m == EMPTY_METER && q.rig.c.count == 0
      && q.program == 0 && q.recipe < 0 && !q.conflict && q.rig.v == STOPPED
  {
  }

  /** A washing head is fed through the valve of its tank, but not with valves of the old style. */
  lemma HeadIsFed(r: Ret, where: Medium, from: Medium, s: Sense)
    requires where in {TankWHead, TankKHead, TankSHead}
    ensures var q, tank := PumpTarget(r, where, from, s),
                           if where == TankWHead then TankW else if where == TankKHead then TankK else TankS;
      var high := if tank == TankW then s.lwh else if tank == TankK then s.lkh else s.lsh;
      var full := from != tank && high;
      && (tank == TankW ==> q.v07 == (!full && !s.o.oldValves) && q.v08 == r.v08 && q.v09 == r.v09)
      && (tank == TankK ==> q.v08 == (!full && !s.o.oldValves) && q.v07 == r.v07 && q.v09 == r.v09)
      && (tank == TankS ==> q.v09 == (!full && !s.o.oldValves) && q.v07 == r.v07 && q.v08 == r.v08)
      && q.v10 == r.v10 && q.v11 == (full && s.o.noNeutro) && q.v12 == (full && (r.v12 || !s.o.noNeutro))
  {
  }

  /** Pumping to the drain or the neutralization, or nowhere, switches no return valve. */
  lemma OtherwisePumped(r: Ret, where: Medium, from: Medium, s: Sense)
    requires where in {Kanal, Neutro, NoMedium}
    ensures PumpTarget(r, where, from, s) == r
  {
  }

  /** What a pumping step switches: the return as its target says, and for town water the vessel by its levels. */
  lemma PumpingWorks(r: Rig, step: int, program: nat, s: Sense)
    requires s.fault == 0 && SelfCleans(step)
    ensures var q, act := DoStep(r, step, program, s).rig, DoAct(step, program, s.o);
      && act.Pump? && q == r.(v := r.v.(feed := q.v.feed, ret := PumpTarget(r.v.ret, act.where, act.from, s)))
      && (act.from == Water ==> q.v.feed == r.v.feed.(v00 := !s.lm && !s.lh && (r.v.feed.v00 || !s.ll)))
      && (act.from != Water ==> q.v.feed == r.v.feed)
  {
    hide InitAct, DoAct, PumpTarget, PumpOver;
    DoesPump(step, program, s.o);
  }

  /** The custom step is what the plant's script makes of it. */
  lemma CustomWorks(r: Rig, again: bool, state: int, program: nat, s: Sense)
    ensures InitStep(r, 300, again, state, program, s).v == s.customValves
    ensures s.fault == 0 ==> DoStep(r, 300, program, s) == Outcome(r.(v := s.customValves), s.custom)
  {
    hide InitAct, DoAct, InitFlags, InitFeeding;
    CustomActs(program, s.o);
  }

  lemma CustomActs(program: nat, o: Options)
    ensures InitAct(300, program, o) == Custom && DoAct(300, program, o) == Custom
  {
  }
}

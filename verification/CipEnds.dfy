/**
  * When the steps of a line are over or fail, step by step, in terms of the
  * readings alone; how returned solutions are sorted; and what a tick makes of
  * a result. The functions that carry the steps on are not mentioned.
  */
module CipEnds {
  import opened Wrappers
  import opened CipProgram
  import opened CipRouting
  import opened CipSpec
  import opened CipControl
  import opened CipSafety
  import opened CipCommands
  import opened CipValves

  // ---- Sorting by concentration ----

  /**
    * A decision holds for three seconds. Then a solution that is rich enough
    * goes to its tank, unless the tank was full within the last twenty
    * seconds; one that is too rich for the drain goes to the
    * neutralization, if there is one; and everything else to the drain.
    */
  lemma SortsByConcentration(x: ReturnSide, tank: Medium, rinsing: bool, s: Sense)
    requires tank.TankS? || tank.TankK?
    ensures var y := SortRR(x, tank, rinsing, s);
      var c := if tank.TankS? then s.caustic else s.acid;
      var high := (if tank.TankS? then s.lsh else s.lkh) && !rinsing;
      var full := high || (x.d.tankFull && s.now - x.d.tankFullAt <= 20000);
      if s.now - x.d.sortAt < 3000 && !x.d.forceSort then y == x
      else
        && y.ret == (if c.rich && !full then if tank.TankS? then TO_CAUSTIC else TO_ACID
                     else if c.some && !s.o.noNeutro then TO_NEUTRAL else TO_DRAIN)
        && y.d.sortAt == s.now && !y.d.forceSort && y.d.tankFull == full
        && y.d.tankFullAt == (if high then s.now else x.d.tankFullAt)
  {
  }

  /** Clean water returns to its tank, unless that was full within the last minute or the water came from it. */
  lemma WaterReturns(x: ReturnSide, sewer: bool, s: Sense)
    ensures var y := Return(x, TankW, sewer, s);
      var full := s.lwh || (x.d.tankFull && s.now - x.d.tankFullAt <= 60000);
      && y.ret == (if full || sewer then TO_DRAIN else TO_WATER)
      && y.d.tankFull == full && y.d.tankFullAt == (if s.lwh then s.now else x.d.tankFullAt)
  {
  }

  /** Water is taken from the tank, or from the town as long as the tank was empty within the last minute. */
  lemma WaterIsTaken(x: FeedSide, s: Sense)
    ensures var y := FeedFor(x, TankW, s);
      var empty := s.waterEmpty || (x.d.tankEmpty && s.now - x.d.tankEmptyAt <= 60000);
      var litres := s.litres - x.m.lv;
      && y.feed == (if empty then x.feed.(v04 := false, v01 := true, v00 := !s.lh && (x.feed.v00 || !s.lm))
                    else x.feed.(v04 := true, v01 := false, v00 := false))
      && y.m == (if empty then x.m.(wc := x.m.wc + litres, wcInst := x.m.wcInst + litres, lv := s.litres)
                 else x.m.(ws := x.m.ws + litres, lv := s.litres))
      && y.d.tankEmpty == empty && y.d.tankEmptyAt == (if s.waterEmpty then s.now else x.d.tankEmptyAt)
  {
  }

  /** The other sources: what is charged to which account, and how the vessel is topped up. */
  lemma OthersAreTaken(x: FeedSide, from: Medium, s: Sense)
    ensures var y, litres := FeedFor(x, from, s), s.litres - x.m.lv;
      && (from in {Water, Sanitizer} ==>
            && y.m == x.m.(wc := x.m.wc + litres, lv := s.litres)
            && y.feed == x.feed.(v00 := !s.lh && (x.feed.v00 || !s.lm)))
      && (from == TankK ==> y == x.(m := x.m.(acid := x.m.acid + litres, lv := s.litres)))
      && (from == TankS ==> y == x.(m := x.m.(caustic := x.m.caustic + litres, lv := s.litres)))
  {
  }

  // ---- When a step is over ----

  function Result(r: Rig, step: int, program: nat, s: Sense): int {
    DoStep(r, step, program, s).result
  }

  /** A fault of the station fails every step but the last. */
  lemma FaultsFail(r: Rig, step: int, program: nat, s: Sense)
    requires s.fault != 0 && step != 555
    ensures DoStep(r, step, program, s) == Outcome(r, s.fault)
  {
  }

  /**
    * A feed is over when its volume has passed, or at step 86 when the return
    * has become cold; it fails when the tank it draws on is empty. At the
    * additional rinses the object may ask for more.
    */
  lemma FeedEnds(r: Rig, step: int, program: nat, s: Sense)
    requires s.fault == 0 && step in {5, 8, 14, 22, 33, 37, 42, 53, 57, 62, 72, 83, 86}
    ensures var held := step in {8, 37, 57, 86} && !r.f.flip && s.mayContinue == Some(false);
      Result(r, step, program, s) ==
        if step == 42 && !s.lkl then -10
        else if step == 22 && !s.lsl then -11
        else if !held && (s.volDone || (step == 86 && s.cold && program != 1)) then 1 else 0
  {
    hide InitAct, DoAct, FeedFor, Return;
    FeedActs(step, program, s.o);
  }

  lemma FeedActs(step: int, program: nat, o: Options)
    requires step in {5, 8, 14, 22, 33, 37, 42, 53, 57, 62, 72, 83, 86}
    ensures var act := DoAct(step, program, o);
      act.ToObject? && (act.from == TankK <==> step == 42) && (act.from == TankS <==> step == 22)
  {
    hide InitAct, DoAct;
    TablesAgree(step, program, o);
    SolutionActs(step, program, o);
    RinseActs(step, program, o);
  }

  /** What the return must look like when a push-out is over. */
  predicate Arrived(step: int, s: Sense) {
    if step == 24 then s.caustic.some
    else if step == 44 then s.acid.some
    else if step == 35 then !s.caustic.above
    else if step == 55 then !s.acid.above
    else true
  }

  /**
    * A push-out is over when its volume has passed, liquid was seen in the
    * return and what arrives has the right concentration. It fails when no
    * liquid arrives in time, when the concentration stays wrong, and when
    * the tank it draws on is empty.
    */
  lemma PushOutEnds(r: Rig, step: int, program: nat, s: Sense)
    requires s.fault == 0 && step in {7, 24, 35, 44, 55, 64, 74}
    ensures var seen := r.f.returnOk || s.flow;
      Result(r, step, program, s) ==
        if s.volDone && !seen && s.retUp then -12
        else if s.volDone && !Arrived(step, s) && s.chkUp then if step in {24, 44} then -13 else -14
        else if s.volDone && seen && Arrived(step, s) then 1
        else if step == 44 && !s.lkl then -10
        else if step == 24 && !s.lsl then -11
        else 0
  {
    hide InitAct, DoAct, FeedFor, Return, SortRR;
    PushOutActs(step, program, s.o);
  }

  lemma PushOutActs(step: int, program: nat, o: Options)
    requires step in {7, 24, 35, 44, 55, 64, 74}
    ensures var act := DoAct(step, program, o);
      && act.FromObject? && (act.from == TankK <==> step == 44) && (act.from == TankS <==> step == 24)
      && (act.where == TankK <==> step == 55) && (act.where == TankS <==> step == 35)
  {
    hide InitAct, DoAct;
    TablesAgree(step, program, o);
    SolutionActs(step, program, o);
    RinseActs(step, program, o);
  }

  predicate PushesOut(step: int) { step in {7, 24, 35, 44, 55, 64, 74} }

  /** That liquid was seen is forgotten when a push-out is entered anew, but not when it is resumed. */
  lemma PushOutForgets(r: Rig, step: int, again: bool, state: int, program: nat, s: Sense)
    requires PushesOut(step)
    ensures InitStep(r, step, again, state, program, s).f.returnOk == (again && r.f.returnOk)
  {
    hide InitAct, DoAct, InitValves, InitFeeding;
    PushOutActs(step, program, s.o);
    TablesAgree(step, program, s.o);
  }

  /** It is noted only by a call that sees liquid after the volume has passed. */
  lemma PushOutNotes(r: Rig, step: int, program: nat, s: Sense)
    requires PushesOut(step)
    ensures DoStep(r, step, program, s).rig.f.returnOk ==
      (r.f.returnOk || (s.fault == 0 && s.volDone && s.flow))
  {
    hide InitAct, DoAct, FeedFor, Return, SortRR, CheckPurity;
    PushOutActs(step, program, s.o);
    forall f: Flags, from, where ensures CheckPurity(f, from, where, s).0.returnOk == f.returnOk {
      PurityKeepsFlow(f, from, where, s);
    }
  }

  lemma PurityKeepsFlow(f: Flags, from: Medium, where: Medium, s: Sense)
    ensures CheckPurity(f, from, where, s).0.returnOk == f.returnOk
  {
  }

  predicate SeesLiquid(e: Event) { e.TickOf? && e.s.volDone && e.s.flow }

  /** What is known after a call was known before, or was seen in it, at the same step. */
  predicate Learns(l: LineView, q: LineView, s: Sense) {
    PushesOut(q.step) && q.rig.f.returnOk ==> q.step == l.step && (l.rig.f.returnOk || (s.volDone && s.flow))
  }

  lemma EnteringForgets(l: LineView, again: bool, s: Sense)
    ensures var q := InitAt(l, again, s);
      q.step == l.step && (PushesOut(l.step) ==> q.rig.f.returnOk == (again && l.rig.f.returnOk))
  {
    hide InitStep, PushesOut;
    if PushesOut(l.step) { PushOutForgets(l.rig, l.step, again, l.state, l.program, s); }
  }

  lemma WorkLearns(l: LineView, s: Sense)
    ensures Learns(l, Work(l, s), s)
  {
    hide InitAt, DoStep, GoToStep, StopDev, PushesOut;
    LastIsNoPushOut();
    EnteringForgets(l.(state := 1), true, s);
    var r := DoStep(EvalPids(l.rig, s), l.step, l.program, s);
    if PushesOut(l.step) { PushOutNotes(EvalPids(l.rig, s), l.step, l.program, s); }
    EnteringForgets(GoTo(l.(rig := r.rig), r.result, s), false, s);
  }

  lemma CommandLearns(l: LineView, cmd: Command, start: Start, s: Sense)
    ensures Learns(l, EvalCommands(l, cmd, start, s), s)
  {
    hide InitAt, GoToStep, LoadProgram, StopDev, PushesOut;
    LastIsNoPushOut();
    forall q: LineView, again
      ensures var p := InitAt(q, again, s);
        p.step == q.step && (PushesOut(q.step) ==> p.rig.f.returnOk == (again && q.rig.f.returnOk))
    {
      EnteringForgets(q, again, s);
    }
  }

  /** If a line knows at a push-out that liquid was seen, it knew before or sees it now, at the same step. */
  lemma EventNotesLiquid(l: LineView, e: Event)
    requires var q := Apply(l, e); PushesOut(q.step) && q.rig.f.returnOk
    ensures Apply(l, e).step == l.step && (l.rig.f.returnOk || SeesLiquid(e))
  {
    hide Work, EvalCommands, StopDev, PushesOut;
    match e
    case TickOf(cmd, start, s) =>
      WorkLearns(Block(l, cmd), s);
      CommandLearns(Block(l, cmd), cmd, start, s);
    case _ =>
  }

  lemma LastIsNoPushOut()
    ensures !PushesOut(STEP_END) && !PushesOut(STEP_START)
  {
  }

  /**
    * In every run: when a line that came to a push-out from elsewhere holds
    * that liquid is back, then liquid was seen in the return, after the
    * volume had passed, at a moment since it has stood at this step.
    */
  lemma {:induction false} LiquidWasSeen(ls: seq<LineView>, es: seq<Event>, k: nat) returns (i: nat)
    requires |ls| == |es| + 1 && forall m | 0 <= m < |es| :: ls[m + 1] == Apply(ls[m], es[m])
    requires k < |ls| && PushesOut(ls[k].step) && ls[k].rig.f.returnOk
    requires !PushesOut(ls[0].step)
    ensures i < k && SeesLiquid(es[i]) && forall m | i <= m <= k :: ls[m].step == ls[k].step
    decreases k
  {
    hide Apply, PushesOut;
    EventNotesLiquid(ls[k - 1], es[k - 1]);
    if ls[k - 1].rig.f.returnOk {
      i := LiquidWasSeen(ls, es, k - 1);
    } else {
      i := k - 1;
    }
  }

  /**
    * Emptying the object is over at once for a pipe. Otherwise the object's
    * own signal decides; without one, the dry sensor before the pump, the
    * return running dry after liquid was seen, half the time without any
    * liquid (or at step 6), or the whole time.
    */
  lemma EmptyingEnds(r: Rig, step: int, program: nat, s: Sense)
    requires s.fault == 0 && step in {6, 9, 23, 34, 40, 43, 54, 60, 63, 73, 79, 84, 91}
    ensures Result(r, step, program, s) ==
      if s.line then 1
      else if s.empty.Some? then if s.empty.value then 1 else 0
      else if s.retDry || (r.f.opcip && !s.flow && s.retUp)
           || (s.halfUp && (step == 6 || (!r.f.opcip && !s.flow))) || s.opUp then 1 else 0
  {
    hide InitAct, DoAct, DrainReturn, WithReturnSide;
    Empties(step, program, s.o);
  }

  /** Liquid that was seen is remembered while the object is emptied. */
  lemma EmptyingRemembers(r: Rig, step: int, program: nat, s: Sense)
    requires s.fault == 0 && step in {6, 9, 23, 34, 40, 43, 54, 60, 63, 73, 79, 84, 91}
    ensures DoStep(r, step, program, s).rig.f.opcip ==
      (r.f.opcip || (!s.line && s.empty.None? && !s.retDry && s.flow))
  {
    hide InitAct, DoAct, DrainReturn, WithReturnSide;
    Empties(step, program, s.o);
    ReturnKeepsFlags(r, DrainReturn(ReturnSideOf(r), DoAct(step, program, s.o).where, s));
  }

  lemma Empties(step: int, program: nat, o: Options)
    requires step in {6, 9, 23, 34, 40, 43, 54, 60, 63, 73, 79, 84, 91}
    ensures DoAct(step, program, o).OporCip?
  {
    hide InitAct, DoAct;
    TablesAgree(step, program, o);
    EmptyingActs(step, program, o);
  }

  lemma ReturnKeepsFlags(r: Rig, x: ReturnSide)
    ensures WithReturnSide(r, x).f == r.f
  {
  }

  /** Circulation lasts its time, and longer if the object asks to wait and has not let it go on before. */
  lemma CirculationEnds(r: Rig, step: int, program: nat, s: Sense)
    requires s.fault == 0 && step in {11, 28, 48, 66, 77}
    ensures Result(r, step, program, s) ==
      if s.opUp && (s.mayContinue != Some(false) || r.f.flip) then 1 else 0
    ensures DoStep(r, step, program, s).rig.f.flip == (r.f.flip || (!s.opUp && s.mayContinue == Some(true)))
  {
    hide InitAct, DoAct, CircFeed, CircOverflow;
    TablesAgree(step, program, s.o);
    CirculationActs(step, program, s.o);
  }

  lemma VesselEnds(r: Rig, step: int, program: nat, s: Sense)
    requires s.fault == 0
    ensures step in {10, 13, 26, 31, 46, 61, 65, 71, 75, 81} ==>
      Result(r, step, program, s) == if s.fillDone || s.lh then 1 else 0
    ensures step in {12, 15, 16, 29, 39, 49, 59, 67, 78} ==>
      Result(r, step, program, s) == if s.bottomDone || s.opUp then 1 else 0
    ensures step == 0 ==> Result(r, step, program, s) == if s.lm then 1 else 0
    ensures step == 76 ==> Result(r, step, program, s) == if s.opUp then 1 else 0
  {
    hide InitAct, DoAct;
    TablesAgree(step, program, s.o);
    FillingActs(step, program, s.o);
    CirculationActs(step, program, s.o);
    EndActs(step, program, s.o);
  }

  /** A preparation: filling, circulation, the check, a dose, and the rinse of the pipes. */
  lemma PreparationEnds(r: Rig, step: int, program: nat, s: Sense)
    requires s.fault == 0
    ensures step == 105 ==> Result(r, step, program, s) == if s.bulkFull || s.lsh then 1 else 0
    ensures step == 115 ==> Result(r, step, program, s) == if s.bulkFull || s.lkh then 1 else 0
    ensures step in {106, 116} ==> Result(r, step, program, s) == if s.opUp then 1 else 0
    ensures step in {108, 118} ==> Result(r, step, program, s) == if !s.opUp then 0 else if s.checkOk then 1 else 2
    ensures step in {109, 119} ==>
      Result(r, step, program, s) == if s.overDose || s.opUp then 1 else if r.doseWarn then -9 else 0
    ensures step == 111 ==> Result(r, step, program, s) == if !s.caustic.some && s.chkUp then 1 else 0
    ensures step == 121 ==> Result(r, step, program, s) == if !s.acid.some && s.chkUp then 1 else 0
  {
    hide InitAct, DoAct, SortRR;
    TablesAgree(step, program, s.o);
    PreparationActs(step, program, s.o);
  }

  /** The tanks: emptied to the lower level, for a volume, for a volume or a time, or for a time. */
  lemma PumpingEnds(r: Rig, step: int, program: nat, s: Sense)
    requires s.fault == 0 && SelfCleans(step)
    ensures Result(r, step, program, s) ==
      if (if step in {151, 169, 183} then !s.lwl
          else if step in {156, 175} then !s.lsl
          else if step in {163, 181} then !s.lkl
          else if step in {152, 157, 164, 170, 176, 182, 184} then s.scVolDone || s.scTimeOut
          else if step in {153, 160, 167, 173, 179, 185, 186, 187} then s.scVolDone
          else s.scTimeOut) then 1 else 0
  {
    hide InitAct, DoAct, PumpTarget, PumpTopUp;
    DoesPump(step, program, s.o);
  }
}

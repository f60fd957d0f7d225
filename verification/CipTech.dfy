/**
  * The CIP line as an object: its routines overwrite its valves, delays,
  * flags and counters in place and move it from step to step.
  */
module CipTech {
  import opened Wrappers
  import opened CipProgram
  import opened CipRouting
  import opened CipSpec
  import opened CipControl

  class Line {
    const carWash: bool

    var curstep: int
    var state: int
    var curprg: int
    var blocked: bool
    var valvesAreInConflict: bool
    var loadedRecipe: int
    var program: nat
    var rig: Rig           // valves, delays, flags and the water meter

    function View(): LineView
      reads this
    {
      LineView(carWash, curstep, state, curprg, blocked, valvesAreInConflict, loadedRecipe, program, rig)
    }

    constructor (carWash: bool, now: nat, valves: Valves)
      ensures View() == LineView(carWash, 0, 0, NO_PHASE, false, false, NO_RECIPE, 0, rig)
      ensures rig.v == valves && rig.m == EMPTY_METER
    {
      this.carWash := carWash;
      curstep, state, curprg := 0, 0, NO_PHASE;
      blocked, valvesAreInConflict, loadedRecipe, program := false, false, NO_RECIPE, 0;
      rig := Rig(valves, Delays(false, now, false, now, now, false), Flags(false, false, false, false),
                 Feeding(false, 0, now, now), now, false, false, EMPTY_METER);
    }

    // ---- Groups of valves ----

    method SetFeedValves(f: Feed)
      modifies `rig
      ensures rig == old(rig).(v := old(rig).v.(feed := f))
    {
      rig := rig.(v := rig.v.(feed := f));
    }

    method SetReturnValves(r: Ret)
      modifies `rig
      ensures rig == old(rig).(v := old(rig).v.(ret := r))
    {
      rig := rig.(v := rig.v.(ret := r));
    }

    /** V05 and V06: through the washed object, or back to the tanks. */
    method SetPath(toObject: bool, toTanks: bool)
      modifies `rig
      ensures rig == old(rig).(v := old(rig).v.(v05 := toObject, v06 := toTanks))
    {
      rig := rig.(v := rig.v.(v05 := toObject, v06 := toTanks));
    }

    method FeedValves(from: Medium)
      modifies `rig
      ensures rig == old(rig).(v := old(rig).v.(feed := FeedFrom(old(rig).v.feed, from)))
    {
      match from
      case Water => SetFeedValves(Feed(true, true, false, false, false));
      case Sanitizer => SetFeedValves(Feed(true, true, false, false, false));
      case TankW => SetFeedValves(Feed(false, false, false, false, true));
      case TankK => SetFeedValves(Feed(false, false, true, false, false));
      case TankS => SetFeedValves(Feed(false, false, false, true, false));
      case _ =>
    }

    method ReturnValves(where: Medium)
      modifies `rig
      ensures rig == old(rig).(v := old(rig).v.(ret := ReturnTo(old(rig).v.ret, where)))
    {
      match where
      case Kanal => SetReturnValves(Ret(false, false, false, false, true, false));
      case TankW => SetReturnValves(Ret(true, false, false, false, false, false));
      case TankK => SetReturnValves(Ret(false, true, false, false, false, false));
      case TankS => SetReturnValves(Ret(false, false, true, false, false, false));
      case _ =>
    }

    method TopUpVessel(s: Sense)
      modifies `rig
      ensures rig == old(rig).(v := old(rig).v.(feed := TopUp(old(rig).v.feed, s.lm, s.lh)))
    {
      var f := rig.v.feed;
      if !s.lm { f := f.(v00 := true); }
      if s.lh { f := f.(v00 := false); }
      SetFeedValves(f);
    }

    // ---- Sorting a returned solution ----

    method NoteTankFull(high: bool, hold: nat, s: Sense)
      modifies `rig
      ensures rig == old(rig).(d := NoteFull(old(rig).d, high, hold, s))
    {
      var d := rig.d;
      if high {
        d := d.(tankFull := true, tankFullAt := s.now);
      } else if d.tankFull && s.now - d.tankFullAt > hold {
        d := d.(tankFull := false);
      }
      rig := rig.(d := d);
    }

    method SortInto(where: Medium, c: Conc, noNeutro: bool)
      requires IsSolution(where)
      modifies `rig
      ensures rig == old(rig).(v := old(rig).v.(ret :=
        SortedReturn(old(rig).v.ret, where, GradeOf(c, old(rig).d.tankFull), noNeutro)))
    {
      if c.rich && !rig.d.tankFull {
        if where == TankS {
          SetReturnValves(Ret(false, false, true, false, false, false));
        } else {
          SetReturnValves(Ret(false, true, false, false, false, false));
        }
      } else if c.some {
        SetReturnValves(Ret(false, false, false, false, noNeutro, !noNeutro));
      } else {
        SetReturnValves(Ret(false, false, false, false, true, false));
      }
    }

    method SortRR(where: Medium, forceToTank: bool, s: Sense)
      modifies `rig
      ensures rig == WithReturnSide(old(rig), CipSpec.SortRR(ReturnSideOf(old(rig)), where, forceToTank, s))
    {
      if s.now - rig.d.sortAt < SORT_SWITCH_DELAY && !rig.d.forceSort {
        return;
      }
      rig := rig.(d := rig.d.(sortAt := s.now, forceSort := false));
      match where
      case TankS =>
        NoteTankFull(s.lsh && !forceToTank, SORT_FULL_DELAY, s);
        SortInto(TankS, s.caustic, s.o.noNeutro);
      case TankK =>
        NoteTankFull(s.lkh && !forceToTank, SORT_FULL_DELAY, s);
        SortInto(TankK, s.acid, s.o.noNeutro);
      case _ => SetReturnValves(rig.v.ret.(v07 := false));
    }

    // ---- Starting a step ----

    method InitToObject(from: Medium, where: Medium, s: Sense)
      modifies `rig
      ensures rig == old(rig).(v := CipSpec.InitToObject(old(rig).v, from, where, s))
    {
      SetPath(true, false);
      FeedValves(from);
      if where == TankW && s.lwh {
        ReturnValves(Kanal);
      } else {
        ReturnValves(where);
      }
    }

    method InitFromObject(what: Medium, where: Medium, again: bool)
      modifies `rig
      ensures rig == old(rig).(v := CipSpec.InitFromObject(old(rig).v, what, where),
                               f := old(rig).f.(returnOk := again && old(rig).f.returnOk,
                                                concOk := again && old(rig).f.concOk))
    {
      if !again {
        rig := rig.(f := rig.f.(returnOk := false, concOk := false));
      }
      SetPath(true, false);
      FeedValves(what);
      ReturnValves(where);
    }

    method InitOporCIP(where: Medium, s: Sense)
      modifies `rig
      ensures rig == old(rig).(v := InitOporCip(old(rig).v, where, s), f := old(rig).f.(opcip := false))
    {
      rig := rig.(f := rig.f.(opcip := false));
      if s.line { return; }
      SetPath(true, false);
      SetFeedValves(Feed(false, false, false, false, false));
      ReturnValves(where);
      rig := rig.(v := rig.v.(v13 := false));
    }

    method FilCircFeed(withWhat: Medium, step: int)
      modifies `rig
      ensures rig == old(rig).(v := old(rig).v.(feed := FillCircFeed(old(rig).v.feed, withWhat, step)))
    {
      var feed := rig.v.feed.(v01 := true);
      if withWhat == WithWater || withWhat == Sanitizer {
        feed := feed.(v00 := true);
      } else if withWhat == WithReturn {
        feed := feed.(v00 := false);
      }
      if step == 26 {
        feed := feed.(v03 := true);
      } else if step == 46 {
        feed := feed.(v02 := true);
      }
      SetFeedValves(feed);
    }

    method InitFilCirc(withWhat: Medium, step: int)
      modifies `rig
      ensures rig == old(rig).(v := InitFillCirc(old(rig).v, withWhat, step))
    {
      hide FillCircFeed;
      FilCircFeed(withWhat, step);
      if withWhat == WithWater || withWhat == Sanitizer {
        SetReturnValves(rig.v.ret.(v10 := false, v11 := true, v12 := false));
      } else if withWhat == WithReturn {
        SetReturnValves(Ret(false, false, false, true, false, false));
        SetPath(true, false);
      } else {
        SetReturnValves(rig.v.ret.(v11 := false, v12 := false));
      }
    }

    method InitOporCirc(where: Medium)
      modifies `rig
      ensures rig == old(rig).(v := CipSpec.InitOporCirc(old(rig).v, where))
    {
      SetReturnValves(rig.v.ret.(v11 := false));
      SetFeedValves(Feed(false, true, false, false, false));
      SetPath(true, false);
      ReturnValves(where);
    }

    method InitCirc(what: Medium, step: int, again: bool, s: Sense)
      modifies `rig
      ensures rig == old(rig).(v := CipSpec.InitCirc(old(rig).v, what, step, s.o.choice),
                               c := InitFeeding(old(rig).c, Act.Circ(what), again))
    {
      var c := rig.c;
      if !again {
        c := c.(count := 0, on := false);
      }
      if c.on {
        c := c.(count := c.count + 1, on := false);
      }
      var viaTank := (s.o.choice.circTankS && step == 28) || (s.o.choice.circTankK && step == 48);
      var feed := Feed(false, !viaTank, false, false, false);
      var ret := Ret(false, false, false, !viaTank, false, false);
      if what == Shch && s.o.choice.circTankS {
        feed := feed.(v03 := true);
        ret := ret.(v09 := true);
      }
      if what == Kisl && s.o.choice.circTankK {
        feed := feed.(v02 := true);
        ret := ret.(v08 := true);
      }
      rig := rig.(v := Valves(feed, true, false, ret, rig.v.v13), c := c);
    }

    method StopDevices()
      modifies `rig
      ensures rig == old(rig).(v := StopDev(old(rig).v, state))
    {
      SetFeedValves(Feed(false, false, false, false, false));
      SetPath(false, false);
      rig := rig.(v := rig.v.(v13 := false));
      if state != ERR_CIP_OBJECT && state != ERR_OS {
        SetReturnValves(Ret(false, false, false, false, false, false));
      }
    }

    method InitDoseRR()
      modifies `rig
      ensures rig == old(rig).(v := DOSING)
    {
      StopDevices();
      SetFeedValves(Feed(false, true, false, false, false));
      SetPath(true, false);
      SetReturnValves(Ret(false, false, false, true, false, false));
    }

    method InitOpolRR(where: Medium)
      modifies `rig
      ensures rig == old(rig).(v := FillTank(old(rig).v, where, false))
    {
      SetPath(false, true);
      FeedValves(Water);
      ReturnValves(where);
    }

    method InitFilRR(where: Medium)
      modifies `rig
      ensures rig == old(rig).(v := FillTank(old(rig).v, where, true))
    {
      InitOpolRR(where);
      rig := rig.(v := rig.v.(v13 := true));
    }

    method InitCircRR(where: Medium)
      modifies `rig
      ensures rig == old(rig).(v := TankLoop(old(rig).v, where))
    {
      var feed := rig.v.feed.(v00 := false, v01 := false, v04 := false);
      var ret := rig.v.ret.(v07 := false, v10 := false, v11 := false, v12 := false);
      if where == TankK {
        feed := feed.(v02 := true, v03 := false);
        ret := ret.(v08 := true, v09 := false);
      } else if where == TankS {
        feed := feed.(v02 := false, v03 := true);
        ret := ret.(v08 := false, v09 := true);
      }
      rig := rig.(v := Valves(feed, false, true, ret, rig.v.v13));
    }

    method InitAddRR(where: Medium, again: bool, s: Sense)
      modifies `rig
      ensures rig == old(rig).(v := TankLoop(old(rig).v, where),
                               dosed := old(rig).dosed || !again,
                               doseWarn := if again then old(rig).doseWarn
                                           else old(rig).dosed && (s.sameDose || old(rig).doseWarn))
    {
      InitCircRR(where);
      if !again {
        if !rig.dosed {
          rig := rig.(dosed := true, doseWarn := false);
        } else if s.sameDose {
          rig := rig.(doseWarn := true);
        }
      }
    }

    method PumpFeedValves(from: Medium)
      modifies `rig
      ensures rig == old(rig).(v := old(rig).v.(feed := PumpFeed(old(rig).v.feed, from)))
    {
      var feed := Feed(rig.v.feed.v00, false, false, false, false);
      match from {
        case Water => feed := feed.(v01 := true);
        case TankS => feed := feed.(v03 := true);
        case TankK => feed := feed.(v02 := true);
        case TankW => feed := feed.(v04 := true);
        case _ =>
      }
      SetFeedValves(feed);
    }

    method PumpReturnValves(where: Medium, s: Sense)
      modifies `rig
      ensures rig == old(rig).(v := old(rig).v.(ret := PumpReturn(where, s.o)))
    {
      var ret := Ret(false, false, false, false, false, false);
      match where {
        case Kanal => ret := ret.(v11 := true);
        case Neutro => if s.o.noNeutro { ret := ret.(v11 := true); } else { ret := ret.(v12 := true); }
        case TankW => ret := ret.(v07 := true);
        case TankWHead => if !s.o.oldValves { ret := ret.(v07 := true); }
        case TankK => ret := ret.(v08 := true);
        case TankKHead => if !s.o.oldValves { ret := ret.(v08 := true); }
        case TankS => ret := ret.(v09 := true);
        case TankSHead => if !s.o.oldValves { ret := ret.(v09 := true); }
        case _ =>
      }
      SetReturnValves(ret);
    }

    method ScInitPumping(from: Medium, where: Medium, s: Sense)
      modifies `rig
      ensures rig == old(rig).(v := InitPump(old(rig).v, from, where, s.o))
    {
      hide PumpFeed, PumpReturn;
      PumpFeedValves(from);
      PumpReturnValves(where, s);
      SetPath(false, PumpsSomewhere(where));
    }

    method InitTankRouting(act: Act, step: int, again: bool, s: Sense)
      requires act.FilRR? || act.CircRR? || act.CheckConc? || act.AddRR? || act.OpolRR? || act.Pump?
      modifies `rig
      ensures rig == CipSpec.InitRouting(old(rig), act, step, again, state, s)
    {
      hide FillTank, TankLoop, InitPump;
      match act
      case FilRR(tank) => InitFilRR(tank);
      case CircRR(tank) => InitCircRR(tank);
      case CheckConc(tank) => InitCircRR(tank);
      case AddRR(tank) => InitAddRR(tank, again, s);
      case OpolRR(tank) => InitOpolRR(tank);
      case Pump(from, where) => ScInitPumping(from, where, s);
    }

    method InitStepRouting(act: Act, step: int, again: bool, s: Sense)
      modifies `rig
      ensures rig == CipSpec.InitRouting(old(rig), act, step, again, state, s)
    {
      hide CipSpec.InitToObject, CipSpec.InitFromObject, InitOporCip, InitFillCirc, CipSpec.InitOporCirc,
           CipSpec.InitCirc, FillTank, TankLoop, InitPump;
      match act
      case Idle =>
        StopDevices();
        if !s.lm { SetFeedValves(Feed(true, false, false, false, false)); }
      case ToObject(from, where) => InitToObject(from, where, s);
      case FromObject(from, where) => InitFromObject(from, where, again);
      case OporCip(where) => InitOporCIP(where, s);
      case FillCirc(with) => InitFilCirc(with, step);
      case Circ(what) => InitCirc(what, step, again, s);
      case OporCirc(where) => InitOporCirc(where);
      case DoseRR => InitDoseRR();
      case Custom => rig := rig.(v := s.customValves);
      case Finish =>
        StopDevices();
        SetReturnValves(rig.v.ret.(v11 := true));
      case Unknown =>
      case _ => InitTankRouting(act, step, again, s);
    }

    method InitStep(step: int, again: bool, s: Sense)
      modifies `rig
      ensures rig == CipSpec.InitStep(old(rig), step, again, state, program, s)
    {
      hide InitAct, InitRouting;
      rig := rig.(d := Delays(false, s.now, false, s.now, s.now, true));
      if !again {
        rig := rig.(m := rig.m.(lv := 0), f := rig.f.(flip := false));
      }
      InitStepRouting(InitAct(step, program, s.o), step, again, s);
    }

    // ---- Carrying a step on ----

    method ChargeTo(from: Source, s: Sense)
      modifies `rig
      ensures rig == old(rig).(m := Charge(old(rig).m, s.litres, from))
    {
      var m := rig.m;
      var used := s.litres - m.lv;
      match from {
        case TownWater => m := m.(wc := m.wc + used);
        case TownForTank => m := m.(wc := m.wc + used, wcInst := m.wcInst + used);
        case SecondWater => m := m.(ws := m.ws + used);
        case Acid => m := m.(acid := m.acid + used);
        case Alkali => m := m.(caustic := m.caustic + used);
      }
      rig := rig.(m := m.(lv := s.litres));
    }

    method TakeSecondWater(s: Sense)
      modifies `rig
      ensures rig == WithFeed(old(rig), TakeFromWaterTank(FeedSideOf(old(rig)), s))
    {
      var d := rig.d;
      if s.waterEmpty {
        d := d.(tankEmpty := true, tankEmptyAt := s.now);
      } else if d.tankEmpty && s.now - d.tankEmptyAt > TANK_SWITCH_TIME {
        d := d.(tankEmpty := false);
      }
      rig := rig.(d := d);
      if d.tankEmpty {
        ChargeTo(TownForTank, s);
        SetFeedValves(rig.v.feed.(v04 := false, v01 := true));
        TopUpVessel(s);
      } else {
        ChargeTo(SecondWater, s);
        SetFeedValves(rig.v.feed.(v04 := true, v00 := false, v01 := false));
      }
    }

    method FeedObject(from: Medium, s: Sense) returns (res: int)
      modifies `rig
      ensures rig == WithFeed(old(rig), FeedFor(FeedSideOf(old(rig)), from, s))
      ensures res == FeedError(from, s)
    {
      res := 0;
      match from
      case Water =>
        TopUpVessel(s);
        ChargeTo(TownWater, s);
      case Sanitizer =>
        TopUpVessel(s);
        ChargeTo(TownWater, s);
      case TankW => TakeSecondWater(s);
      case TankK =>
        ChargeTo(Acid, s);
        if !s.lkl { res := ERR_NO_ACID; }
      case TankS =>
        ChargeTo(Alkali, s);
        if !s.lsl { res := ERR_NO_ALKALINE; }
      case _ =>
    }

    method ReturnFrom(where: Medium, sewer: bool, s: Sense)
      modifies `rig
      ensures rig == WithReturnSide(old(rig), Return(ReturnSideOf(old(rig)), where, sewer, s))
    {
      hide CipSpec.SortRR;
      match where
      case TankW =>
        NoteTankFull(s.lwh, TANK_SWITCH_TIME, s);
        if rig.d.tankFull || sewer { ReturnValves(Kanal); } else { ReturnValves(TankW); }
      case TankK => SortRR(TankK, false, s);
      case TankS => SortRR(TankS, false, s);
      case _ =>
    }

    method RinseOver(s: Sense) returns (res: int)
      modifies `rig
      ensures res == ToObjectResult(old(rig).f, curstep, program, s)
      ensures rig == old(rig).(f := NoteFlip(old(rig).f, curstep, s))
    {
      if AdditionalRinse(curstep) && !rig.f.flip && s.mayContinue.Some? {
        if !s.mayContinue.value { return 0; }
        rig := rig.(f := rig.f.(flip := true));
      }
      if s.volDone { return 1; }
      if curstep == 86 && s.cold && program != SPROG_RINSING_CLEAN { return 1; }
      return 0;
    }

    method ToObject(from: Medium, where: Medium, s: Sense) returns (res: int)
      modifies `rig
      ensures Outcome(rig, res) == CipSpec.ToObject(old(rig), curstep, from, where, program, s)
    {
      hide FeedFor, FeedError, CipSpec.Return, ToObjectResult, NoteFlip;
      res := FeedObject(from, s);
      if res != 0 { return; }
      ReturnFrom(where, from == TankW, s);
      res := RinseOver(s);
    }

    /** What is checked on arrival: nothing (0), that there is a solution (1), or that there is none (2). */
    method Checked(what: Medium, where: Medium, s: Sense) returns (dst: int, c: Conc)
      ensures dst == if IsSolution(where) then 2 else if IsSolution(what) then 1 else 0
      ensures dst != 0 ==> c == ConcOf(s, if IsSolution(where) then where else what)
    {
      dst := 0;
      c := s.caustic;
      if IsSolution(what) {
        dst := 1;
        if what == TankK { c := s.acid; }
      }
      if IsSolution(where) {
        dst := 2;
        c := if where == TankK then s.acid else s.caustic;
      }
    }

    method Arrived(what: Medium, where: Medium, s: Sense) returns (res: int)
      modifies `rig
      ensures rig == old(rig).(f := CheckArrival(old(rig).f, what, where, s).0)
      ensures res == CheckArrival(old(rig).f, what, where, s).1
    {
      if !rig.f.returnOk {
        if s.flow {
          rig := rig.(f := rig.f.(returnOk := true));
        } else if s.retUp {
          return ERR_NO_RETURN;
        }
      }
      res := ArrivedPure(what, where, s);
    }

    method ArrivedPure(what: Medium, where: Medium, s: Sense) returns (res: int)
      modifies `rig
      ensures rig == old(rig).(f := CheckPurity(old(rig).f, what, where, s).0)
      ensures res == CheckPurity(old(rig).f, what, where, s).1
    {
      var dst, c := Checked(what, where, s);
      hide ConcOf, IsSolution;
      if dst == 0 || (dst == 1 && c.some) || (dst == 2 && !c.above) {
        rig := rig.(f := rig.f.(concOk := true));
        res := if rig.f.returnOk then 1 else 0;
      } else if s.chkUp {
        res := if dst == 1 then ERR_NO_CONC else ERR_IS_CONC;
      } else {
        rig := rig.(f := rig.f.(concOk := false));
        res := 0;
      }
    }

    method FromObject(what: Medium, where: Medium, s: Sense) returns (res: int)
      modifies `rig
      ensures Outcome(rig, res) == CipSpec.FromObject(old(rig), what, where, s)
    {
      hide CheckArrival, FeedFor, FeedError, CipSpec.Return, CipSpec.SortRR;
      if s.volDone {
        res := Arrived(what, where, s);
        if res != 0 { return; }
      }
      res := FeedObject(what, s);
      if res != 0 { return; }
      if what.TankK? || what.TankS? {
        SortRR(what, false, s);
      }
      ReturnFrom(where, false, s);
    }

    method DrainTo(where: Medium, s: Sense)
      modifies `rig
      ensures rig == WithReturnSide(old(rig), DrainReturn(ReturnSideOf(old(rig)), where, s))
    {
      hide CipSpec.SortRR;
      match where
      case TankW => if s.lwh { ReturnValves(Kanal); } else { ReturnValves(TankW); }
      case TankK => SortRR(TankK, false, s);
      case TankS => SortRR(TankS, false, s);
      case _ =>
    }

    method IsDrained(s: Sense) returns (res: int)
      modifies `rig
      ensures rig == old(rig).(f := old(rig).f.(opcip := Drained(old(rig).f.opcip, curstep, s).0))
      ensures res == Drained(old(rig).f.opcip, curstep, s).1
    {
      if s.empty.Some? { return if s.empty.value then 1 else 0; }
      if s.retDry { return 1; }
      if s.flow {
        rig := rig.(f := rig.f.(opcip := true));
      } else if rig.f.opcip && s.retUp {
        return 1;
      }
      if s.halfUp && (curstep == 6 || !rig.f.opcip) { return 1; }
      if s.opUp { return 1; }
      return 0;
    }

    method OporCIP(where: Medium, s: Sense) returns (res: int)
      modifies `rig
      ensures Outcome(rig, res) == CipSpec.OporCip(old(rig), curstep, where, s)
    {
      hide DrainReturn, Drained;
      if s.line { return 1; }
      DrainTo(where, s);
      res := IsDrained(s);
    }

    method StartFeed(what: Medium, s: Sense)
      modifies `rig
      ensures var e := BeginFeed(old(rig).v.feed, old(rig).c, what, s);
        rig == old(rig).(v := old(rig).v.(feed := e.0), c := e.1)
    {
      if !s.lm && !s.ll && !s.lh && rig.c.count < s.o.maxFeeds {
        SetFeedValves(SetFeed(rig.v.feed, what, true));
        if !rig.c.on {
          rig := rig.(c := rig.c.(since := s.now));
        }
        rig := rig.(c := rig.c.(on := true));
      }
    }

    method StopFeed(what: Medium, s: Sense)
      modifies `rig
      ensures var e := EndFeed(old(rig).v.feed, old(rig).c, what, s);
        rig == old(rig).(v := old(rig).v.(feed := e.0), c := e.1)
    {
      if s.lm || s.lh || (rig.c.on && s.now - rig.c.since > CIRC_MAX_FEED_TIME) {
        SetFeedValves(SetFeed(rig.v.feed, what, false));
        if rig.c.on {
          rig := rig.(c := rig.c.(count := rig.c.count + 1));
        }
        rig := rig.(c := rig.c.(on := false));
      }
    }

    method CirculationFeed(what: Medium, s: Sense)
      modifies `rig
      ensures var p := CircFeed(old(rig).v.feed, old(rig).c, what, s);
        rig == old(rig).(v := old(rig).v.(feed := p.0), c := p.1)
    {
      hide BeginFeed, EndFeed;
      StartFeed(what, s);
      StopFeed(what, s);
    }

    method CirculationOverflow(what: Medium, s: Sense)
      modifies `rig
      ensures var p := CircOverflow(old(rig).v.ret, old(rig).c, what, s);
        rig == old(rig).(v := old(rig).v.(ret := p.0), c := p.1)
    {
      if s.lh {
        if s.now - rig.c.overflowAt > CIRC_RETURN_DELAY {
          SetReturnValves(Ret(false, what == Kisl, what == Shch, false, false, false));
          rig := rig.(c := rig.c.(overflowAt := s.now));
        }
      } else {
        if !s.lm {
          SetReturnValves(Ret(false, false, false, true, false, false));
        }
        rig := rig.(c := rig.c.(overflowAt := s.now));
      }
    }

    method CirculationOver(s: Sense) returns (res: int)
      modifies `rig
      ensures res == CircResult(old(rig).f.flip, s)
      ensures rig == old(rig).(f := old(rig).f.(flip := old(rig).f.flip || (!s.opUp && s.mayContinue == Some(true))))
    {
      if s.opUp {
        if s.mayContinue.Some? {
          return if s.mayContinue.value || rig.f.flip then 1 else 0;
        }
        return 1;
      }
      if s.mayContinue.Some? && s.mayContinue.value {
        rig := rig.(f := rig.f.(flip := true));
      }
      return 0;
    }

    method CirculationValves(what: Medium, s: Sense)
      modifies `rig
      ensures rig == CircValves(old(rig), what, s)
    {
      hide CircFeed, CircOverflow;
      rig := rig.(v := rig.v.(v06 := false));
      if FeedsDuring(what, s.o) {
        CirculationFeed(what, s);
      }
      if (what == Kisl || what == Shch) && s.o.keepPump {
        CirculationOverflow(what, s);
      }
    }

    method Circ(what: Medium, s: Sense) returns (res: int)
      modifies `rig
      ensures Outcome(rig, res) == CipSpec.Circ(old(rig), what, s)
    {
      hide CircValves, CircResult;
      CirculationValves(what, s);
      res := CirculationOver(s);
    }

    method OporCirc(where: Medium, s: Sense) returns (res: int)
      modifies `rig
      ensures rig == old(rig).(v := old(rig).v.(ret := OporCircReturn(old(rig).v.ret, where, s)))
      ensures res == if s.bottomDone || s.opUp then 1 else 0
    {
      if where == TankW {
        SetReturnValves(rig.v.ret.(v07 := !s.lwh, v11 := s.lwh));
      }
      return if s.bottomDone || s.opUp then 1 else 0;
    }

    method FilRR(where: Medium, s: Sense) returns (res: int)
      modifies `rig
      ensures Outcome(rig, res) == CipSpec.FilRR(old(rig), where, s)
    {
      ChargeTo(TownWater, s);
      if TankFilled(where, s) { return 1; }
      TopUpVessel(s);
      return 0;
    }

    method AddRR(s: Sense) returns (res: int)
      modifies `rig
      ensures Outcome(rig, res) == CipSpec.AddRR(old(rig), s)
    {
      if s.overDose { return 1; }
      if s.opUp { return 1; }
      if rig.doseWarn {
        rig := rig.(doseWarn := false);
        return ERR_POSSIBLE_NO_MEDIUM;
      }
      return 0;
    }

    method OpolRR(where: Medium, s: Sense) returns (res: int)
      modifies `rig
      ensures Outcome(rig, res) == CipSpec.OpolRR(old(rig), where, s)
    {
      hide CipSpec.SortRR;
      SortRR(where, true, s);
      if !ConcOf(s, where).some && s.chkUp { return 1; }
      TopUpVessel(s);
      return 0;
    }

    method PumpInto(where: Medium, from: Medium, s: Sense)
      modifies `rig
      ensures rig == old(rig).(v := old(rig).v.(ret := PumpTarget(old(rig).v.ret, where, from, s)))
    {
      hide Filled, TankOf, LevelOf;
      var tank := TankOf(where);
      var full, open := false, true;
      if LevelOf(tank, s) && from != tank {
        full, open := true, false;
      } else if tank != where && s.o.oldValves {
        open := false;
      }
      var r := Fill(rig.v.ret, tank, full, open, s.o.noNeutro);
      SetReturnValves(r);
    }

    /** Opens or shuts the valve of the tank and the overflow valves. */
    static method Fill(before: Ret, tank: Medium, full: bool, open: bool, noNeutro: bool) returns (r: Ret)
      ensures r == Filled(before, tank, full, open, noNeutro)
    {
      r := before;
      if !tank.TankW? && !tank.TankK? && !tank.TankS? { return; }
      if full {
        r := r.(v11 := noNeutro, v12 := r.v12 || !noNeutro);
      } else {
        r := r.(v11 := false, v12 := false);
      }
      if tank.TankW? {
        r := r.(v07 := open);
      } else if tank.TankK? {
        r := r.(v08 := open);
      } else {
        r := r.(v09 := open);
      }
    }

    method ScPumping(from: Medium, where: Medium, s: Sense) returns (res: int)
      modifies `rig
      ensures Outcome(rig, res) == CipSpec.Pump(old(rig), curstep, from, where, s)
    {
      hide PumpTarget, PumpOver;
      if from == Water {
        var f := rig.v.feed;
        if !s.ll { f := f.(v00 := true); }
        if s.lm || s.lh { f := f.(v00 := false); }
        SetFeedValves(f);
      }
      PumpInto(where, from, s);
      return if PumpOver(curstep, s) then 1 else 0;
    }

    method DoStepRouting(act: Act, s: Sense) returns (res: int)
      modifies `rig
      ensures Outcome(rig, res) == DoRouting(old(rig), act, curstep, program, s)
    {
      hide CipSpec.ToObject, CipSpec.FromObject, CipSpec.OporCip, CipSpec.Circ, OporCircReturn,
           CipSpec.FilRR, CipSpec.AddRR, CipSpec.OpolRR, CipSpec.Pump;
      match act
      case Idle => res := if s.lm then 1 else 0;
      case ToObject(from, where) => res := ToObject(from, where, s);
      case FromObject(from, where) => res := FromObject(from, where, s);
      case OporCip(where) => res := OporCIP(where, s);
      case FillCirc(_) => res := if s.fillDone || s.lh then 1 else 0;
      case Circ(what) => res := Circ(what, s);
      case OporCirc(where) => res := OporCirc(where, s);
      case DoseRR => res := if s.opUp then 1 else 0;
      case FilRR(tank) => res := FilRR(tank, s);
      case CircRR(_) => res := if s.opUp then 1 else 0;
      case CheckConc(_) => res := if s.opUp then (if s.checkOk then 1 else 2) else 0;
      case AddRR(_) => res := AddRR(s);
      case OpolRR(tank) => res := OpolRR(tank, s);
      case Pump(from, where) => res := ScPumping(from, where, s);
      case Custom =>
        rig := rig.(v := s.customValves);
        res := s.custom;
      case Finish => res := 0;
      case Unknown => res := ERR_UNKNOWN_STEP;
    }

    /** The last step is handled by EvalCipInProgress, which also resets the line. */
    method DoStep(s: Sense) returns (res: int)
      modifies `rig
      ensures Outcome(rig, res) == CipSpec.DoStep(old(rig), curstep, program, s)
    {
      hide DoAct, DoRouting;
      if s.fault != 0 && curstep != STEP_END { return s.fault; }
      res := DoStepRouting(DoAct(curstep, program, s.o), s);
    }

    // ---- Moving between steps ----

    method LoadNextPhase(s: Sense) returns (step: int)
      modifies `curprg
      ensures Place(step, curprg) == LoadProgram(old(curprg), program, s.o.choice)
    {
      curprg := GetNexpPrg(curprg, program);
      step := PhaseStart(curprg, program, s.o.choice);
    }

    method NextStepNumber(param: int, s: Sense) returns (step: int)
      modifies `curprg
      ensures Place(step, curprg) == GoToStep(Place(curstep, old(curprg)), param, program, s.o.choice)
    {
      hide Successor, LoadProgram;
      if LoadsProgram(curstep, program) {
        step := LoadNextPhase(s);
      } else {
        step := Successor(curstep, param, program, s.o.choice);
      }
    }

    /** Enters the step the line has just been moved to. */
    method EnterStep(again: bool, s: Sense)
      modifies `rig
      ensures View() == InitAt(old(View()), again, s)
    {
      hide CipSpec.InitStep;
      InitStep(curstep, again, s);
    }

    method StopLine()
      modifies `rig, `state
      ensures View() == CipControl.Stop(old(View()))
    {
      StopDevices();
      state := 0;
    }

    method HoldLine()
      modifies `rig, `state
      ensures View() == Hold(old(View()))
    {
      if state > 0 {
        StopLine();
      }
      state := STATE_BLOCKED;
      StopDevices();
    }

    method EvalBlock(cmd: Command) returns (held: bool)
      modifies this
      ensures held == Block(old(View()), cmd).blocked
      ensures View() == if held then Hold(Block(old(View()), cmd)) else Block(old(View()), cmd)
    {
      hide Hold;
      if cmd == Lock {
        blocked := true;
      }
      if cmd == Unlock {
        blocked := false;
        if curstep > 0 { state := STATE_PAUSED; } else { state := 0; }
      }
      if blocked {
        HoldLine();
      }
      return blocked;
    }

    method StartLine(start: Start, s: Sense)
      modifies this
      ensures View() == Begin(old(View()), start, s)
    {
      hide CipSpec.InitStep, LoadProgram;
      match start
      case NotNow =>
      case Conflict =>
        valvesAreInConflict := true;
        state := ERR_VALVES_ARE_IN_CONFLICT;
      case BadDevices =>
        valvesAreInConflict := false;
        state := ERR_WRONG_OS_OR_RECIPE_ERROR;
      case AcidWash =>
        valvesAreInConflict := false;
        state := ERR_ACID_WASH_REQUIRED;
      case Go =>
        state := 1;
        valvesAreInConflict := false;
        if carWash {
          curstep := LoadNextPhase(s);
        }
        EnterStep(false, s);
    }

    method SkipStep(s: Sense)
      modifies this
      ensures View() == NextStep(old(View()), s)
    {
      hide CipSpec.InitStep, GoToStep;
      if state != 0 && curstep != STEP_END {
        curstep := NextStepNumber(0, s);
        state := 1;
        EnterStep(false, s);
      }
    }

    method ResetCommand(s: Sense)
      modifies this
      ensures View() == ResetLine(old(View()), s)
    {
      hide CipSpec.InitStep, StopDev;
      if state != 0 {
        StopLine();
        curstep := STEP_END;
        EnterStep(false, s);
        state := 1;
      } else {
        loadedRecipe := NO_RECIPE;
        program := 0;
      }
    }

    method ResumeCommand(s: Sense)
      modifies this
      ensures View() == Resume(old(View()), s)
    {
      hide CipSpec.InitStep;
      if !valvesAreInConflict {
        if s.devicesBad {
          state := ERR_WRONG_OS_OR_RECIPE_ERROR;
        } else if state != ERR_ACID_WASH_REQUIRED {
          state := 1;
          EnterStep(true, s);
        }
      }
    }

    method EvalCommands(cmd: Command, start: Start, s: Sense)
      modifies this
      ensures View() == CipControl.EvalCommands(old(View()), cmd, start, s)
    {
      hide NextStep, ResetLine, Resume, Begin, StopDev;
      match cmd
      case Next => SkipStep(s);
      case Pause =>
        if state > 0 && curstep != STEP_END {
          StopLine();
          state := STATE_PAUSED;
        }
      case Reset => ResetCommand(s);
      case Evaluate =>
        if state < 0 {
          ResumeCommand(s);
        } else if state == 0 && (loadedRecipe >= 0 || program >= SPROG_ACID_PREPARATION) && program > 0 {
          StartLine(start, s);
        }
      case _ =>
    }

    method FinishProgram()
      modifies this
      ensures View() == Finished(old(View()))
    {
      StopLine();
      curstep := 0;
      curprg := NO_PHASE;
      valvesAreInConflict := false;
      loadedRecipe := NO_RECIPE;
      rig := rig.(m := Meter(0, 0, 0, 0, 0, 0), dosed := false, doseWarn := false, c := rig.c.(count := 0));
      program := 0;
    }

    method StepOver(res: int, s: Sense)
      modifies this
      ensures View() == Advance(old(View()), res, s)
    {
      hide CipSpec.InitStep, GoToStep;
      var nowstep := curstep;
      curstep := NextStepNumber(res, s);
      if curstep != nowstep {
        EnterStep(false, s);
      }
    }

    method StopOnError(res: int)
      modifies this
      ensures View() == Fail(old(View()), res)
    {
      state := res;
      StopLine();
      state := res;
    }

    method EvalCipInProgress(s: Sense)
      modifies this
      ensures View() == CipControl.EvalCipInProgress(old(View()), s)
    {
      hide CipSpec.DoStep, Advance, Fail, Finished;
      if curstep == STEP_END {
        if s.endOk {
          FinishProgram();
        }
        return;
      }
      var res := DoStep(s);
      if res > 0 {
        StepOver(res, s);
      } else if res < 0 {
        StopOnError(res);
      }
    }

    method EvalSteam(s: Sense)
      modifies `rig
      ensures rig == EvalPids(old(rig), s)
    {
      if s.steam {
        if s.now - rig.steamAt > STEAM_VALVE_MIN_DELAY {
          rig := rig.(v := rig.v.(v13 := true));
        }
      } else {
        rig := rig.(v := rig.v.(v13 := false), steamAt := s.now);
      }
    }

    method EvalWork(s: Sense)
      modifies this
      ensures View() == Work(old(View()), s)
    {
      hide CipControl.EvalCipInProgress, CipSpec.InitStep;
      if state > 0 {
        EvalSteam(s);
        EvalCipInProgress(s);
      } else if state < 0 {
        if s.resume && (state == ERR_CIP_OBJECT || state == ERR_OS) {
          state := 1;
          EnterStep(true, s);
        }
      }
    }

    /** evaluate() */
    method TickLine(cmd: Command, start: Start, s: Sense)
      modifies this
      ensures View() == Tick(old(View()), cmd, start, s)
    {
      hide CipControl.EvalCommands, Work, Hold, Block;
      var held := EvalBlock(cmd);
      if held { return; }
      if cmd != NoCommand && cmd != Lock && cmd != Unlock {
        EvalCommands(cmd, start, s);
      } else {
        EvalWork(s);
      }
    }
  }
}

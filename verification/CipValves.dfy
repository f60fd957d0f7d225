/**
  * What is open at each step, valve by valve and step by step: what a line
  * feeds, through which path, and where its return goes. The tables here do
  * not mention the routines that switch the valves.
  */
module CipValves {
  import opened CipProgram
  import opened CipRouting
  import opened CipSpec
  import opened CipControl

  /** V00 and V01, V02, V03, V04: one source each. */
  const TOWN := Feed(true, true, false, false, false)
  const ACID := Feed(false, false, true, false, false)
  const CAUSTIC := Feed(false, false, false, true, false)
  const SECOND := Feed(false, false, false, false, true)
  const NOTHING := Feed(false, false, false, false, false)
  const VESSEL := Feed(false, true, false, false, false)

  /** V07 to V12: one destination each. */
  const TO_WATER := Ret(true, false, false, false, false, false)
  const TO_ACID := Ret(false, true, false, false, false, false)
  const TO_CAUSTIC := Ret(false, false, true, false, false, false)
  const TO_VESSEL := Ret(false, false, false, true, false, false)
  const TO_DRAIN := Ret(false, false, false, false, true, false)
  const TO_NEUTRAL := Ret(false, false, false, false, false, true)

  /** Through the object means V05 open and V06 shut. */
  function Washing(feed: Feed, ret: Ret, steam: bool): Valves {
    Valves(feed, true, false, ret, steam)
  }

  /** Back to the tanks means V06 open and V05 shut. */
  function Tanks(feed: Feed, ret: Ret, steam: bool): Valves {
    Valves(feed, false, true, ret, steam)
  }

  function Drainage(water: bool): Ret { if water then TO_WATER else TO_DRAIN }

  // ---- Entering a step ----

  function Entered(r: Rig, step: int, again: bool, state: int, program: nat, s: Sense): Valves {
    InitStep(r, step, again, state, program, s).v
  }

  lemma EnteredIs(r: Rig, step: int, again: bool, state: int, program: nat, s: Sense)
    ensures Entered(r, step, again, state, program, s) == InitValves(r.v, InitAct(step, program, s.o), step, state, s)
  {
    hide InitAct, InitValves, InitFlags, InitFeeding;
  }

  lemma SolutionActs(step: int, program: nat, o: Options)
    ensures step == 22 ==> InitAct(step, program, o) == Act.ToObject(TankS, Kanal)
    ensures step == 24 ==> InitAct(step, program, o) == Act.FromObject(TankS, Kanal)
    ensures step == 42 ==> InitAct(step, program, o) == Act.ToObject(TankK, Kanal)
    ensures step == 44 ==> InitAct(step, program, o) == Act.FromObject(TankK, Kanal)
    ensures step == 53 ==> InitAct(step, program, o) == Act.ToObject(Water, TankK)
    ensures step == 55 ==> InitAct(step, program, o) == Act.FromObject(Water, TankK)
    ensures step == 33 ==>
      InitAct(step, program, o) == Act.ToObject(if !o.noWaterTank && Bit(program, 4) then TankW else Water, TankS)
    ensures step == 35 ==>
      InitAct(step, program, o) == Act.FromObject(if !o.noWaterTank && Bit(program, 4) then TankW else Water, TankS)
  {
    hide Bit;
  }

  /** Feeding a solution, and pushing it out with itself. */
  lemma EnteringSolution(r: Rig, step: int, again: bool, state: int, program: nat, s: Sense)
    ensures var v := Entered(r, step, again, state, program, s);
      && (step in {22, 24} ==> v == Washing(CAUSTIC, TO_DRAIN, r.v.v13))
      && (step in {42, 44} ==> v == Washing(ACID, TO_DRAIN, r.v.v13))
      && (step in {53, 55} ==> v == Washing(TOWN, TO_ACID, r.v.v13))
      && (step in {33, 35} ==>
           v == Washing(if !s.o.noWaterTank && Bit(program, 4) then SECOND else TOWN, TO_CAUSTIC, r.v.v13))
  {
    hide InitAct, Entered, Bit, InitOporCip, InitFillCirc,
         CipSpec.InitOporCirc, CipSpec.InitCirc, FillTank, TankLoop,
         InitPump, StopDev;
    EnteredIs(r, step, again, state, program, s);
    SolutionActs(step, program, s.o);
  }

  lemma RinseActs(step: int, program: nat, o: Options)
    ensures step in {5, 8, 14} ==>
      InitAct(step, program, o) == Act.ToObject(if o.noWaterTank then Water else TankW, Kanal)
    ensures step == 7 ==>
      InitAct(step, program, o) == Act.FromObject(if o.noWaterTank then Water else TankW, Kanal)
    ensures step == 37 ==>
      InitAct(step, program, o) == Act.ToObject(if !o.noWaterTank && Bit(program, 4) then TankW else Water,
                                                                if o.noWaterTank then Kanal else TankW)
    ensures step in {57, 62} ==>
      InitAct(step, program, o) == Act.ToObject(Water, if o.noWaterTank then Kanal else TankW)
    ensures step == 72 ==>
      InitAct(step, program, o) == Act.ToObject(Sanitizer, if o.noWaterTank then Kanal else TankW)
    ensures step == 64 ==>
      InitAct(step, program, o) == Act.FromObject(Water, if o.noWaterTank then Kanal else TankW)
    ensures step == 74 ==>
      InitAct(step, program, o) == Act.FromObject(Sanitizer, if o.noWaterTank then Kanal else TankW)
    ensures step in {83, 86} ==> InitAct(step, program, o) == Act.ToObject(Water, o.rinseTo)
    ensures step == 85 ==> InitAct(step, program, o) == Act.FromObject(Water, o.rinseTo)
  {
    hide Bit;
  }

  /** Rinsing with water from the tank or the town, and returning it. */
  lemma EnteringRinse(r: Rig, step: int, again: bool, state: int, program: nat, s: Sense)
    ensures var v := Entered(r, step, again, state, program, s);
      var second := !s.o.noWaterTank;
      && (step in {5, 7, 8, 14} ==> v == Washing(if second then SECOND else TOWN, TO_DRAIN, r.v.v13))
      && (step == 37 ==>
           v == Washing(if second && Bit(program, 4) then SECOND else TOWN, Drainage(second && !s.lwh), r.v.v13))
      && (step in {57, 62, 72} ==> v == Washing(TOWN, Drainage(second && !s.lwh), r.v.v13))
      && (step in {64, 74} ==> v == Washing(TOWN, Drainage(second), r.v.v13))
      && (step in {83, 86} && s.o.rinseTo in {Kanal, TankW} ==>
           v == Washing(TOWN, Drainage(s.o.rinseTo.TankW? && !s.lwh), r.v.v13))
      && (step == 85 && s.o.rinseTo in {Kanal, TankW} ==> v == Washing(TOWN, Drainage(s.o.rinseTo.TankW?), r.v.v13))
  {
    hide InitAct, Entered, Bit, InitOporCip, InitFillCirc,
         CipSpec.InitOporCirc, CipSpec.InitCirc, FillTank, TankLoop,
         InitPump, StopDev;
    EnteredIs(r, step, again, state, program, s);
    RinseActs(step, program, s.o);
  }

  lemma CirculationActs(step: int, program: nat, o: Options)
    ensures step == 11 ==> InitAct(step, program, o) == Act.Circ(Water)
    ensures step == 66 ==> InitAct(step, program, o) == Act.Circ(HotWater)
    ensures step == 77 ==> InitAct(step, program, o) == Act.Circ(Sanitizer)
    ensures step == 28 ==> InitAct(step, program, o) == Act.Circ(Shch)
    ensures step == 48 ==> InitAct(step, program, o) == Act.Circ(Kisl)
    ensures step in {12, 15, 16, 78} ==> InitAct(step, program, o) == Act.OporCirc(Kanal)
    ensures step == 29 ==> InitAct(step, program, o) == Act.OporCirc(TankS)
    ensures step == 49 ==> InitAct(step, program, o) == Act.OporCirc(TankK)
    ensures step in {39, 59, 67} ==>
      InitAct(step, program, o) == Act.OporCirc(if o.noWaterTank then Kanal else TankW)
  {
    hide Bit;
  }

  /** Circulation through the vessel or a tank, and emptying the vessel. */
  lemma EnteringCirculation(r: Rig, step: int, again: bool, state: int, program: nat, s: Sense)
    ensures var v, c := Entered(r, step, again, state, program, s), s.o.choice;
      && (step in {11, 66, 77} ==> v == Washing(VESSEL, TO_VESSEL, r.v.v13))
      && (step == 28 ==> v == if c.circTankS then Washing(CAUSTIC, TO_CAUSTIC, r.v.v13)
                              else Washing(VESSEL, TO_VESSEL, r.v.v13))
      && (step == 48 ==> v == if c.circTankK then Washing(ACID, TO_ACID, r.v.v13)
                              else Washing(VESSEL, TO_VESSEL, r.v.v13))
  {
    hide InitAct, Entered, Bit, CipSpec.InitToObject, CipSpec.InitFromObject,
         InitOporCip, InitFillCirc, FillTank, TankLoop, InitPump, StopDev;
    EnteredIs(r, step, again, state, program, s);
    CirculationActs(step, program, s.o);
  }

  lemma EnteringVesselEmptying(r: Rig, step: int, again: bool, state: int, program: nat, s: Sense)
    ensures var v := Entered(r, step, again, state, program, s);
      && (step in {12, 15, 16, 78} ==> v == Washing(VESSEL, TO_DRAIN, r.v.v13))
      && (step == 29 ==> v == Washing(VESSEL, TO_CAUSTIC, r.v.v13))
      && (step == 49 ==> v == Washing(VESSEL, TO_ACID, r.v.v13))
      && (step in {39, 59, 67} ==> v == Washing(VESSEL, Drainage(!s.o.noWaterTank), r.v.v13))
  {
    hide InitAct, Entered, Bit, CipSpec.InitCirc;
    EnteredIs(r, step, again, state, program, s);
    CirculationActs(step, program, s.o);
  }

  lemma FillingActs(step: int, program: nat, o: Options)
    ensures step in {10, 13, 26, 46} ==> InitAct(step, program, o) == Act.FillCirc(WithReturn)
    ensures step in {31, 61, 65, 81} ==> InitAct(step, program, o) == Act.FillCirc(WithWater)
    ensures step in {71, 75} ==> InitAct(step, program, o) == Act.FillCirc(Sanitizer)
  {
    hide Bit;
  }

  /** Filling the vessel draws on town water, the return, or a solution tank. */
  lemma EnteringFilling(r: Rig, step: int, again: bool, state: int, program: nat, s: Sense)
    ensures var v, f := Entered(r, step, again, state, program, s), r.v.feed;
      && (step in {10, 13} ==> v == Washing(Feed(false, true, f.v02, f.v03, f.v04), TO_VESSEL, r.v.v13))
      && (step == 26 ==> v == Washing(Feed(false, true, f.v02, true, f.v04), TO_VESSEL, r.v.v13))
      && (step == 46 ==> v == Washing(Feed(false, true, true, f.v03, f.v04), TO_VESSEL, r.v.v13))
      && (step in {31, 61, 65, 71, 75, 81} ==>
           v == r.v.(feed := Feed(true, true, f.v02, f.v03, f.v04),
                     ret := r.v.ret.(v10 := false, v11 := true, v12 := false)))
  {
    hide InitAct, Entered, Bit, CipSpec.InitToObject, CipSpec.InitFromObject,
         InitOporCip, CipSpec.InitOporCirc, CipSpec.InitCirc, FillTank,
         TankLoop, InitPump, StopDev;
    EnteredIs(r, step, again, state, program, s);
    FillingActs(step, program, s.o);
  }

  lemma EmptyingActs(step: int, program: nat, o: Options)
    ensures step in {6, 9, 23, 43, 79} ==> InitAct(step, program, o) == Act.OporCip(Kanal)
    ensures step == 34 ==> InitAct(step, program, o) == Act.OporCip(TankS)
    ensures step == 54 ==> InitAct(step, program, o) == Act.OporCip(TankK)
    ensures step in {40, 60, 63, 73} ==>
      InitAct(step, program, o) == Act.OporCip(if o.noWaterTank then Kanal else TankW)
    ensures step in {84, 91} ==> InitAct(step, program, o) == Act.OporCip(o.rinseTo)
  {
    hide Bit;
  }

  /** Emptying the object: for a pipe nothing is switched. */
  lemma EnteringEmptying(r: Rig, step: int, again: bool, state: int, program: nat, s: Sense)
    ensures var v := Entered(r, step, again, state, program, s);
      && (step in {6, 9, 23, 34, 40, 43, 54, 60, 63, 73, 79, 84, 91} && s.line ==> v == r.v)
      && (!s.line ==>
           && (step in {6, 9, 23, 43, 79} ==> v == Washing(NOTHING, TO_DRAIN, false))
           && (step == 34 ==> v == Washing(NOTHING, TO_CAUSTIC, false))
           && (step == 54 ==> v == Washing(NOTHING, TO_ACID, false))
           && (step in {40, 60, 63, 73} ==> v == Washing(NOTHING, Drainage(!s.o.noWaterTank), false))
           && (step in {84, 91} && s.o.rinseTo in {Kanal, TankW} ==>
                v == Washing(NOTHING, Drainage(s.o.rinseTo.TankW?), false)))
  {
    hide InitAct, Entered, Bit, CipSpec.InitToObject, CipSpec.InitFromObject,
         InitFillCirc, CipSpec.InitOporCirc, CipSpec.InitCirc, FillTank,
         TankLoop, InitPump, StopDev;
    EnteredIs(r, step, again, state, program, s);
    EmptyingActs(step, program, s.o);
  }

  lemma PreparationActs(step: int, program: nat, o: Options)
    ensures step == 105 ==> InitAct(step, program, o) == Act.FilRR(TankS)
    ensures step == 115 ==> InitAct(step, program, o) == Act.FilRR(TankK)
    ensures step == 106 ==> InitAct(step, program, o) == Act.CircRR(TankS)
    ensures step == 108 ==> InitAct(step, program, o) == Act.CheckConc(TankS)
    ensures step == 109 ==> InitAct(step, program, o) == Act.AddRR(TankS)
    ensures step == 116 ==> InitAct(step, program, o) == Act.CircRR(TankK)
    ensures step == 118 ==> InitAct(step, program, o) == Act.CheckConc(TankK)
    ensures step == 119 ==> InitAct(step, program, o) == Act.AddRR(TankK)
    ensures step == 111 ==> InitAct(step, program, o) == Act.OpolRR(TankS)
    ensures step == 121 ==> InitAct(step, program, o) == Act.OpolRR(TankK)
  {
    hide Bit;
  }

  /** Preparing a solution, dosing, and the two ends of a program. */
  lemma EnteringPreparation(r: Rig, step: int, again: bool, state: int, program: nat, s: Sense)
    ensures var v := Entered(r, step, again, state, program, s);
      && (step == 105 ==> v == Tanks(TOWN, TO_CAUSTIC, true))
      && (step == 115 ==> v == Tanks(TOWN, TO_ACID, true))
      && (step == 111 ==> v == Tanks(TOWN, TO_CAUSTIC, r.v.v13))
      && (step == 121 ==> v == Tanks(TOWN, TO_ACID, r.v.v13))
  {
    hide TankLoop, InitAct, Entered, Bit, CipSpec.InitToObject, CipSpec.InitFromObject,
         InitOporCip, InitFillCirc, CipSpec.InitOporCirc, CipSpec.InitCirc,
         InitPump;
    EnteredIs(r, step, again, state, program, s);
    PreparationActs(step, program, s.o);
  }

  lemma EnteringLoop(r: Rig, step: int, again: bool, state: int, program: nat, s: Sense)
    ensures var v := Entered(r, step, again, state, program, s);
      && (step in {106, 108, 109} ==> v == Tanks(CAUSTIC, TO_CAUSTIC, r.v.v13))
      && (step in {116, 118, 119} ==> v == Tanks(ACID, TO_ACID, r.v.v13))
  {
    hide InitAct, Entered, Bit, FillTank;
    EnteredIs(r, step, again, state, program, s);
    PreparationActs(step, program, s.o);
  }

  lemma EndActs(step: int, program: nat, o: Options)
    ensures step == 76 ==> InitAct(step, program, o) == Act.DoseRR
    ensures step == 0 ==> InitAct(step, program, o) == Act.Idle
    ensures step == 555 ==> InitAct(step, program, o) == Act.Finish
  {
    hide Bit;
  }

  /** Dosing a disinfectant, and the two ends of a program. */
  lemma EnteringEnds(r: Rig, step: int, again: bool, state: int, program: nat, s: Sense)
    ensures var v := Entered(r, step, again, state, program, s);
      && (step == 76 ==> v == Washing(VESSEL, TO_VESSEL, false))
      && (step == 0 ==> v.feed == Feed(!s.lm, false, false, false, false) && !v.v05 && !v.v06 && !v.v13)
      && (step == 555 ==> v.feed == NOTHING && !v.v05 && !v.v06 && !v.v13 && v.ret.v11)
  {
    hide InitAct, Entered, Bit;
    EnteredIs(r, step, again, state, program, s);
    EndActs(step, program, s.o);
  }

  /** The tanks clean each other: from where each step pumps. */
  function PumpsFrom(step: int): Feed {
    if step in {155, 156, 157, 168, 175, 176} then CAUSTIC
    else if step in {162, 163, 164, 174, 181, 182} then ACID
    else if step in {151, 152, 161, 169, 170, 180, 183, 184} then SECOND
    else if step in {153, 160, 167, 173, 179, 185, 186, 187} then VESSEL
    else NOTHING
  }

  /** The tank that a step pumps into, or whose washing head it feeds. */
  function PumpsTo(step: int, o: Options): Ret {
    if step in {151, 152} then TO_DRAIN
    else if step == 173 then TO_WATER
    else if step == 162 then TO_ACID
    else if step in {155, 160} then TO_CAUSTIC
    else if step in {176, 181, 182, 183, 184} then if o.noNeutro then TO_DRAIN else TO_NEUTRAL
    else if o.oldValves then RETURN_SHUT
    else if step in {153, 156, 157, 161, 175, 180, 187} then TO_WATER
    else if step in {167, 169, 170, 174, 186} then TO_ACID
    else if step in {163, 164, 168, 179, 185} then TO_CAUSTIC
    else RETURN_SHUT
  }

  predicate SelfCleans(step: int) { 151 <= step <= 188 && step !in {158, 159, 165, 166, 171, 172, 177, 178} }

  lemma EnteringPump(r: Rig, step: int, again: bool, state: int, program: nat, s: Sense)
    requires SelfCleans(step)
    ensures var v := Entered(r, step, again, state, program, s);
      v == Valves(PumpsFrom(step).(v00 := r.v.feed.v00), false, step !in {154, 188}, PumpsTo(step, s.o), r.v.v13)
  {
    hide InitStep;
    EnteringPumpFeeds(r, step, again, state, program, s);
    EnteringPumpReturns(r, step, again, state, program, s);
  }

  lemma EnteringPumpFeeds(r: Rig, step: int, again: bool, state: int, program: nat, s: Sense)
    requires SelfCleans(step)
    ensures var v := Entered(r, step, again, state, program, s);
      v.feed == PumpsFrom(step).(v00 := r.v.feed.v00) && !v.v05 && v.v13 == r.v.v13
  {
    hide Entered, InitAct, PumpReturn, PumpFeed, PumpsFrom;
    EnteredIs(r, step, again, state, program, s);
    PumpSources(step, program, s.o, r.v.feed);
  }

  lemma EnteringPumpReturns(r: Rig, step: int, again: bool, state: int, program: nat, s: Sense)
    requires SelfCleans(step)
    ensures var v := Entered(r, step, again, state, program, s);
      v.ret == PumpsTo(step, s.o) && v.v06 == (step !in {154, 188})
  {
    hide Entered, InitAct, PumpReturn, PumpFeed, PumpsTo;
    EnteredIs(r, step, again, state, program, s);
    PumpSources(step, program, s.o, r.v.feed);
    PumpTargets(step, program, s.o);
  }

  lemma PumpFroms(step: int, program: nat, o: Options)
    requires SelfCleans(step)
    ensures InitAct(step, program, o).Pump?
    ensures step in {155, 156, 157, 168, 175, 176} ==> InitAct(step, program, o).from == TankS
    ensures step in {162, 163, 164, 174, 181, 182} ==> InitAct(step, program, o).from == TankK
    ensures step in {151, 152, 161, 169, 170, 180, 183, 184} ==> InitAct(step, program, o).from == TankW
    ensures step in {153, 160, 167, 173, 179, 185, 186, 187} ==> InitAct(step, program, o).from == Water
    ensures step in {154, 188} ==> InitAct(step, program, o).from == NoMedium
  {
    hide Bit;
  }

  lemma PumpWheres(step: int, program: nat, o: Options)
    requires SelfCleans(step)
    ensures InitAct(step, program, o).Pump?
    ensures step in {151, 152} ==> InitAct(step, program, o).where == Kanal
    ensures step == 173 ==> InitAct(step, program, o).where == TankW
    ensures step == 162 ==> InitAct(step, program, o).where == TankK
    ensures step in {155, 160} ==> InitAct(step, program, o).where == TankS
    ensures step in {176, 181, 182, 183, 184} ==> InitAct(step, program, o).where == Neutro
    ensures step in {154, 188} ==> InitAct(step, program, o).where == NoMedium
  {
    hide Bit;
  }

  lemma PumpHeads(step: int, program: nat, o: Options)
    requires SelfCleans(step)
    ensures InitAct(step, program, o).Pump?
    ensures step in {153, 156, 157, 161, 175, 180, 187} ==> InitAct(step, program, o).where == TankWHead
    ensures step in {167, 169, 170, 174, 186} ==> InitAct(step, program, o).where == TankKHead
    ensures step in {163, 164, 168, 179, 185} ==> InitAct(step, program, o).where == TankSHead
  {
    hide Bit;
  }

  lemma PumpSources(step: int, program: nat, o: Options, f: Feed)
    requires SelfCleans(step)
    ensures var act := InitAct(step, program, o);
      act.Pump? && PumpFeed(f, act.from) == PumpsFrom(step).(v00 := f.v00)
  {
    hide InitAct;
    PumpFroms(step, program, o);
  }

  lemma PumpTargets(step: int, program: nat, o: Options)
    requires SelfCleans(step)
    ensures var act := InitAct(step, program, o);
      act.Pump? && PumpReturn(act.where, o) == PumpsTo(step, o) && PumpsSomewhere(act.where) == (step !in {154, 188})
  {
    hide InitAct;
    PumpWheres(step, program, o);
    PumpHeads(step, program, o);
  }

  // ---- While a step works ----

  predicate ThroughObject(v: Valves) { v.v05 && !v.v06 }

  predicate ToTanks(v: Valves) { v.v06 && !v.v05 }

  /** Town water: V01 open, V00 as the vessel needs it, and no other source. */
  predicate TownOnly(f: Feed) { f == TOWN.(v00 := f.v00) }

  /** One return valve is open: that of the tank, or the drain or the neutralization for what the tank does not take. */
  predicate GoesTo(r: Ret, where: Medium) {
    match where
    case TankS => r in {TO_CAUSTIC, TO_DRAIN, TO_NEUTRAL}
    case TankK => r in {TO_ACID, TO_DRAIN, TO_NEUTRAL}
    case TankW => r in {TO_WATER, TO_DRAIN}
    case Kanal => r == TO_DRAIN
    case _ => true
  }

  /** Where the return of a feeding or rinsing step belongs. */
  function Belongs(step: int): Medium {
    if step in {5, 7, 8, 14, 22, 42} then Kanal
    else if step in {24, 33, 35, 111} then TankS
    else if step in {44, 53, 55, 121} then TankK
    else if step in {37, 39, 57, 59, 62, 64, 67, 72, 74} then TankW
    else NoMedium
  }

  /** Either town water or the water tank. */
  predicate ServesWater(v: Valves) {
    !v.feed.v02 && !v.feed.v03 && v.feed.v01 != v.feed.v04 && ThroughObject(v)
  }

  /** What stays open and shut all the time that a line works at a step. */
  predicate Serves(step: int, v: Valves) {
    GoesTo(v.ret, Belongs(step)) && Supplied(step, v)
  }

  predicate Supplied(step: int, v: Valves) {
    if step == 0 then v.feed == NOTHING.(v00 := v.feed.v00) && !v.v05 && !v.v06
    else if step in {22, 24} then v.feed == CAUSTIC && ThroughObject(v)
    else if step in {42, 44} then v.feed == ACID && ThroughObject(v)
    else if step in {53, 55, 57, 62, 64, 72, 74, 83, 85, 86} then TownOnly(v.feed) && ThroughObject(v)
    else if step in {5, 7, 8, 14, 33, 35, 37} then ServesWater(v)
    else if step in {11, 66, 77} then TownOnly(v.feed) && ThroughObject(v) && v.ret == TO_VESSEL
    else if step in {28, 48} then ThroughObject(v) && !v.feed.v04
    else if step in {12, 15, 16, 78} then v.feed == VESSEL && ThroughObject(v) && v.ret == TO_DRAIN
    else if step == 29 then v.feed == VESSEL && ThroughObject(v) && v.ret == TO_CAUSTIC
    else if step == 49 then v.feed == VESSEL && ThroughObject(v) && v.ret == TO_ACID
    else if step in {39, 59, 67} then v.feed == VESSEL && ThroughObject(v)
    else ServesVessel(step, v)
  }

  predicate ServesVessel(step: int, v: Valves) {
    if step in {10, 13} then v.feed.v01 && !v.feed.v00 && ThroughObject(v) && v.ret == TO_VESSEL
    else if step == 26 then v.feed.v01 && v.feed.v03 && ThroughObject(v) && v.ret == TO_VESSEL
    else if step == 46 then v.feed.v01 && v.feed.v02 && ThroughObject(v) && v.ret == TO_VESSEL
    else if step in {31, 61, 65, 71, 75, 81} then v.feed.v00 && v.feed.v01 && v.ret.v11
    else if step == 76 then v.feed == VESSEL && ThroughObject(v) && v.ret == TO_VESSEL
    else if step == 105 then TownOnly(v.feed) && ToTanks(v) && v.ret == TO_CAUSTIC
    else if step == 115 then TownOnly(v.feed) && ToTanks(v) && v.ret == TO_ACID
    else if step in {111, 121} then TownOnly(v.feed) && ToTanks(v)
    else if step in {106, 108, 109} then v.feed == CAUSTIC && ToTanks(v) && v.ret == TO_CAUSTIC
    else if step in {116, 118, 119} then v.feed == ACID && ToTanks(v) && v.ret == TO_ACID
    else if SelfCleans(step) then v.feed == PumpsFrom(step).(v00 := v.feed.v00) && !v.v05
    else if step == 555 then v.feed == NOTHING && !v.v05 && !v.v06
    else true
  }

  lemma EnteringServes(r: Rig, step: int, again: bool, state: int, program: nat, s: Sense)
    ensures Serves(step, Entered(r, step, again, state, program, s))
  {
    hide Entered, Supplied;
    EnteringSupplies(r, step, again, state, program, s);
    EnteringSolution(r, step, again, state, program, s);
    EnteringRinse(r, step, again, state, program, s);
    EnteringVesselEmptying(r, step, again, state, program, s);
    EnteringPreparation(r, step, again, state, program, s);
  }

  lemma EnteringSupplies(r: Rig, step: int, again: bool, state: int, program: nat, s: Sense)
    ensures Supplied(step, Entered(r, step, again, state, program, s))
  {
    hide Entered;
    EnteringSolution(r, step, again, state, program, s);
    EnteringRinse(r, step, again, state, program, s);
    EnteringCirculation(r, step, again, state, program, s);
    EnteringVesselEmptying(r, step, again, state, program, s);
    if step in {83, 85, 86} { EnteringLastRinse(r, step, again, state, program, s); }
    EnteringServesVessel(r, step, again, state, program, s);
  }

  lemma EnteringLastRinse(r: Rig, step: int, again: bool, state: int, program: nat, s: Sense)
    requires step in {83, 85, 86}
    ensures var v := Entered(r, step, again, state, program, s); v.feed == TOWN && ThroughObject(v)
  {
    hide InitAct, Entered, ReturnTo;
    EnteredIs(r, step, again, state, program, s);
    RinseActs(step, program, s.o);
  }

  lemma EnteringServesVessel(r: Rig, step: int, again: bool, state: int, program: nat, s: Sense)
    ensures var v := Entered(r, step, again, state, program, s);
      ServesVessel(step, v) && (step == 0 ==> Supplied(step, v))
  {
    hide Entered;
    EnteringFilling(r, step, again, state, program, s);
    EnteringPreparation(r, step, again, state, program, s);
    EnteringEnds(r, step, again, state, program, s);
    EnteringLoop(r, step, again, state, program, s);
    if SelfCleans(step) { EnteringPumpFeeds(r, step, again, state, program, s); }
  }

  lemma FeedForServes(x: FeedSide, from: Medium, s: Sense)
    ensures var f := FeedFor(x, from, s).feed;
      && (IsSolution(from) ==> f == x.feed)
      && (from in {Water, Sanitizer} ==> f == x.feed.(v00 := f.v00))
      && (from in {Water, TankW} && !x.feed.v02 && !x.feed.v03 && x.feed.v01 != x.feed.v04 ==>
            !f.v02 && !f.v03 && f.v01 != f.v04)
  {
  }

  lemma SortGoes(x: ReturnSide, tank: Medium, toTank: bool, s: Sense)
    requires IsSolution(tank) && GoesTo(x.ret, tank)
    ensures GoesTo(SortRR(x, tank, toTank, s).ret, tank)
  {
  }

  lemma ReturnGoes(x: ReturnSide, where: Medium, sewer: bool, s: Sense, to: Medium)
    requires GoesTo(x.ret, to) && (where == to || where == Kanal)
    ensures GoesTo(Return(x, where, sewer, s).ret, to)
    ensures where == Kanal ==> Return(x, where, sewer, s) == x
  {
    hide SortRR;
    if IsSolution(where) { SortGoes(x, where, false, s); }
  }

  lemma ToObjectServes(r: Rig, step: int, from: Medium, where: Medium, program: nat, s: Sense, to: Medium)
    requires GoesTo(r.v.ret, to) && (where == to || where == Kanal)
    ensures var v := CipSpec.ToObject(r, step, from, where, program, s).rig.v;
      v == r.v.(feed := FeedFor(FeedSideOf(r), from, s).feed, ret := v.ret) && GoesTo(v.ret, to)
  {
    hide FeedFor, Return, GoesTo;
    var q := WithFeed(r, FeedFor(FeedSideOf(r), from, s));
    ReturnGoes(ReturnSideOf(q), where, from.TankW?, s, to);
  }

  lemma FromObjectFeeds(r: Rig, from: Medium, where: Medium, s: Sense)
    ensures var v := CipSpec.FromObject(r, from, where, s).rig.v;
      && v == r.v.(feed := v.feed, ret := v.ret)
      && (v.feed == r.v.feed || v.feed == FeedFor(FeedSideOf(r), from, s).feed)
  {
    hide FeedFor, SortRR, CheckArrival, Return, FeedError;
    var a := if s.volDone then CheckArrival(r.f, from, where, s) else (r.f, 0);
    assert FeedSideOf(r.(f := a.0)) == FeedSideOf(r);
  }

  lemma FromObjectReturns(r: Rig, from: Medium, where: Medium, s: Sense, to: Medium)
    requires GoesTo(r.v.ret, to) && (where == to || where == Kanal) && (IsSolution(from) ==> from == to)
    ensures GoesTo(CipSpec.FromObject(r, from, where, s).rig.v.ret, to)
  {
    hide FeedFor, SortRR, CheckArrival, Return, FeedError, GoesTo;
    var a := if s.volDone then CheckArrival(r.f, from, where, s) else (r.f, 0);
    var q := r.(f := a.0);
    var x := ReturnSideOf(WithFeed(q, FeedFor(FeedSideOf(q), from, s)));
    if IsSolution(from) { SortGoes(x, from, false, s); }
    ReturnGoes(if IsSolution(from) then SortRR(x, from, false, s) else x, where, false, s, to);
  }

  lemma FromObjectServes(r: Rig, from: Medium, where: Medium, s: Sense, to: Medium)
    requires GoesTo(r.v.ret, to) && (where == to || where == Kanal) && (IsSolution(from) ==> from == to)
    ensures var v := CipSpec.FromObject(r, from, where, s).rig.v;
      && v == r.v.(feed := v.feed, ret := v.ret) && GoesTo(v.ret, to)
      && (v.feed == r.v.feed || v.feed == FeedFor(FeedSideOf(r), from, s).feed)
  {
    hide CipSpec.FromObject, FeedFor, GoesTo;
    FromObjectFeeds(r, from, where, s);
    FromObjectReturns(r, from, where, s, to);
  }

  lemma SetFeedServes(f: Feed, what: Medium, open: bool)
    ensures var g := SetFeed(f, what, open);
      g.v04 == f.v04 && (what in {Water, HotWater, Sanitizer} ==> g == f.(v00 := g.v00))
  {
  }

  lemma CircFeedServes(f: Feed, c: Feeding, what: Medium, s: Sense)
    ensures var g := CircFeed(f, c, what, s).0;
      g.v04 == f.v04 && (what in {Water, HotWater, Sanitizer} ==> g == f.(v00 := g.v00))
  {
    hide SetFeed;
    var b := BeginFeed(f, c, what, s);
    SetFeedServes(f, what, true);
    SetFeedServes(b.0, what, false);
  }

  lemma CircServes(r: Rig, what: Medium, s: Sense)
    ensures var v := CipSpec.Circ(r, what, s).rig.v;
      && v == r.v.(v06 := false, feed := v.feed, ret := v.ret) && v.feed.v04 == r.v.feed.v04
      && (what in {Water, HotWater, Sanitizer} ==> v == r.v.(v06 := false, feed := r.v.feed.(v00 := v.feed.v00)))
  {
    hide CircFeed, CircOverflow, CircResult;
    CircFeedServes(r.v.feed, r.c, what, s);
  }

  function Done(r: Rig, step: int, program: nat, s: Sense): Valves {
    DoRouting(r, DoAct(step, program, s.o), step, program, s).rig.v
  }

  /** A solution that is fed stays open. */
  lemma SolutionFeeds(r: Rig, step: int, program: nat, s: Sense)
    requires step in {22, 24, 42, 44} && GoesTo(r.v.ret, Belongs(step))
    ensures var v := Done(r, step, program, s); v == r.v.(ret := v.ret) && GoesTo(v.ret, Belongs(step))
  {
    hide InitAct, DoAct, FeedFor, CipSpec.ToObject, CipSpec.FromObject, GoesTo;
    TablesAgree(step, program, s.o);
    SolutionActs(step, program, s.o);
    var m := if step < 30 then TankS else TankK;
    FeedForServes(FeedSideOf(r), m, s);
    if step in {22, 42} { ToObjectServes(r, step, m, Kanal, program, s, Kanal); }
    else { FromObjectServes(r, m, Kanal, s, m); }
  }

  lemma TownFeeds(r: Rig, step: int, program: nat, s: Sense)
    requires step in {53, 55, 57, 62, 64, 72, 74} && GoesTo(r.v.ret, Belongs(step))
    ensures var v := Done(r, step, program, s);
      v == r.v.(feed := r.v.feed.(v00 := v.feed.v00), ret := v.ret) && GoesTo(v.ret, Belongs(step))
  {
    hide InitAct, DoAct, FeedFor, CipSpec.ToObject, CipSpec.FromObject, GoesTo;
    TablesAgree(step, program, s.o);
    SolutionActs(step, program, s.o);
    RinseActs(step, program, s.o);
    var m := if step in {72, 74} then Sanitizer else Water;
    FeedForServes(FeedSideOf(r), m, s);
    var act := DoAct(step, program, s.o);
    if act.ToObject? { ToObjectServes(r, step, m, act.where, program, s, Belongs(step)); }
    else { FromObjectServes(r, m, act.where, s, Belongs(step)); }
  }

  lemma ToObjectFeeds(r: Rig, step: int, from: Medium, where: Medium, program: nat, s: Sense)
    ensures var v := CipSpec.ToObject(r, step, from, where, program, s).rig.v;
      v == r.v.(feed := FeedFor(FeedSideOf(r), from, s).feed, ret := v.ret)
  {
    hide FeedFor, Return;
  }

  lemma LastRinseFeeds(r: Rig, step: int, program: nat, s: Sense)
    requires step in {83, 85, 86}
    ensures var v := Done(r, step, program, s); v == r.v.(feed := r.v.feed.(v00 := v.feed.v00), ret := v.ret)
  {
    hide InitAct, DoAct, FeedFor, CipSpec.ToObject, CipSpec.FromObject;
    TablesAgree(step, program, s.o);
    RinseActs(step, program, s.o);
    FeedForServes(FeedSideOf(r), Water, s);
    ToObjectFeeds(r, step, Water, s.o.rinseTo, program, s);
    FromObjectFeeds(r, Water, s.o.rinseTo, s);
  }

  lemma WaterFeeds(r: Rig, step: int, program: nat, s: Sense)
    requires step in {5, 7, 8, 14, 33, 35, 37} && ServesWater(r.v) && GoesTo(r.v.ret, Belongs(step))
    ensures ServesWater(Done(r, step, program, s)) && GoesTo(Done(r, step, program, s).ret, Belongs(step))
  {
    hide InitAct, DoAct, FeedFor, CipSpec.ToObject, CipSpec.FromObject, GoesTo, Belongs;
    WaterActs(step, program, s.o);
    FeedForServes(FeedSideOf(r), Water, s);
    FeedForServes(FeedSideOf(r), TankW, s);
    match DoAct(step, program, s.o)
    case ToObject(from, where) => ToObjectServes(r, step, from, where, program, s, Belongs(step));
    case FromObject(from, where) => FromObjectServes(r, from, where, s, Belongs(step));
  }

  lemma WaterActs(step: int, program: nat, o: Options)
    requires step in {5, 7, 8, 14, 33, 35, 37}
    ensures var act := DoAct(step, program, o);
      (act.ToObject? || act.FromObject?) && act.from in {Water, TankW} && act.where in {Belongs(step), Kanal}
  {
    hide InitAct, DoAct;
    TablesAgree(step, program, o);
    SolutionActs(step, program, o);
    RinseActs(step, program, o);
  }

  lemma CirculationFeeds(r: Rig, step: int, program: nat, s: Sense)
    requires step in {11, 28, 48, 66, 77}
    ensures var v := Done(r, step, program, s);
      && v == r.v.(v06 := false, feed := v.feed, ret := v.ret) && v.feed.v04 == r.v.feed.v04
      && (step in {11, 66, 77} ==> v == r.v.(v06 := false, feed := r.v.feed.(v00 := v.feed.v00)))
  {
    hide InitAct, DoAct, CipSpec.Circ;
    TablesAgree(step, program, s.o);
    CirculationActs(step, program, s.o);
    var act := DoAct(step, program, s.o);
    CircServes(r, act.what, s);
  }

  lemma EmptyingFeeds(r: Rig, step: int, program: nat, s: Sense)
    requires step in {12, 15, 16, 29, 39, 49, 59, 67, 78} && GoesTo(r.v.ret, Belongs(step))
    ensures var v := Done(r, step, program, s);
      v == r.v.(ret := v.ret) && (step !in {39, 59, 67} ==> v == r.v) && GoesTo(v.ret, Belongs(step))
  {
    hide InitAct, DoAct, OporCircReturn, GoesTo, Belongs;
    VesselActs(step, program, s.o);
    var act := DoAct(step, program, s.o);
    VesselReturn(r.v.ret, act.where, s);
    if step in {39, 59, 67} { EmptiedBelongs(step); }
  }

  lemma EmptiedBelongs(step: int)
    requires step in {39, 59, 67}
    ensures Belongs(step) == TankW
  {
  }

  lemma VesselActs(step: int, program: nat, o: Options)
    requires step in {12, 15, 16, 29, 39, 49, 59, 67, 78}
    ensures var act := DoAct(step, program, o);
      act.OporCirc? && (step !in {39, 59, 67} ==> act.where != TankW)
  {
    hide InitAct, DoAct;
    TablesAgree(step, program, o);
    CirculationActs(step, program, o);
  }

  lemma VesselReturn(r: Ret, where: Medium, s: Sense)
    ensures where != TankW ==> OporCircReturn(r, where, s) == r
    ensures GoesTo(r, TankW) ==> GoesTo(OporCircReturn(r, where, s), TankW)
  {
  }

  lemma FillingFeeds(r: Rig, step: int, program: nat, s: Sense)
    requires step in {10, 13, 26, 46, 31, 61, 65, 71, 75, 81, 76} || step in {0, 555, 106, 108, 109, 116, 118, 119}
    ensures Done(r, step, program, s) == r.v
  {
    hide InitAct, DoAct;
    TablesAgree(step, program, s.o);
    FillingActs(step, program, s.o);
    PreparationActs(step, program, s.o);
    EndActs(step, program, s.o);
  }

  lemma FillServes(r: Rig, tank: Medium, s: Sense)
    ensures var v := CipSpec.FilRR(r, tank, s).rig.v; v == r.v.(feed := r.v.feed.(v00 := v.feed.v00))
  {
    hide TankFilled, Charge;
  }

  lemma RinseServes(r: Rig, tank: Medium, s: Sense)
    requires IsSolution(tank) && GoesTo(r.v.ret, tank)
    ensures var v := CipSpec.OpolRR(r, tank, s).rig.v;
      v == r.v.(feed := r.v.feed.(v00 := v.feed.v00), ret := v.ret) && GoesTo(v.ret, tank)
  {
    hide SortRR, ConcOf, GoesTo;
    SortGoes(ReturnSideOf(r), tank, true, s);
  }

  lemma TankFeeds(r: Rig, step: int, program: nat, s: Sense)
    requires step in {105, 111, 115, 121} && GoesTo(r.v.ret, Belongs(step))
    ensures var v := Done(r, step, program, s);
      && v == r.v.(feed := r.v.feed.(v00 := v.feed.v00), ret := v.ret)
      && (step in {105, 115} ==> v.ret == r.v.ret) && GoesTo(v.ret, Belongs(step))
  {
    hide InitAct, DoAct, CipSpec.FilRR, CipSpec.OpolRR, GoesTo;
    TablesAgree(step, program, s.o);
    PreparationActs(step, program, s.o);
    var tank := if step in {105, 111} then TankS else TankK;
    if step in {105, 115} { FillServes(r, tank, s); } else { RinseServes(r, tank, s); }
  }

  lemma PumpingServes(r: Rig, step: int, program: nat, s: Sense)
    requires SelfCleans(step) && ServesVessel(step, r.v)
    ensures ServesVessel(step, Done(r, step, program, s))
  {
    hide InitAct, DoAct, PumpTarget, PumpsFrom, PumpOver, PumpTopUp;
    DoesPump(step, program, s.o);
    var act := DoAct(step, program, s.o);
    TopsUpOnly(r.v.feed, act.from, s);
  }

  lemma DoesPump(step: int, program: nat, o: Options)
    requires SelfCleans(step)
    ensures DoAct(step, program, o).Pump?
  {
    if step == 176 {
      assert DoAct(176, program, o).Pump?;
    } else {
      hide InitAct, DoAct;
      TablesAgree(step, program, o);
      PumpFroms(step, program, o);
    }
  }

  lemma TopsUpOnly(f: Feed, from: Medium, s: Sense)
    ensures PumpTopUp(f, from, s) == f.(v00 := PumpTopUp(f, from, s).v00)
  {
  }

  lemma DoServes(r: Rig, step: int, program: nat, s: Sense)
    requires Serves(step, r.v)
    ensures Serves(step, DoStep(r, step, program, s).rig.v)
  {
    hide DoRouting, DoAct, GoesTo, Serves;
    if step in {22, 24, 42, 44} || step in {53, 55, 57, 62, 64, 72, 74} || step in {5, 7, 8, 14, 33, 35, 37} {
      DoServesFeeding(r, step, program, s);
    } else if step in {83, 85, 86} {
      DoServesRinsing(r, step, program, s);
    } else if step in {11, 28, 48, 66, 77} {
      DoServesCirculating(r, step, program, s);
    } else if step in {12, 15, 16, 29, 39, 49, 59, 67, 78} {
      DoServesEmptying(r, step, program, s);
    } else {
      DoServesVessel(r, step, program, s);
    }
  }

  lemma DoServesFeeding(r: Rig, step: int, program: nat, s: Sense)
    requires Serves(step, r.v)
    requires step in {22, 24, 42, 44} || step in {53, 55, 57, 62, 64, 72, 74} || step in {5, 7, 8, 14, 33, 35, 37}
    ensures Serves(step, DoStep(r, step, program, s).rig.v)
  {
    hide DoRouting, DoAct, GoesTo, ServesVessel;
    if step in {22, 24, 42, 44} {
      SolutionFeeds(r, step, program, s);
    } else if step in {53, 55, 57, 62, 64, 72, 74} {
      TownFeeds(r, step, program, s);
    } else {
      WaterFeeds(r, step, program, s);
    }
  }

  lemma DoServesRinsing(r: Rig, step: int, program: nat, s: Sense)
    requires Serves(step, r.v) && step in {83, 85, 86}
    ensures Serves(step, DoStep(r, step, program, s).rig.v)
  {
    hide DoStep, Done, GoesTo, Supplied;
    var v := DoStep(r, step, program, s).rig.v;
    FaultOrDone(r, step, program, s);
    NoReturn(step, v);
    RinsingSupplied(step, r.v);
    RinsingSupplied(step, v);
    LastRinseFeeds(r, step, program, s);
  }

  lemma DoServesCirculating(r: Rig, step: int, program: nat, s: Sense)
    requires Serves(step, r.v) && step in {11, 28, 48, 66, 77}
    ensures Serves(step, DoStep(r, step, program, s).rig.v)
  {
    hide DoStep, Done, GoesTo, Supplied;
    var v := DoStep(r, step, program, s).rig.v;
    FaultOrDone(r, step, program, s);
    NoReturn(step, v);
    RinsingSupplied(step, r.v);
    RinsingSupplied(step, v);
    CirculationFeeds(r, step, program, s);
  }

  lemma FaultOrDone(r: Rig, step: int, program: nat, s: Sense)
    ensures DoStep(r, step, program, s).rig.v in {r.v, Done(r, step, program, s)}
  {
    hide DoRouting, DoAct;
  }

  lemma RinsingSupplied(step: int, v: Valves)
    ensures step in {83, 85, 86} ==> (Supplied(step, v) <==> TownOnly(v.feed) && ThroughObject(v))
    ensures step in {11, 66, 77} ==> (Supplied(step, v) <==> TownOnly(v.feed) && ThroughObject(v) && v.ret == TO_VESSEL)
    ensures step in {28, 48} ==> (Supplied(step, v) <==> ThroughObject(v) && !v.feed.v04)
  {
    hide ServesVessel;
  }

  lemma DoServesEmptying(r: Rig, step: int, program: nat, s: Sense)
    requires Serves(step, r.v) && step in {12, 15, 16, 29, 39, 49, 59, 67, 78}
    ensures Serves(step, DoStep(r, step, program, s).rig.v)
  {
    hide DoRouting, DoAct, GoesTo, ServesVessel;
    EmptyingFeeds(r, step, program, s);
  }

  lemma DoServesVessel(r: Rig, step: int, program: nat, s: Sense)
    requires Serves(step, r.v) && step !in {22, 24, 42, 44} && step !in {53, 55, 57, 62, 64, 72, 74, 83, 85, 86}
    requires step !in {5, 7, 8, 14, 33, 35, 37, 11, 28, 48, 66, 77} && step !in {12, 15, 16, 29, 39, 49, 59, 67, 78}
    ensures Serves(step, DoStep(r, step, program, s).rig.v)
  {
    hide DoRouting, DoAct, GoesTo;
    if step in {105, 111, 115, 121} {
      TankFeeds(r, step, program, s);
    } else {
      NoReturn(step, DoStep(r, step, program, s).rig.v);
      if SelfCleans(step) {
        PumpingServes(r, step, program, s);
      } else if step in {10, 13, 26, 46, 31, 61, 65, 71, 75, 81, 76} || step in {0, 555, 106, 108, 109, 116, 118, 119} {
        FillingFeeds(r, step, program, s);
      }
    }
  }

  lemma NoReturn(step: int, v: Valves)
    requires Belongs(step) == NoMedium
    ensures GoesTo(v.ret, Belongs(step))
  {
  }

  // ---- Over whole runs ----

  /** While a line works, what its step needs is open, and nothing else. */
  predicate Served(l: LineView) { l.state > 0 ==> Serves(l.step, l.rig.v) }

  lemma InitAtServes(l: LineView, again: bool, s: Sense)
    ensures Serves(l.step, InitAt(l, again, s).rig.v)
  {
    hide InitStep, Serves;
    EnteringServes(l.rig, l.step, again, l.state, l.program, s);
  }

  lemma WorkKeepsServed(l: LineView, s: Sense)
    requires Served(l)
    ensures Served(Work(l, s))
  {
    hide InitStep, EvalCipInProgress, InitAt, Serves, EvalPids;
    InitAtServes(l.(state := 1), true, s);
    InitAtKeeps(l.(state := 1), true, s);
    if l.state > 0 {
      SteamServes(l.rig, l.step, s);
      ProgressKeepsServed(l.(rig := EvalPids(l.rig, s)), s);
    }
  }

  lemma ProgressKeepsServed(l: LineView, s: Sense)
    requires Served(l) && l.state > 0
    ensures Served(EvalCipInProgress(l, s))
  {
    hide DoStep, GoToStep, StopDev, InitAt, Serves;
    DoServes(l.rig, l.step, l.program, s);
    var o := DoStep(l.rig, l.step, l.program, s);
    var p := GoTo(l.(rig := o.rig), o.result, s);
    InitAtServes(p, false, s);
    InitAtKeeps(p, false, s);
  }

  lemma InitAtKeeps(l: LineView, again: bool, s: Sense)
    ensures InitAt(l, again, s) == l.(rig := InitAt(l, again, s).rig)
  {
    hide InitStep;
  }

  lemma SteamServes(r: Rig, step: int, s: Sense)
    requires Serves(step, r.v)
    ensures Serves(step, EvalPids(r, s).v)
  {
    hide Supplied, GoesTo;
    SupplyIgnoresSteam(step, r.v, EvalPids(r, s).v.v13);
  }

  lemma SupplyIgnoresSteam(step: int, v: Valves, steam: bool)
    ensures Supplied(step, v.(v13 := steam)) == Supplied(step, v)
  {
    hide ServesVessel;
    VesselIgnoresSteam(step, v, steam);
  }

  lemma VesselIgnoresSteam(step: int, v: Valves, steam: bool)
    ensures ServesVessel(step, v.(v13 := steam)) == ServesVessel(step, v)
  {
  }

  lemma CommandKeepsServed(l: LineView, cmd: Command, start: Start, s: Sense)
    requires Served(l)
    ensures Served(EvalCommands(l, cmd, start, s))
  {
    hide InitStep, GoToStep, LoadProgram, StopDev, Serves;
    forall q: LineView, again ensures Serves(q.step, InitAt(q, again, s).rig.v) { InitAtServes(q, again, s); }
  }

  lemma EventKeepsServed(l: LineView, e: Event)
    requires Served(l)
    ensures Served(Apply(l, e))
  {
    hide Work, EvalCommands, Serves;
    match e
    case TickOf(cmd, start, s) =>
      var q := Block(l, cmd);
      if Served(q) { WorkKeepsServed(q, s); CommandKeepsServed(q, cmd, start, s); }
    case _ =>
  }

  /**
    * Over every run from a line at rest, whatever is commanded and measured:
    * as long as a line works at a feeding step the valve of its medium is
    * open and those of the others are shut, and likewise at all other steps.
    */
  lemma {:induction false} WorkingLineIsServed(l: LineView, es: seq<Event>)
    requires Served(l)
    ensures Served(Run(l, es))
    ensures var q := Run(l, es); var f := q.rig.v.feed;
      q.state > 0 ==>
        && (q.step in {22, 24} ==> f == CAUSTIC && q.rig.v.v05 && !q.rig.v.v06)
        && (q.step in {42, 44} ==> f == ACID && q.rig.v.v05 && !q.rig.v.v06)
    decreases |es|
  {
    hide Apply, Served;
    if es == [] {
      if l.state > 0 { FeedsOwnSolution(l); }
    } else {
      EventKeepsServed(l, es[0]);
      WorkingLineIsServed(Apply(l, es[0]), es[1..]);
    }
  }

  lemma FeedsOwnSolution(l: LineView)
    requires Served(l) && l.state > 0
    ensures var f := l.rig.v.feed;
      && (l.step in {22, 24} ==> f == CAUSTIC && l.rig.v.v05 && !l.rig.v.v06)
      && (l.step in {42, 44} ==> f == ACID && l.rig.v.v05 && !l.rig.v.v06)
  {
  }
}

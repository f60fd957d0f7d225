/**
  * What one call of each routine of a CIP line does to the line's valves,
  * delays and water meter. These functions are the specification of the
  * methods of CipTech.Line.
  */
module CipSpec {
  import opened Wrappers
  import opened CipProgram
  import opened CipRouting

  const SORT_SWITCH_DELAY := 3000
  const SORT_FULL_DELAY := 20000
  const TANK_SWITCH_TIME := 60000
  const CIRC_MAX_FEED_TIME := 60000
  const CIRC_RETURN_DELAY := 1000
  const STEAM_VALVE_MIN_DELAY := 1200

  const ERR_POSSIBLE_NO_MEDIUM := -9
  const ERR_NO_ACID := -10
  const ERR_NO_ALKALINE := -11
  const ERR_NO_RETURN := -12
  const ERR_NO_CONC := -13
  const ERR_IS_CONC := -14
  const ERR_OS := -19
  const ERR_CIP_OBJECT := -20

  /**
    * A concentration compared with the station parameters: enough for the
    * tank, enough to need neutralising, more than that bound.
    */
  datatype Conc = Conc(rich: bool, some: bool, above: bool)

  /**
    * Everything a tick reads from outside: the clock, sensors, timers, and
    * the truth of each comparison of a reading with a parameter.
    */
  datatype Sense = Sense(
    now: nat,
    line: bool,            // the object is a pipe line, not a tank
    fault: int,            // what the fault check reports, 0 when all is well
    lm: bool, lh: bool, ll: bool,
    lwh: bool, lsl: bool, lsh: bool, lkl: bool, lkh: bool, lwl: bool,
    waterEmpty: bool,
    litres: nat,           // the meter, from the start of the step
    caustic: Conc, acid: Conc,
    flow: bool,            // liquid in the return pipe
    opUp: bool, retUp: bool, chkUp: bool, halfUp: bool,
    retDry: bool,          // the sensor before the return pump stayed dry
    empty: Option<bool>,   // the object's own signals, where wired
    mayContinue: Option<bool>,
    volDone: bool, fillDone: bool, bottomDone: bool, scVolDone: bool, scTimeOut: bool,
    cold: bool, bulkFull: bool, checkOk: bool, overDose: bool, sameDose: bool,
    steam: bool,
    endOk: bool,           // the final delay is over and the object agrees
    devicesBad: bool,      // the recipe names devices that do not exist
    resume: bool,          // resuming on signal is on and the object is ready
    custom: int, customValves: Valves,
    o: Options)

  datatype Meter = Meter(wc: int, ws: int, wcInst: int, acid: int, caustic: int, lv: int)

  /** Flags with their moments, so that a level must hold for a while. */
  datatype Delays = Delays(
    tankEmpty: bool, tankEmptyAt: nat,
    tankFull: bool, tankFullAt: nat,
    sortAt: nat, forceSort: bool)

  datatype Flags = Flags(returnOk: bool, concOk: bool, opcip: bool, flip: bool)

  datatype Feeding = Feeding(on: bool, count: int, since: nat, overflowAt: nat)

  datatype Rig = Rig(v: Valves, d: Delays, f: Flags, c: Feeding, steamAt: nat,
                     dosed: bool, doseWarn: bool, m: Meter)

  /**
    * A routine leaves the line in a state and reports a result: positive when
    * the step is over, negative for an error.
    */
  datatype Outcome = Outcome(rig: Rig, result: int)

  /** The parts of a rig that feeding and sorting work on. */
  datatype FeedSide = FeedSide(feed: Feed, d: Delays, m: Meter)
  datatype ReturnSide = ReturnSide(ret: Ret, d: Delays)

  // ---- Metering ----

  datatype Source = TownWater | TownForTank | SecondWater | Acid | Alkali

  /** All litres since the previous reading go to one account. */
  function Charge(m: Meter, litres: nat, from: Source): Meter {
    var d := litres - m.lv;
    match from
    case TownWater => m.(wc := m.wc + d, lv := litres)
    case TownForTank => m.(wc := m.wc + d, wcInst := m.wcInst + d, lv := litres)
    case SecondWater => m.(ws := m.ws + d, lv := litres)
    case Acid => m.(acid := m.acid + d, lv := litres)
    case Alkali => m.(caustic := m.caustic + d, lv := litres)
  }

  // ---- Delays ----

  function NoteEmpty(d: Delays, s: Sense): Delays {
    if s.waterEmpty then d.(tankEmpty := true, tankEmptyAt := s.now)
    else d.(tankEmpty := d.tankEmpty && s.now - d.tankEmptyAt <= TANK_SWITCH_TIME)
  }

  function NoteFull(d: Delays, high: bool, hold: nat, s: Sense): Delays {
    if high then d.(tankFull := true, tankFullAt := s.now)
    else d.(tankFull := d.tankFull && s.now - d.tankFullAt <= hold)
  }

  function GradeOf(c: Conc, full: bool): Grade {
    if c.rich && !full then ToTank else if c.some then ToNeutral else ToSewer
  }

  function ConcOf(s: Sense, tank: Medium): Conc {
    if tank.TankK? then s.acid else s.caustic
  }

  /**
    * Sends a returned solution to its tank, to neutralisation or away, and
    * keeps each decision for a while.
    */
  function SortRR(x: ReturnSide, where: Medium, toTank: bool, s: Sense): ReturnSide {
    if s.now - x.d.sortAt < SORT_SWITCH_DELAY && !x.d.forceSort then x
    else
      var d := x.d.(sortAt := s.now, forceSort := false);
      if !IsSolution(where) then ReturnSide(x.ret.(v07 := false), d)
      else
        var high := (if where.TankS? then s.lsh else s.lkh) && !toTank;
        var e := NoteFull(d, high, SORT_FULL_DELAY, s);
        ReturnSide(SortedReturn(x.ret, where, GradeOf(ConcOf(s, where), e.tankFull), s.o.noNeutro), e)
  }

  // ---- Starting a step ----

  /** Feed from one place and return to another, through the washed object. */
  function Through(v: Valves, feed: Feed, ret: Ret): Valves {
    Valves(feed, true, false, ret, v.v13)
  }

  function InitToObject(v: Valves, from: Medium, where: Medium, s: Sense): Valves {
    Through(v, FeedFrom(v.feed, from), ReturnTo(v.ret, if where.TankW? && s.lwh then Kanal else where))
  }

  function InitFromObject(v: Valves, from: Medium, where: Medium): Valves {
    Through(v, FeedFrom(v.feed, from), ReturnTo(v.ret, where))
  }

  function InitOporCip(v: Valves, where: Medium, s: Sense): Valves {
    if s.line then v
    else Valves(FEED_SHUT, true, false, ReturnTo(v.ret, where), false)
  }

  /** Steps 26 and 46 also draw on the solution tank. */
  function FillCircFeed(f: Feed, with: Medium, step: int): Feed {
    Feed(if with.WithWater? || with.Sanitizer? then true else if with.WithReturn? then false else f.v00,
         true, step == 46 || f.v02, step == 26 || f.v03, f.v04)
  }

  function InitFillCirc(v: Valves, with: Medium, step: int): Valves {
    var feed := FillCircFeed(v.feed, with, step);
    if with.WithWater? || with.Sanitizer? then
      v.(feed := feed, ret := v.ret.(v10 := false, v11 := true, v12 := false))
    else if with.WithReturn? then
      Through(v, feed, RETURN_SHUT.(v10 := true))
    else v.(feed := feed, ret := v.ret.(v11 := false, v12 := false))
  }

  function InitOporCirc(v: Valves, where: Medium): Valves {
    Through(v, FEED_SHUT.(v01 := true), ReturnTo(v.ret.(v11 := false), where))
  }

  /** Circulation through the vessel, or through a solution tank. */
  function InitCirc(v: Valves, what: Medium, step: int, c: Choice): Valves {
    var viaTank := (c.circTankS && step == 28) || (c.circTankK && step == 48);
    var alkali := what.Shch? && c.circTankS;
    var acid := what.Kisl? && c.circTankK;
    Through(v, Feed(false, !viaTank, acid, alkali, false), Ret(false, acid, alkali, !viaTank, false, false))
  }

  /** After an error of the washed object the return valves stay as they are. */
  function StopDev(v: Valves, state: int): Valves {
    Valves(FEED_SHUT, false, false,
           if state == ERR_CIP_OBJECT || state == ERR_OS then v.ret else RETURN_SHUT, false)
  }

  const DOSING := Valves(FEED_SHUT.(v01 := true), true, false, RETURN_SHUT.(v10 := true), false)

  function FillTank(v: Valves, tank: Medium, steam: bool): Valves {
    Valves(FeedFrom(v.feed, Water), false, true, ReturnTo(v.ret, tank), steam || v.v13)
  }

  function InitPump(v: Valves, from: Medium, where: Medium, o: Options): Valves {
    Valves(PumpFeed(v.feed, from), false, PumpsSomewhere(where), PumpReturn(where, o), v.v13)
  }

  function InitValves(v: Valves, act: Act, step: int, state: int, s: Sense): Valves {
    match act
    case Idle => StopDev(v, state).(feed := FEED_SHUT.(v00 := !s.lm))
    case ToObject(from, where) => InitToObject(v, from, where, s)
    case FromObject(from, where) => InitFromObject(v, from, where)
    case OporCip(where) => InitOporCip(v, where, s)
    case FillCirc(with) => InitFillCirc(v, with, step)
    case Circ(what) => InitCirc(v, what, step, s.o.choice)
    case OporCirc(where) => InitOporCirc(v, where)
    case DoseRR => DOSING
    case FilRR(tank) => FillTank(v, tank, true)
    case CircRR(tank) => TankLoop(v, tank)
    case CheckConc(tank) => TankLoop(v, tank)
    case AddRR(tank) => TankLoop(v, tank)
    case OpolRR(tank) => FillTank(v, tank, false)
    case Pump(from, where) => InitPump(v, from, where, s.o)
    case Custom => s.customValves
    case Finish =>
      var w := StopDev(v, state);
      w.(ret := w.ret.(v11 := true))
    case Unknown => v
  }

  function InitFlags(f: Flags, act: Act, again: bool): Flags {
    if act.FromObject? then f.(returnOk := again && f.returnOk, concOk := again && f.concOk)
    else if act.OporCip? then f.(opcip := false)
    else f
  }

  /** A circulation that is resumed counts the feed that was under way. */
  function InitFeeding(c: Feeding, act: Act, again: bool): Feeding {
    if !act.Circ? then c
    else if again then c.(on := false, count := if c.on then c.count + 1 else c.count)
    else c.(on := false, count := 0)
  }

  /**
    * What the switch of _InitStep does; again is false the first time a step
    * is entered.
    */
  function InitRouting(r: Rig, act: Act, step: int, again: bool, state: int, s: Sense): Rig {
    var doses := act.AddRR? && !again;
    r.(v := InitValves(r.v, act, step, state, s),
       f := InitFlags(r.f, act, again),
       c := InitFeeding(r.c, act, again),
       dosed := r.dosed || doses,
       doseWarn := if doses then r.dosed && (s.sameDose || r.doseWarn) else r.doseWarn)
  }

  function InitStep(r: Rig, step: int, again: bool, state: int, program: nat, s: Sense): Rig {
    var q := r.(d := Delays(false, s.now, false, s.now, s.now, true),
                f := r.f.(flip := again && r.f.flip),
                m := if again then r.m else r.m.(lv := 0));
    InitRouting(q, InitAct(step, program, s.o), step, again, state, s)
  }

  // ---- Carrying a step on ----

  function TakeFromWaterTank(x: FeedSide, s: Sense): FeedSide {
    var d := NoteEmpty(x.d, s);
    if d.tankEmpty then
      FeedSide(TopUp(x.feed.(v04 := false, v01 := true), s.lm, s.lh), d, Charge(x.m, s.litres, TownForTank))
    else
      FeedSide(x.feed.(v04 := true, v00 := false, v01 := false), d, Charge(x.m, s.litres, SecondWater))
  }

  /** Feed and metering, common to both directions. */
  function FeedFor(x: FeedSide, from: Medium, s: Sense): FeedSide {
    match from
    case Water => FeedSide(TopUp(x.feed, s.lm, s.lh), x.d, Charge(x.m, s.litres, TownWater))
    case Sanitizer => FeedSide(TopUp(x.feed, s.lm, s.lh), x.d, Charge(x.m, s.litres, TownWater))
    case TankW => TakeFromWaterTank(x, s)
    case TankK => x.(m := Charge(x.m, s.litres, Acid))
    case TankS => x.(m := Charge(x.m, s.litres, Alkali))
    case _ => x
  }

  function FeedError(from: Medium, s: Sense): int {
    if from.TankK? && !s.lkl then ERR_NO_ACID
    else if from.TankS? && !s.lsl then ERR_NO_ALKALINE
    else 0
  }

  function Return(x: ReturnSide, where: Medium, sewer: bool, s: Sense): ReturnSide {
    match where
    case TankW =>
      var d := NoteFull(x.d, s.lwh, TANK_SWITCH_TIME, s);
      ReturnSide(ReturnTo(x.ret, if d.tankFull || sewer then Kanal else TankW), d)
    case TankK => SortRR(x, TankK, false, s)
    case TankS => SortRR(x, TankS, false, s)
    case _ => x
  }

  function FeedSideOf(r: Rig): FeedSide { FeedSide(r.v.feed, r.d, r.m) }

  function WithFeed(r: Rig, x: FeedSide): Rig { r.(v := r.v.(feed := x.feed), d := x.d, m := x.m) }

  function ReturnSideOf(r: Rig): ReturnSide { ReturnSide(r.v.ret, r.d) }

  function WithReturnSide(r: Rig, x: ReturnSide): Rig { r.(v := r.v.(ret := x.ret), d := x.d) }

  predicate AdditionalRinse(step: int) { step == 8 || step == 37 || step == 57 || step == 86 }

  /** The object may ask a rinse to go on until it has flipped its valves. */
  predicate AsksForFlip(f: Flags, step: int, s: Sense) {
    AdditionalRinse(step) && !f.flip && s.mayContinue.Some?
  }

  function NoteFlip(f: Flags, step: int, s: Sense): Flags {
    f.(flip := f.flip || (AsksForFlip(f, step, s) && s.mayContinue.value))
  }

  function ToObjectResult(f: Flags, step: int, program: nat, s: Sense): int {
    if AsksForFlip(f, step, s) && !s.mayContinue.value then 0
    else if s.volDone || (step == 86 && s.cold && program != SPROG_RINSING_CLEAN) then 1
    else 0
  }

  function ToObject(r: Rig, step: int, from: Medium, where: Medium, program: nat, s: Sense): Outcome {
    var q := WithFeed(r, FeedFor(FeedSideOf(r), from, s));
    if FeedError(from, s) != 0 then Outcome(q, FeedError(from, s))
    else
      var p := WithReturnSide(q, Return(ReturnSideOf(q), where, from.TankW?, s));
      Outcome(p.(f := NoteFlip(p.f, step, s)), ToObjectResult(p.f, step, program, s))
  }

  /**
    * Once the volume has passed: is liquid back, and is its concentration
    * what it should be?
    */
  function CheckArrival(f: Flags, from: Medium, where: Medium, s: Sense): (Flags, int) {
    if !f.returnOk && !s.flow && s.retUp then (f, ERR_NO_RETURN)
    else CheckPurity(f.(returnOk := f.returnOk || s.flow), from, where, s)
  }

  function CheckPurity(f: Flags, from: Medium, where: Medium, s: Sense): (Flags, int) {
    var c := ConcOf(s, if IsSolution(where) then where else from);
    var good := if IsSolution(where) then !c.above else (!IsSolution(from) || c.some);
    if !good && s.chkUp then (f, if IsSolution(where) then ERR_IS_CONC else ERR_NO_CONC)
    else (f.(concOk := good), if f.returnOk && good then 1 else 0)
  }

  function FromObject(r: Rig, from: Medium, where: Medium, s: Sense): Outcome {
    var a := if s.volDone then CheckArrival(r.f, from, where, s) else (r.f, 0);
    var q := r.(f := a.0);
    if a.1 != 0 then Outcome(q, a.1)
    else
      var p := WithFeed(q, FeedFor(FeedSideOf(q), from, s));
      if FeedError(from, s) != 0 then Outcome(p, FeedError(from, s))
      else
        var x := ReturnSideOf(p);
        var y := if IsSolution(from) then SortRR(x, from, false, s) else x;
        Outcome(WithReturnSide(p, Return(y, where, false, s)), 0)
  }

  function DrainReturn(x: ReturnSide, where: Medium, s: Sense): ReturnSide {
    match where
    case TankW => x.(ret := ReturnTo(x.ret, if s.lwh then Kanal else TankW))
    case TankK => SortRR(x, TankK, false, s)
    case TankS => SortRR(x, TankS, false, s)
    case _ => x
  }

  /**
    * The object is empty when its signal says so, or when the return stays
    * dry after liquid was seen.
    */
  function Drained(opcip: bool, step: int, s: Sense): (bool, int) {
    if s.empty.Some? then (opcip, if s.empty.value then 1 else 0)
    else if s.retDry then (opcip, 1)
    else
      var seen := s.flow || opcip;
      var gone := !s.flow && opcip && s.retUp;
      (seen, if gone || (s.halfUp && (step == 6 || !seen)) || s.opUp then 1 else 0)
  }

  function OporCip(r: Rig, step: int, where: Medium, s: Sense): Outcome {
    if s.line then Outcome(r, 1)
    else
      var q := WithReturnSide(r, DrainReturn(ReturnSideOf(r), where, s));
      var d := Drained(r.f.opcip, step, s);
      Outcome(q.(f := q.f.(opcip := d.0)), d.1)
  }

  function SetFeed(f: Feed, what: Medium, open: bool): Feed {
    if what.Kisl? then f.(v02 := open)
    else if what.Shch? then f.(v03 := open)
    else f.(v00 := open)
  }

  /**
    * Topping up during circulation: a feed starts on an empty vessel while
    * the recipe allows another one, and stops on a level or after a minute.
    */
  function BeginFeed(f: Feed, c: Feeding, what: Medium, s: Sense): (Feed, Feeding) {
    if !s.lm && !s.ll && !s.lh && c.count < s.o.maxFeeds then
      (SetFeed(f, what, true), c.(on := true, since := if c.on then c.since else s.now))
    else (f, c)
  }

  function EndFeed(f: Feed, c: Feeding, what: Medium, s: Sense): (Feed, Feeding) {
    if s.lm || s.lh || (c.on && s.now - c.since > CIRC_MAX_FEED_TIME) then
      (SetFeed(f, what, false), c.(on := false, count := if c.on then c.count + 1 else c.count))
    else (f, c)
  }

  function CircFeed(f: Feed, c: Feeding, what: Medium, s: Sense): (Feed, Feeding) {
    var b := BeginFeed(f, c, what, s);
    EndFeed(b.0, b.1, what, s)
  }

  /** With the return pump kept running, a full vessel overflows to the tank. */
  function CircOverflow(r: Ret, c: Feeding, what: Medium, s: Sense): (Ret, Feeding) {
    if s.lh then
      if s.now - c.overflowAt > CIRC_RETURN_DELAY then
        (Ret(false, what.Kisl?, what.Shch?, false, false, false), c.(overflowAt := s.now))
      else (r, c)
    else (if s.lm then r else RETURN_SHUT.(v10 := true), c.(overflowAt := s.now))
  }

  predicate FeedsDuring(what: Medium, o: Options) {
    match what
    case Kisl => o.feedK
    case Shch => o.feedS
    case Water => o.feedW
    case HotWater => o.feedW
    case Sanitizer => o.feedW
    case _ => false
  }

  function CircResult(flip: bool, s: Sense): int {
    if s.opUp && (s.mayContinue.None? || s.mayContinue.value || flip) then 1 else 0
  }

  function CircValves(r: Rig, what: Medium, s: Sense): Rig {
    var a := if FeedsDuring(what, s.o) then CircFeed(r.v.feed, r.c, what, s) else (r.v.feed, r.c);
    var b := if (what.Kisl? || what.Shch?) && s.o.keepPump then CircOverflow(r.v.ret, a.1, what, s)
             else (r.v.ret, a.1);
    r.(v := r.v.(v06 := false, feed := a.0, ret := b.0), c := b.1)
  }

  function Circ(r: Rig, what: Medium, s: Sense): Outcome {
    var q := CircValves(r, what, s);
    Outcome(q.(f := q.f.(flip := q.f.flip || (!s.opUp && s.mayContinue == Some(true)))), CircResult(q.f.flip, s))
  }

  function OporCircReturn(r: Ret, where: Medium, s: Sense): Ret {
    if where.TankW? then r.(v07 := !s.lwh, v11 := s.lwh) else r
  }

  function Timed(r: Rig, s: Sense): Outcome {
    Outcome(r, if s.opUp then 1 else 0)
  }

  predicate TankFilled(tank: Medium, s: Sense) {
    IsSolution(tank) && (s.bulkFull || (if tank.TankK? then s.lkh else s.lsh))
  }

  function FilRR(r: Rig, tank: Medium, s: Sense): Outcome {
    var q := r.(m := Charge(r.m, s.litres, TownWater));
    if TankFilled(tank, s) then Outcome(q, 1)
    else Outcome(q.(v := q.v.(feed := TopUp(q.v.feed, s.lm, s.lh))), 0)
  }

  function CheckConcResult(s: Sense): int {
    if !s.opUp then 0 else if s.checkOk then 1 else 2
  }

  function AddRR(r: Rig, s: Sense): Outcome {
    if s.overDose || s.opUp then Outcome(r, 1)
    else Outcome(r.(doseWarn := false), if r.doseWarn then ERR_POSSIBLE_NO_MEDIUM else 0)
  }

  function OpolRR(r: Rig, tank: Medium, s: Sense): Outcome {
    var q := WithReturnSide(r, SortRR(ReturnSideOf(r), tank, true, s));
    if !ConcOf(s, tank).some && s.chkUp then Outcome(q, 1)
    else Outcome(q.(v := q.v.(feed := TopUp(q.v.feed, s.lm, s.lh))), 0)
  }

  /** Self-clean: a full tank diverts the stream to neutralisation. */
  function TankOf(where: Medium): Medium {
    match where
    case TankWHead => TankW
    case TankKHead => TankK
    case TankSHead => TankS
    case _ => where
  }

  function LevelOf(tank: Medium, s: Sense): bool {
    if tank.TankW? then s.lwh else if tank.TankK? then s.lkh else s.lsh
  }

  function PumpTarget(r: Ret, where: Medium, from: Medium, s: Sense): Ret {
    var tank := TankOf(where);
    var full := LevelOf(tank, s) && from != tank;
    Filled(r, tank, full, !full && !(tank != where && s.o.oldValves), s.o.noNeutro)
  }

  /**
    * The valve of a tank that is filled, and the drain and the neutralization
    * for what a full tank does not take.
    */
  function Filled(r: Ret, tank: Medium, full: bool, open: bool, noNeutro: bool): Ret {
    match tank
    case TankW => Ret(open, r.v08, r.v09, r.v10, full && noNeutro, full && (r.v12 || !noNeutro))
    case TankK => Ret(r.v07, open, r.v09, r.v10, full && noNeutro, full && (r.v12 || !noNeutro))
    case TankS => Ret(r.v07, r.v08, open, r.v10, full && noNeutro, full && (r.v12 || !noNeutro))
    case _ => r
  }

  predicate PumpOver(step: int, s: Sense) {
    if step == 151 || step == 169 || step == 183 then !s.lwl
    else if step == 156 || step == 175 then !s.lsl
    else if step == 163 || step == 181 then !s.lkl
    else if step in {152, 157, 164, 170, 176, 182, 184} then s.scVolDone || s.scTimeOut
    else if step in {153, 160, 167, 173, 179, 185, 186, 187} then s.scVolDone
    else step in {154, 155, 161, 162, 168, 174, 180, 188} && s.scTimeOut
  }

  function PumpTopUp(f: Feed, from: Medium, s: Sense): Feed {
    if from.Water? then f.(v00 := !s.lm && !s.lh && (f.v00 || !s.ll)) else f
  }

  function Pump(r: Rig, step: int, from: Medium, where: Medium, s: Sense): Outcome {
    Outcome(r.(v := r.v.(feed := PumpTopUp(r.v.feed, from, s), ret := PumpTarget(r.v.ret, where, from, s))),
            if PumpOver(step, s) then 1 else 0)
  }

  function DoRouting(r: Rig, act: Act, step: int, program: nat, s: Sense): Outcome {
    match act
    case Idle => Outcome(r, if s.lm then 1 else 0)
    case ToObject(from, where) => ToObject(r, step, from, where, program, s)
    case FromObject(from, where) => FromObject(r, from, where, s)
    case OporCip(where) => OporCip(r, step, where, s)
    case FillCirc(_) => Outcome(r, if s.fillDone || s.lh then 1 else 0)
    case Circ(what) => Circ(r, what, s)
    case OporCirc(where) =>
      Outcome(r.(v := r.v.(ret := OporCircReturn(r.v.ret, where, s))), if s.bottomDone || s.opUp then 1 else 0)
    case DoseRR => Timed(r, s)
    case FilRR(tank) => FilRR(r, tank, s)
    case CircRR(_) => Timed(r, s)
    case CheckConc(_) => Outcome(r, CheckConcResult(s))
    case AddRR(_) => AddRR(r, s)
    case OpolRR(tank) => OpolRR(r, tank, s)
    case Pump(from, where) => Pump(r, step, from, where, s)
    case Custom => Outcome(r.(v := s.customValves), s.custom)
    case Finish => Outcome(r, 0)
    case Unknown => Outcome(r, ERR_UNKNOWN_STEP)
  }

  /** _DoStep for every step but the last, which also resets the line. */
  function DoStep(r: Rig, step: int, program: nat, s: Sense): Outcome {
    if s.fault != 0 && step != STEP_END then Outcome(r, s.fault)
    else DoRouting(r, DoAct(step, program, s.o), step, program, s)
  }

  /** The steam valve opens only after its conditions held long enough. */
  function EvalPids(r: Rig, s: Sense): Rig {
    if s.steam then
      if s.now - r.steamAt > STEAM_VALVE_MIN_DELAY then r.(v := r.v.(v13 := true)) else r
    else r.(v := r.v.(v13 := false), steamAt := s.now)
  }
}

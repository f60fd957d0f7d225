/**
  * What a tick makes of a line: a pause, an error and a lock stop it, the end
  * of a step takes it on, and it comes back to where it was.
  */
module CipTicks {
  import opened CipProgram
  import opened CipSchedule
  import opened CipRouting
  import opened CipSpec
  import opened CipControl
  import opened CipValves

  /** Everything is shut. */
  const STOPPED := Valves(NOTHING, false, false, RETURN_SHUT, false)

  predicate SamePlace(l: LineView, q: LineView) {
    q.step == l.step && q.prg == l.prg && q.program == l.program && q.recipe == l.recipe && q.conflict == l.conflict
  }

  /** A washing line that hears its operator. */
  predicate Awake(l: LineView) { l.state > 0 && !l.blocked && l.step != 555 }

  /** A pause shuts everything and keeps the place, the meter and the flags; it does nothing to any other line. */
  lemma PauseStops(l: LineView, s: Sense)
    requires !l.blocked
    ensures Tick(l, Pause, NotNow, s) ==
      if Awake(l) then l.(state := -1, rig := l.rig.(v := STOPPED)) else l
  {
  }

  /** A lock shuts everything, whatever the line was doing, and is told from a pause. */
  lemma LockStops(l: LineView, s: Sense)
    ensures Tick(l, Lock, NotNow, s) == l.(blocked := true, state := -1000, rig := l.rig.(v := STOPPED))
  {
  }

  /**
    * A failing step stops the line with the error; only after an error of
    * the washed object or its signal does the return stay as it was.
    */
  lemma ErrorStops(l: LineView, s: Sense)
    requires Awake(l)
    ensures var r := DoStep(EvalPids(l.rig, s), l.step, l.program, s);
      r.result < 0 ==>
        var q := Tick(l, NoCommand, NotNow, s);
        && q.state == r.result && SamePlace(l, q) && q.rig == r.rig.(v := q.rig.v)
        && q.rig.v == STOPPED.(ret := if r.result in {-19, -20} then r.rig.v.ret else RETURN_SHUT)
  {
    hide DoStep, EvalPids;
  }

  /** A step that is over is left for its successor, which is entered anew, and one that is not goes on. */
  lemma CompletionMovesOn(l: LineView, s: Sense)
    requires Awake(l)
    ensures var r := DoStep(EvalPids(l.rig, s), l.step, l.program, s);
      var q := Tick(l, NoCommand, NotNow, s);
      var next := GoToStep(Place(l.step, l.prg), r.result, l.program, s.o.choice);
      && (r.result == 0 ==> q == l.(rig := r.rig))
      && (r.result > 0 ==>
           && q.step == next.step && q.prg == next.prg && q.state == l.state && q.program == l.program
           && q.rig == if next.step == l.step then r.rig
                       else InitStep(r.rig, next.step, false, l.state, l.program, s))
  {
    hide DoStep, EvalPids, GoToStep, InitStep;
  }

  /** Skipping leads to the same place as the end of a step with no result to report. */
  lemma SkipMovesOn(l: LineView, s: Sense)
    requires l.state != 0 && !l.blocked && l.step != 555
    ensures var q := Tick(l, Next, NotNow, s);
      var next := GoToStep(Place(l.step, l.prg), 0, l.program, s.o.choice);
      && q.step == next.step && q.prg == next.prg && q.state == 1 && !q.blocked && q.program == l.program
      && q.rig == InitStep(l.rig, next.step, false, 1, l.program, s)
  {
    hide GoToStep, InitStep;
  }

  /** A reset sends any other line to the last step, and makes one at rest forget its recipe and program. */
  lemma ResetForgets(l: LineView, s: Sense)
    requires !l.blocked
    ensures var q := Tick(l, Reset, NotNow, s);
      if l.state == 0 then q == l.(recipe := -1, program := 0)
      else q.step == 555 && q.state == 1 && q.prg == l.prg && q.program == l.program && q.recipe == l.recipe
           && q.rig.m == l.rig.m.(lv := 0)
  {
    hide InitAct, InitValves, InitFlags, InitFeeding, StopDev;
  }

  /** Going on is granted but for a conflict, bad devices, and an acid wash that is due. */
  lemma GoesOnExactly(l: LineView, s: Sense)
    requires l.state < 0 && !l.blocked
    ensures var q := Tick(l, Evaluate, NotNow, s);
      && SamePlace(l, q) && !q.blocked
      && q.state == (if l.conflict then l.state else if s.devicesBad then -30 else if l.state == -32 then -32 else 1)
      && q.rig == if q.state == 1 then InitStep(l.rig, l.step, true, 1, l.program, s) else l.rig
  {
    hide InitStep;
  }

  /** A pause and going on again is one entry into the same step more: the place and the meter are the same. */
  lemma PauseAndGoOn(l: LineView, s: Sense, t: Sense)
    requires Awake(l) && !l.conflict && !t.devicesBad
    ensures var q := Tick(Tick(l, Pause, NotNow, s), Evaluate, NotNow, t);
      && SamePlace(l, q) && q.state == 1 && !q.blocked && q.rig.m == l.rig.m
      && q.rig.f.flip == l.rig.f.flip
      && q.rig == InitStep(l.rig.(v := STOPPED), l.step, true, 1, l.program, t)
  {
    PauseStops(l, s);
    var p := Tick(l, Pause, NotNow, s);
    GoesOnExactly(p, t);
    AgainKeepsMeter(p.rig, l.step, l.program, t);
    hide InitStep, Tick;
  }

  lemma AgainKeepsMeter(r: Rig, step: int, program: nat, s: Sense)
    ensures var q := InitStep(r, step, true, 1, program, s); q.m == r.m && q.f.flip == r.f.flip
  {
    hide InitAct, InitValves, InitFeeding;
  }

  /** An error of the object goes away with its signal, where that is wanted; every other error stays. */
  lemma SignalGoesOn(l: LineView, s: Sense)
    requires l.state < 0 && !l.blocked
    ensures var q := Tick(l, NoCommand, NotNow, s);
      q == if s.resume && l.state in {-19, -20} then
             l.(state := 1, rig := InitStep(l.rig, l.step, true, 1, l.program, s))
           else l
  {
    hide InitStep;
  }

  /** What a step begins with: the delays start anew, and the first sorting decision is taken at once. */
  lemma EnteringStartsDelays(r: Rig, step: int, again: bool, state: int, program: nat, s: Sense)
    ensures var q := InitStep(r, step, again, state, program, s);
      q.d == Delays(false, s.now, false, s.now, s.now, true) && q.f.flip == (again && r.f.flip)
      && q.steamAt == r.steamAt && q.m == (if again then r.m else r.m.(lv := 0))
  {
    hide InitAct, InitValves, InitFeeding;
  }

  /** Top-ups during circulation are counted from zero at a new step; one that a pause cut short counts. */
  lemma CirculationCounts(r: Rig, step: int, again: bool, state: int, program: nat, s: Sense)
    requires step in {11, 28, 48, 66, 77}
    ensures var c, q := r.c, InitStep(r, step, again, state, program, s).c;
      q == c.(on := false, count := if again then if c.on then c.count + 1 else c.count else 0)
  {
    hide InitAct, InitValves;
    CirculationActs(step, program, s.o);
  }

  /** What a circulation is topped up through: its solution, or town water. */
  function TopUpValve(f: Feed, what: Medium, open: bool): Feed {
    if what == Kisl then f.(v02 := open) else if what == Shch then f.(v03 := open) else f.(v00 := open)
  }

  /**
    * A circulation is topped up from an empty vessel, as often as the recipe
    * allows, until a level is reached or a minute has passed; one that ends
    * is counted.
    */
  lemma CirculationIsToppedUp(f: Feed, c: Feeding, what: Medium, s: Sense)
    ensures var r := CircFeed(f, c, what, s);
      var begins := !s.lm && !s.ll && !s.lh && c.count < s.o.maxFeeds;
      var on := c.on || begins;
      var since := if begins && !c.on then s.now else c.since;
      var ends := s.lm || s.lh || (on && s.now - since > 60000);
      && r.0 == (if ends then TopUpValve(f, what, false) else if begins then TopUpValve(f, what, true) else f)
      && r.1 == c.(on := on && !ends, count := if on && ends then c.count + 1 else c.count, since := since)
  {
  }

  /** With the return pump kept on, a vessel full for more than a second returns to the tank until it is not. */
  lemma FullVesselReturns(r: Ret, c: Feeding, what: Medium, s: Sense)
    requires what in {Shch, Kisl}
    ensures var q := CircOverflow(r, c, what, s);
      && (s.lh ==> q.0 == (if s.now - c.overflowAt <= 1000 then r else if what == Shch then TO_CAUSTIC else TO_ACID))
      && (!s.lh ==> q.0 == (if s.lm then r else TO_VESSEL) && q.1.overflowAt == s.now)
      && (s.lh ==> q.1.overflowAt == if s.now - c.overflowAt <= 1000 then c.overflowAt else s.now)
  {
  }

  /** Steam is opened only when its conditions have held for more than 1.2 seconds, and shut at once. */
  lemma SteamWaits(r: Rig, s: Sense)
    ensures var q := EvalPids(r, s);
      && (!s.steam ==> !q.v.v13 && q.steamAt == s.now)
      && (s.steam ==> q.v.v13 == (r.v.v13 || s.now - r.steamAt > 1200) && q.steamAt == r.steamAt)
      && q == r.(v := r.v.(v13 := q.v.v13), steamAt := q.steamAt)
  {
  }

  /**
    * A tank that a self-cleaning step fills takes the stream as long as it is
    * not full; then the stream goes to the neutralization, or to the drain
    * where there is none. What circulates in a tank stays there.
    */
  lemma FullTankDiverts(r: Ret, where: Medium, from: Medium, s: Sense)
    requires where in {TankW, TankK, TankS}
    ensures var q := PumpTarget(r, where, from, s);
      var full := from != where && (if where == TankW then s.lwh else if where == TankK then s.lkh else s.lsh);
      var rest := r.(v11 := full && s.o.noNeutro, v12 := full && (r.v12 || !s.o.noNeutro));
      && (where == TankW ==> q == rest.(v07 := !full))
      && (where == TankK ==> q == rest.(v08 := !full))
      && (where == TankS ==> q == rest.(v09 := !full))
  {
  }
}

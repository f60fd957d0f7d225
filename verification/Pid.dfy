/**
  * The regulator around the control law (PAC/common/PID.cpp, class PID): period, acceleration after a start, manual
  * mode, limits of the output, and starting and stopping.
  */
module Pid {
  import opened PidLaw

  datatype State = Off | On | Stopping

  datatype Settings = Settings(gains: Gains, max: real, min: real, accel: nat, zeroStart: bool,
                               outMax: real, outMin: real)

  /**
    * The manual mode is a parameter: zero is off, one takes the manual value, and any other number only counts as on.
    */
  datatype Reg = Reg(loop: Loop, lastTime: int, startTime: int, startValue: real, prevManual: bool, manual: real,
                     uManual: real, out: real)

  datatype Tick = Tick(task: real, current: real, sign: int, now: int, manual: real)

  function StartOut(s: Settings): real {
    if s.zeroStart then 0.0 else MAX_OUT
  }

  function Reset(r: Reg, s: Settings, now: int): Reg {
    r.(loop := Loop(0.0, 0.0, 0.0, StartOut(s)), startValue := StartOut(s),
        out := StartOut(s), manual := 0.0, startTime := now)
  }

  function ErrorOf(s: Settings, t: Tick): real {
    Error(t.task, t.current, t.sign, s.max, s.min)
  }

  /** Is the period over? */
  predicate Due(r: Reg, s: Settings, now: int) {
    (now - r.lastTime) as real > Usable(s.gains).dt * 1000.0
  }

  /** During the acceleration time the output may not move away from its starting value faster than evenly. */
  function Ramped(r: Reg, s: Settings, u: real, now: int): real {
    var passed := now - r.startTime;
    if passed < 1000 * s.accel && s.accel > 0 then
      var way := MAX_OUT * passed as real / (1000 * s.accel) as real;
      if s.zeroStart then if u > r.startValue + way then r.startValue + way else u
      else if u < r.startValue - way then r.startValue - way else u
    else u
  }

  function Computed(r: Reg, s: Settings, t: Tick): Reg {
    if Due(r, s, t.now) then
      var l := Sample(r.loop, Usable(s.gains), ErrorOf(s, t));
      r.(loop := l.(uk := Ramped(r, s, l.uk, t.now)), lastTime := t.now)
    else r
  }

  function Limited(u: real, s: Settings): real {
    var v := if u < s.outMin then s.outMin else u;
    if v > s.outMax then s.outMax else v
  }

  predicate LeavesManual(r: Reg) {
    r.manual == 0.0 && r.prevManual
  }

  /** One evaluation of a regulator that is not off. */
  function Eval(r: Reg, s: Settings, t: Tick): Reg {
    var r1 := Computed(r.(manual := t.manual), s, t);
    var r2 := if r1.manual != 0.0 && !r1.prevManual then r1.(prevManual := true, uManual := r1.out) else r1;
    if LeavesManual(r2) then
      Reset(r2.(prevManual := false), s, t.now).(startValue := r2.uManual, out := r2.uManual)
    else
      var u := Limited(r2.loop.uk, s);
      r2.(loop := r2.loop.(uk := u), out := if r2.manual == 1.0 then r2.uManual else u)
  }

  // ---- bounds -------------------------------------------------------------------------------------------------------

  predicate Bounded(r: Reg) {
    0.0 <= r.loop.uk1 <= MAX_OUT
  }

  lemma EvalKeepsBounded(r: Reg, s: Settings, t: Tick)
    requires Bounded(r)
    ensures Bounded(Eval(r, s, t))
  {
    hide Ramped, Raw, Limited;
  }

  predicate InLimits(u: real, s: Settings) {
    s.outMin <= u <= s.outMax
  }

  /**
    * Whatever the inputs, gains and clock, an evaluation that does not take the manual value keeps its output between
    * the two limits if and only if they are in order; with the limits swapped the upper one is returned. The evaluation
    * that leaves manual mode is the exception: it returns the manual value, inside the limits or not.
    */
  lemma AutomaticOutputInLimits(r: Reg, s: Settings, t: Tick)
    requires t.manual != 1.0
    ensures InLimits(Eval(r, s, t).out, s) <==>
            if t.manual == 0.0 && r.prevManual then InLimits(r.uManual, s) else s.outMin <= s.outMax
    ensures s.outMin > s.outMax && !(t.manual == 0.0 && r.prevManual) ==> Eval(r, s, t).out == s.outMax
  {
    hide Ramped, Sample;
  }

  /** Going to manual mode takes over the output as it is; coming back starts again from the manual value. */
  lemma ManualIsBumpless(r: Reg, s: Settings, t: Tick)
    ensures t.manual == 1.0 && !r.prevManual ==> Eval(r, s, t).out == r.out == Eval(r, s, t).uManual
    ensures t.manual == 0.0 && r.prevManual ==> Eval(r, s, t).out == r.uManual == Eval(r, s, t).startValue
  {
    hide Ramped, Sample;
  }

  // ---- whole runs ---------------------------------------------------------------------------------------------------

  datatype Unit = Unit(state: State, reg: Reg)

  datatype Event = Evaluating(t: Tick) | SwitchingOn(now: int) | SwitchingOff(now: int)

  /** One call of a regulator: switching off takes two calls, and an evaluation of one that is off does nothing. */
  function Step(u: Unit, s: Settings, e: Event): Unit {
    match e
    case Evaluating(t) => if u.state == Off then u else u.(reg := Eval(u.reg, s, t))
    case SwitchingOn(now) => Unit(On, if u.state == Off then Reset(u.reg.(lastTime := now), s, now) else u.reg)
    case SwitchingOff(now) =>
      match u.state
      case On => u.(state := Stopping)
      case Stopping => Unit(Off, Reset(u.reg, s, now))
      case Off => u
  }

  function After(u: Unit, s: Settings, es: seq<Event>): Unit {
    if es == [] then u else Step(After(u, s, es[..|es| - 1]), s, es[|es| - 1])
  }

  /**
    * The calls that make the regulator forget: leaving manual mode, switching on from off, and the second switching
    * off.
    */
  predicate Restarts(u: Unit, e: Event) {
    match e
    case Evaluating(t) => u.state != Off && t.manual == 0.0 && u.reg.prevManual
    case SwitchingOn(_) => u.state == Off
    case SwitchingOff(_) => u.state == Stopping
  }

  predicate Computes(u: Unit, s: Settings, e: Event) {
    e.Evaluating? && u.state != Off && Due(u.reg, s, e.t.now)
  }

  /** The errors of the evaluations that found the period over, in order, since the regulator last forgot. */
  function Errors(u: Unit, s: Settings, es: seq<Event>): seq<real> {
    if es == [] then []
    else
      var past, e := es[..|es| - 1], es[|es| - 1];
      var q := After(u, s, past);
      if Restarts(q, e) then []
      else Errors(u, s, past) + if Computes(q, s, e) then [ErrorOf(s, e.t)] else []
  }

  predicate SameMemory(a: Loop, b: Loop) {
    a.uk1 == b.uk1 && a.ek1 == b.ek1 && a.ek2 == b.ek2
  }

  /** One call forgets, follows the law by one error, or leaves the memory alone. */
  lemma StepFollowsLaw(u: Unit, s: Settings, e: Event)
    ensures SameMemory(Step(u, s, e).reg.loop,
                       if Restarts(u, e) then RESET
                       else if Computes(u, s, e) then Sample(u.reg.loop, Usable(s.gains), ErrorOf(s, e.t))
                       else u.reg.loop)
  {
    hide Ramped, Sample;
  }

  lemma SampleUsesMemory(a: Loop, b: Loop, g: Gains, e: real)
    requires SameMemory(a, b) && g.dt != 0.0 && g.ti != 0.0
    ensures SameMemory(Sample(a, g, e), Sample(b, g, e))
  {
    hide Delta;
  }

  /** Limits, acceleration and manual values never enter the memory of the loop: it follows the law alone. */
  lemma {:induction false} RunFollowsLaw(u: Unit, s: Settings, es: seq<Event>)
    requires SameMemory(u.reg.loop, RESET)
    ensures SameMemory(After(u, s, es).reg.loop, Samples(RESET, Usable(s.gains), Errors(u, s, es)))
    decreases |es|
  {
    hide Step, Sample, Due, Restarts, Error, Usable;
    if es != [] {
      var past, e := es[..|es| - 1], es[|es| - 1];
      RunFollowsLaw(u, s, past);
      var q, xs := After(u, s, past), Errors(u, s, past);
      StepFollowsLaw(q, s, e);
      if !Restarts(q, e) {
        if Computes(q, s, e) {
          var x := ErrorOf(s, e.t);
          SampleUsesMemory(q.reg.loop, Samples(RESET, Usable(s.gains), xs), Usable(s.gains), x);
          assert (xs + [x])[..|xs + [x]| - 1] == xs;
        } else {
          assert xs + [] == xs;
        }
      }
    }
  }

  /**
    * After any run of calls of a new regulator, evaluations however often they come, in automatic or manual mode, and
    * switchings on and off, the memory is the positional form of the errors of the elapsed periods since the regulator
    * last forgot, as long as the clamp to 0..100 did not act on these.
    */
  lemma RegulatorIsPositional(u: Unit, s: Settings, es: seq<Event>)
    requires SameMemory(u.reg.loop, RESET)
    requires Unclamped(RESET, Usable(s.gains), Errors(u, s, es))
    ensures After(u, s, es).reg.loop.uk1 == Positional(Usable(s.gains), Errors(u, s, es))
  {
    hide Positional, Unclamped;
    RunFollowsLaw(u, s, es);
    VelocityIsPositional(s.gains, Errors(u, s, es));
  }

  lemma {:induction false} RunKeepsBounded(u: Unit, s: Settings, es: seq<Event>)
    requires Bounded(u.reg)
    ensures Bounded(After(u, s, es).reg)
    decreases |es|
  {
    hide Eval;
    if es != [] {
      RunKeepsBounded(u, s, es[..|es| - 1]);
      var q, e := After(u, s, es[..|es| - 1]), es[|es| - 1];
      if e.Evaluating? { EvalKeepsBounded(q.reg, s, e.t); }
    }
  }

  // ---- the station's regulator --------------------------------------------------------------------------------------

  /** MSAPID::acceleration: what may be added to the way is added after the comparison, not before. */
  function StationRamp(u: real, way: real, startValue: real, fromAbove: bool): real {
    if fromAbove then if u < MAX_OUT - way + startValue then MAX_OUT - way + startValue else u
    else if u > way then way + startValue else u
  }

  /** From below, the ramp of the station's regulator holds the output back exactly when the sum is not above it. */
  lemma StationRampHoldsBack(u: real, way: real, startValue: real)
    ensures StationRamp(u, way, startValue, false) <= u <==> u <= way || way + startValue <= u
    ensures 0.0 <= u <= MAX_OUT && startValue == 0.0 ==> StationRamp(u, way, startValue, false) <= u
  {
  }

  // ---- the object ---------------------------------------------------------------------------------------------------

  class Regulator {
    var state: State
    var reg: Reg

    function View(): Unit
      reads this
    {
      Unit(state, reg)
    }

    constructor (now: int)
      ensures state == Off && Bounded(reg) && SameMemory(reg.loop, RESET)
    {
      state := Off;
      reg := Reg(RESET, now, now, 0.0, false, 0.0, 0.0, 0.0);
    }

    method DirectOn(s: Settings, now: int)
      modifies this
      ensures View() == Step(old(View()), s, SwitchingOn(now))
    {
      if state != On {
        if state == Off {
          reg := reg.(startTime := now, lastTime := now);
          reg := Reset(reg, s, now);
        }
        state := On;
      }
    }

    /** Switching off takes two steps: a running regulator is first marked as stopping. */
    method DirectOff(s: Settings, now: int)
      modifies this
      ensures View() == Step(old(View()), s, SwitchingOff(now))
    {
      if state == Stopping {
        reg := Reset(reg, s, now);
        state := Off;
      } else if state == On {
        state := Stopping;
      }
    }

    method Evaluate(s: Settings, t: Tick) returns (out: real)
      modifies this
      ensures View() == Step(old(View()), s, Evaluating(t))
      ensures out == if state == Off then StartOut(s) else reg.out
    {
      if state == Off {
        return StartOut(s);
      }
      reg := reg.(manual := t.manual);
      if Due(reg, s, t.now) {
        Compute(s, t);
      }
      if reg.manual != 0.0 && !reg.prevManual {
        reg := reg.(prevManual := true, uManual := reg.out);
      }
      if reg.manual == 0.0 && reg.prevManual {
        reg := Reset(reg.(prevManual := false), s, t.now);
        reg := reg.(startTime := t.now, startValue := reg.uManual, out := reg.uManual);
        return reg.out;
      }
      var uk := reg.loop.uk;
      if uk < s.outMin {
        uk := s.outMin;
      }
      if uk > s.outMax {
        uk := s.outMax;
      }
      reg := reg.(loop := reg.loop.(uk := uk), out := uk);
      if reg.manual == 1.0 {
        reg := reg.(out := reg.uManual);
      }
      out := reg.out;
    }

    method Compute(s: Settings, t: Tick)
      requires Due(reg, s, t.now)
      modifies this
      ensures state == old(state) && reg == Computed(old(reg), s, t)
    {
      hide Delta;
      var g, e := Usable(s.gains), ErrorOf(s, t);
      var dUk := Delta(g, e, reg.loop.ek1, reg.loop.ek2);
      var uk := reg.loop.uk1 + dUk;
      if uk > MAX_OUT {
        uk := MAX_OUT;
      }
      if uk < 0.0 {
        uk := 0.0;
      }
      var loop := Loop(uk, e, reg.loop.ek1, uk);
      assert loop == Sample(reg.loop, g, e);
      reg := reg.(loop := loop.(uk := Ramped(reg, s, uk, t.now)), lastTime := t.now);
    }
  }
}

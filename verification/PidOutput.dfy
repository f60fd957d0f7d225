/**
  * The output of a regulator (PAC/common/PID.cpp): after any run it is the positional form of the errors since the
  * regulator last forgot, held back during the acceleration and cut to the limits.
  */
module PidOutput {
  import opened PidLaw
  import opened Pid

  function Min(a: real, b: real): real { if a <= b then a else b }

  function Max(a: real, b: real): real { if a <= b then b else a }

  /** The middle one of a value and two limits that are in order. */
  function Cut(u: real, low: real, high: real): real { Min(Max(u, low), high) }

  /** What the acceleration leaves of an output, when it began at some time from some value. */
  function HeldBack(u: real, s: Settings, began: int, from: real, now: int): real {
    if s.accel == 0 || now - began >= 1000 * s.accel then u
    else if s.zeroStart then Min(u, from + 100.0 * (now - began) as real / (1000 * s.accel) as real)
    else Max(u, from - 100.0 * (now - began) as real / (1000 * s.accel) as real)
  }

  /** The evaluation is automatic, and does not leave manual mode. */
  predicate Automatic(r: Reg, t: Tick) {
    t.manual != 1.0 && !(t.manual == 0.0 && r.prevManual)
  }

  /** The period, in seconds, is over; a period of zero counts as one second. */
  predicate Elapsed(r: Reg, s: Settings, now: int) {
    (now - r.lastTime) as real > (if s.gains.dt == 0.0 then 1.0 else s.gains.dt) * 1000.0
  }

  lemma DueIsElapsed(r: Reg, s: Settings, now: int)
    ensures Due(r, s, now) <==> Elapsed(r, s, now)
  {
  }

  lemma LimitedIsCut(u: real, s: Settings)
    ensures Limited(u, s) == Cut(u, s.outMin, s.outMax)
  {
  }

  lemma RampedIsHeldBack(r: Reg, s: Settings, u: real, now: int)
    ensures Ramped(r, s, u, now) == HeldBack(u, s, r.startTime, r.startValue, now)
  {
  }

  /**
    * An automatic evaluation with the period over returns the new remembered output, held back by the acceleration and
    * cut to the limits; one within the period returns the last output, cut to the limits again.
    */
  lemma OutputFollowsMemory(r: Reg, s: Settings, t: Tick)
    requires Automatic(r, t)
    ensures var q := Eval(r, s, t);
            q.out == if Elapsed(r, s, t.now) then
                       Cut(HeldBack(q.loop.uk1, s, r.startTime, r.startValue, t.now), s.outMin, s.outMax)
                     else Cut(r.loop.uk, s.outMin, s.outMax)
    ensures Eval(r, s, t).loop.uk ==
            if Elapsed(r, s, t.now) then
              Cut(HeldBack(Eval(r, s, t).loop.uk1, s, r.startTime, r.startValue, t.now), s.outMin, s.outMax)
            else Cut(r.loop.uk, s.outMin, s.outMax)
    ensures Eval(r, s, t).lastTime == if Elapsed(r, s, t.now) then t.now else r.lastTime
  {
    hide Raw, Ramped, Limited, Due;
    DueIsElapsed(r.(manual := t.manual), s, t.now);
    LimitedIsCut(Computed(r.(manual := t.manual), s, t).loop.uk, s);
    RampedIsHeldBack(r.(manual := t.manual), s, Sample(r.loop, Usable(s.gains), ErrorOf(s, t)).uk, t.now);
  }

  // ---- when the acceleration began ---------------------------------------------------------------------------------

  datatype Beginning = Beginning(at: int, from: real)

  /** The moment at which the regulator last forgot, and the output it began with: an observer's record. */
  function Began(u: Unit, s: Settings, es: seq<Event>, first: Beginning): Beginning {
    if es == [] then first
    else
      var past, e := es[..|es| - 1], es[|es| - 1];
      var q := After(u, s, past);
      if !Restarts(q, e) then Began(u, s, past, first)
      else match e
        case Evaluating(t) => Beginning(t.now, q.reg.uManual)
        case SwitchingOn(now) => Beginning(now, if s.zeroStart then 0.0 else 100.0)
        case SwitchingOff(now) => Beginning(now, if s.zeroStart then 0.0 else 100.0)
  }

  lemma StepBegins(u: Unit, s: Settings, e: Event)
    ensures var r := Step(u, s, e).reg;
            Beginning(r.startTime, r.startValue) ==
              if !Restarts(u, e) then Beginning(u.reg.startTime, u.reg.startValue)
              else match e
                case Evaluating(t) => Beginning(t.now, u.reg.uManual)
                case SwitchingOn(now) => Beginning(now, if s.zeroStart then 0.0 else 100.0)
                case SwitchingOff(now) => Beginning(now, if s.zeroStart then 0.0 else 100.0)
  {
    hide Ramped, Sample, Limited, Due;
  }

  lemma {:induction false} RunBegins(u: Unit, s: Settings, es: seq<Event>, first: Beginning)
    requires first == Beginning(u.reg.startTime, u.reg.startValue)
    ensures Began(u, s, es, first) == Beginning(After(u, s, es).reg.startTime, After(u, s, es).reg.startValue)
    decreases |es|
  {
    hide Step, Restarts;
    if es != [] {
      RunBegins(u, s, es[..|es| - 1], first);
      StepBegins(After(u, s, es[..|es| - 1]), s, es[|es| - 1]);
    }
  }

  /**
    * After any run of calls of a new regulator, an automatic evaluation with the period over returns the positional
    * form of the errors since the regulator last forgot, this one included, held back by the acceleration that began
    * then and cut to the limits, as long as the clamp to 0..100 did not act.
    */
  lemma OutputIsPositional(u: Unit, s: Settings, es: seq<Event>, t: Tick)
    requires SameMemory(u.reg.loop, RESET)
    requires var q := After(u, s, es); q.state != Off && Automatic(q.reg, t) && Elapsed(q.reg, s, t.now)
    requires Unclamped(RESET, Usable(s.gains), Errors(u, s, es) + [ErrorOf(s, t)])
    ensures var xs := Errors(u, s, es) + [ErrorOf(s, t)];
            var began := Began(u, s, es, Beginning(u.reg.startTime, u.reg.startValue));
            After(u, s, es + [Evaluating(t)]).reg.out ==
              Cut(HeldBack(Positional(Usable(s.gains), xs), s, began.at, began.from, t.now), s.outMin, s.outMax)
  {
    hide Positional, Unclamped, Eval, HeldBack, Elapsed, ErrorOf;
    var q, all := After(u, s, es), es + [Evaluating(t)];
    assert all[..|all| - 1] == es;
    DueIsElapsed(q.reg, s, t.now);
    assert Errors(u, s, all) == Errors(u, s, es) + [ErrorOf(s, t)];
    RegulatorIsPositional(u, s, all);
    OutputFollowsMemory(q.reg, s, t);
    RunBegins(u, s, es, Beginning(u.reg.startTime, u.reg.startValue));
  }

  // ---- the error ---------------------------------------------------------------------------------------------------

  /**
    * The error is the distance to the task in percent of the range, positive below it, and with the sign turned
    * above.
    */
  lemma ErrorIsDistance(s: Settings, t: Tick)
    requires s.max != s.min
    ensures t.sign == 1 ==> ErrorOf(s, t) * (s.max - s.min) == 100.0 * (t.task - t.current)
    ensures t.sign == -1 ==> ErrorOf(s, t) * (s.max - s.min) == 100.0 * (t.current - t.task)
  {
    var d := s.max - s.min;
    var x := t.sign as real * 100.0 * (t.task - t.current);
    assert x / d * d == x;
  }

  /** A period of zero counts as one second, and an integration time of zero as a tenth of a millisecond. */
  lemma ZeroTimesAreReplaced(g: Gains)
    ensures var u := Usable(g);
            && u.k == g.k && u.td == g.td
            && (g.dt != 0.0 ==> u.dt == g.dt) && (g.dt == 0.0 ==> u.dt == 1.0)
            && (g.ti != 0.0 ==> u.ti == g.ti) && (g.ti == 0.0 ==> u.ti == 0.0001)
  {
  }

  /** Manual mode is noted once, with the output of that moment as the manual value, and leaving it is noted as well. */
  lemma ManualIsNoted(r: Reg, s: Settings, t: Tick)
    ensures var q := Eval(r, s, t);
            && q.prevManual == (t.manual != 0.0)
            && q.manual == t.manual
            && (t.manual != 0.0 && !r.prevManual ==> q.uManual == r.out)
            && (t.manual == 0.0 || r.prevManual ==> q.uManual == r.uManual)
  {
    hide Ramped, Sample, Limited, Due;
  }

  // ---- switching ---------------------------------------------------------------------------------------------------

  /** It takes two calls to switch a running regulator off, and until the second one it goes on as it is. */
  lemma SwitchingOffTakesTwo(u: Unit, s: Settings, a: int, b: int)
    requires u.state == On
    ensures var one := Step(u, s, SwitchingOff(a));
            var two := Step(one, s, SwitchingOff(b));
            && one.state == Stopping && one.reg == u.reg
            && two.state == Off && two.reg.out == (if s.zeroStart then 0.0 else 100.0)
            && Step(one, s, SwitchingOn(b)) == u
  {
  }

  /** A regulator that is off does nothing, and begins anew, with a whole period ahead, when it is switched on. */
  lemma SwitchingOnBeginsAnew(u: Unit, s: Settings, t: Tick, now: int)
    requires u.state == Off
    ensures Step(u, s, Evaluating(t)) == u
    ensures var on := Step(u, s, SwitchingOn(now));
            && on.state == On && on.reg.lastTime == now && on.reg.startTime == now && on.reg.manual == 0.0
            && on.reg.out == on.reg.loop.uk == (if s.zeroStart then 0.0 else 100.0)
  {
  }
}

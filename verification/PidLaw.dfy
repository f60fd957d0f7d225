/**
  * The control law of the regulators (PAC/common/PID.cpp, PID::eval; PAC/common/cip_tech_def.cpp, MSAPID::pid_eval).
  * Both compute the output as an increment from the last three errors; numbers with a fraction are taken as reals.
  */
module PidLaw {
  const MAX_OUT: real := 100.0

  datatype Gains = Gains(k: real, ti: real, td: real, dt: real)

  /** The last output and the two last errors, and the output before it is limited for use. */
  datatype Loop = Loop(uk1: real, ek1: real, ek2: real, uk: real)

  /** A period or an integration time of zero is replaced. */
  function Usable(g: Gains): (r: Gains)
    ensures r.dt != 0.0 && r.ti != 0.0
  {
    g.(dt := if g.dt == 0.0 then 1.0 else g.dt, ti := if g.ti == 0.0 then 0.0001 else g.ti)
  }

  /** The error in percent of the range of the input. */
  function Error(task: real, current: real, sign: int, max: real, min: real): real {
    var top := if max == min then min + 1.0 else max;
    sign as real * MAX_OUT * (task - current) / (top - min)
  }

  function Q0(g: Gains): real
    requires g.dt != 0.0
  {
    g.k * (1.0 + g.td / g.dt)
  }

  function Q1(g: Gains): real
    requires g.dt != 0.0 && g.ti != 0.0
  {
    g.k * (-1.0 - 2.0 * g.td / g.dt + 2.0 * g.dt / g.ti)
  }

  function Q2(g: Gains): real
    requires g.dt != 0.0
  {
    g.k * g.td / g.dt
  }

  /** What is added to the last output, from the newest error and the two before. */
  function Delta(g: Gains, e: real, e1: real, e2: real): real
    requires g.dt != 0.0 && g.ti != 0.0
  {
    Q0(g) * e + Q1(g) * e1 + Q2(g) * e2
  }

  /** The output before it is clamped to 0..100. */
  function Raw(l: Loop, g: Gains, e: real): real
    requires g.dt != 0.0 && g.ti != 0.0
  {
    l.uk1 + Delta(g, e, l.ek1, l.ek2)
  }

  function Clamp(u: real): (r: real)
    ensures 0.0 <= r <= MAX_OUT && (0.0 <= u <= MAX_OUT ==> r == u)
  {
    if u > MAX_OUT then MAX_OUT else if u < 0.0 then 0.0 else u
  }

  function Sample(l: Loop, g: Gains, e: real): Loop
    requires g.dt != 0.0 && g.ti != 0.0
  {
    var u := Clamp(Raw(l, g, e));
    Loop(u, e, l.ek1, u)
  }

  function Samples(l: Loop, g: Gains, es: seq<real>): Loop
    requires g.dt != 0.0 && g.ti != 0.0
  {
    if es == [] then l else Sample(Samples(l, g, es[..|es| - 1]), g, es[|es| - 1])
  }

  const RESET := Loop(0.0, 0.0, 0.0, 0.0)

  /** The clamp never acts while these errors are processed. */
  ghost predicate Unclamped(l: Loop, g: Gains, es: seq<real>)
    requires g.dt != 0.0 && g.ti != 0.0
  {
    forall n :: 0 <= n < |es| ==> 0.0 <= Raw(Samples(l, g, es[..n]), g, es[n]) <= MAX_OUT
  }

  // ---- the textbook form --------------------------------------------------------------------------------------------

  function Sum(es: seq<real>): real {
    if es == [] then 0.0 else Sum(es[..|es| - 1]) + es[|es| - 1]
  }

  function Last(es: seq<real>): real {
    if es == [] then 0.0 else es[|es| - 1]
  }

  function Before(es: seq<real>): seq<real> {
    if es == [] then [] else es[..|es| - 1]
  }

  /** Proportional, derivative and integral part, the last summed over all errors but the newest. */
  function Positional(g: Gains, es: seq<real>): real
    requires g.dt != 0.0 && g.ti != 0.0
  {
    Form(g.k, Derivative(g), Integral(g), Last(es), Last(Before(es)), Sum(Before(es)))
  }

  /** The factor of the change of the error. */
  function Derivative(g: Gains): real
    requires g.dt != 0.0
  {
    g.k * g.td / g.dt
  }

  /** The factor of the sum of the errors. */
  function Integral(g: Gains): real
    requires g.ti != 0.0
  {
    2.0 * g.k * g.dt / g.ti
  }

  function Form(k: real, d: real, i: real, e: real, e1: real, s: real): real {
    k * e + d * (e - e1) + i * s
  }

  // ---- the increments add up to it ----------------------------------------------------------------------------------

  lemma ProductOverQuotient(k: real, t: real, d: real)
    requires d != 0.0
    ensures k * (t / d) == k * t / d
  {
    var q := t / d;
    assert q * d == t;
    assert k * q * d == k * t;
  }

  /** The three coefficients in terms of the proportional, derivative and integral factors. */
  lemma Coefficients(g: Gains)
    requires g.dt != 0.0 && g.ti != 0.0
    ensures Q0(g) == g.k + Derivative(g) && Q1(g) == -g.k - 2.0 * Derivative(g) + Integral(g) && Q2(g) == Derivative(g)
  {
    hide Derivative, Integral;
    OuterCoefficients(g);
    MiddleCoefficient(g);
  }

  lemma OuterCoefficients(g: Gains)
    requires g.dt != 0.0
    ensures Q0(g) == g.k + Derivative(g) && Q2(g) == Derivative(g)
  {
    ProductOverQuotient(g.k, g.td, g.dt);
    Distribute(g.k, g.td / g.dt, 0.0, 0.0);
  }

  lemma MiddleCoefficient(g: Gains)
    requires g.dt != 0.0 && g.ti != 0.0
    ensures Q1(g) == -g.k - 2.0 * Derivative(g) + Integral(g)
  {
    var a, b, c := g.td / g.dt, 2.0 * g.td / g.dt, 2.0 * g.dt / g.ti;
    Distribute(g.k, a, b, c);
    assert g.k * c == Integral(g) by { MovedProduct(g.k, g.dt, g.ti); }
    DoubleDerivative(g);
  }

  lemma DoubleDerivative(g: Gains)
    requires g.dt != 0.0
    ensures g.k * (2.0 * g.td / g.dt) == 2.0 * Derivative(g)
  {
    ProductOverQuotient(g.k, g.td, g.dt);
    ProductOverQuotient(2.0, g.td, g.dt);
    Twice(g.k, g.td / g.dt, 2.0 * g.td / g.dt);
  }

  lemma MovedProduct(k: real, t: real, d: real)
    requires d != 0.0
    ensures k * (2.0 * t / d) == 2.0 * k * t / d
  {
    ProductOverQuotient(k, 2.0 * t, d);
    assert k * (2.0 * t) == 2.0 * k * t;
  }

  lemma Twice(k: real, a: real, b: real)
    requires b == 2.0 * a
    ensures k * b == 2.0 * (k * a)
  {
  }

  lemma Distribute(k: real, a: real, b: real, c: real)
    ensures k * (1.0 + a) == k + k * a && k * (-1.0 - b + c) == -k - k * b + k * c
  {
  }

  /** What the newest error adds, in terms of the three factors. */
  function Gain(k: real, d: real, i: real, e: real, e1: real, e2: real): real {
    (k + d) * e + (-k - 2.0 * d + i) * e1 + d * e2
  }

  /** One increment of the positional form, for any factors. */
  lemma Increment(k: real, d: real, i: real, e: real, e1: real, e2: real, s: real)
    ensures Form(k, d, i, e, e1, s + e1) ==
            Form(k, d, i, e1, e2, s) + Gain(k, d, i, e, e1, e2)
  {
  }

  lemma FormOfZeros(k: real, d: real, i: real)
    ensures Form(k, d, i, 0.0, 0.0, 0.0) == 0.0
  {
  }

  /** What the loop remembers after any errors, while the clamp does not act. */
  lemma {:induction false} LoopTelescopes(g: Gains, es: seq<real>)
    requires g.dt != 0.0 && g.ti != 0.0 && Unclamped(RESET, g, es)
    ensures var l := Samples(RESET, g, es);
            l.uk1 == Positional(g, es) && l.ek1 == Last(es) && l.ek2 == Last(Before(es))
    decreases |es|
  {
    hide Derivative, Integral, Clamp, Form, Raw, Gain;
    var d, i := Derivative(g), Integral(g);
    if es == [] {
      FormOfZeros(g.k, d, i);
    } else {
      var past, e := es[..|es| - 1], es[|es| - 1];
      UnclampedBefore(g, es);
      LoopTelescopes(g, past);
      var l := Samples(RESET, g, past);
      RawIs(l, g, e);
      Increment(g.k, d, i, e, Last(past), Last(Before(past)), Sum(Before(past)));
      assert es[..|es| - 1] == past && 0.0 <= Raw(l, g, e) <= MAX_OUT;
      assert Sum(past) == Sum(Before(past)) + Last(past);
      ClampIdle(Raw(l, g, e));
      assert Raw(l, g, e) == Form(g.k, d, i, e, Last(past), Sum(past));
      assert Last(es) == e && Before(es) == past && Samples(RESET, g, es) == Sample(l, g, e);
    }
  }

  lemma RawIs(l: Loop, g: Gains, e: real)
    requires g.dt != 0.0 && g.ti != 0.0
    ensures var d, i := Derivative(g), Integral(g);
            Raw(l, g, e) == l.uk1 + Gain(g.k, d, i, e, l.ek1, l.ek2)
  {
    hide Q0, Q1, Q2, Derivative, Integral;
    Coefficients(g);
  }

  lemma ClampIdle(u: real)
    requires 0.0 <= u <= MAX_OUT
    ensures Clamp(u) == u
  {
  }

  lemma UnclampedBefore(g: Gains, es: seq<real>)
    requires g.dt != 0.0 && g.ti != 0.0 && es != [] && Unclamped(RESET, g, es)
    ensures Unclamped(RESET, g, es[..|es| - 1])
  {
    var past := es[..|es| - 1];
    forall n | 0 <= n < |past| ensures 0.0 <= Raw(Samples(RESET, g, past[..n]), g, past[n]) <= MAX_OUT {
      assert past[..n] == es[..n] && past[n] == es[n];
    }
  }

  /**
    * The velocity form refines the positional form: with constant gains, after any number of samples from a reset in
    * which the clamp did not act, the output is proportional, derivative and integral part of all the errors so far.
    */
  lemma VelocityIsPositional(g: Gains, es: seq<real>)
    requires Unclamped(RESET, Usable(g), es)
    ensures Samples(RESET, Usable(g), es).uk1 == Positional(Usable(g), es)
  {
    LoopTelescopes(Usable(g), es);
  }
}

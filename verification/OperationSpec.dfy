/**
  * An operation (PAC/common/operation_mngr.cpp, class operation): which of its states is current, the total time of
  * earlier RUN periods, and the step to come back to. All fifteen states exist from the start; some are never entered.
  */
module OperationSpec {
  import opened StepSpec

  const IDLE := 0
  const RUN := 1
  const PAUSE := 2
  const STOP := 3
  const STARTING := 10
  const PAUSING := 11
  const UNPAUSING := 12
  const STOPPING := 13
  const STATES_MAX := 15

  datatype Op = Op(states: seq<Body>, current: nat, runStep: int, runTime: int)

  /**
    * What one call reads: the signals of each state, and whether the object lets an expired operation be switched off.
    */
  datatype World = World(of: int -> Signals, off: bool)

  /** The jump conditions of the current state, and how the object answers the request they lead to. */
  datatype Wish = Wish(fires: bool, target: int, granted: bool, runStep: int)

  predicate Entered(k: nat) {
    k == IDLE || k == RUN || k == PAUSE || k == STOP || k == STARTING || k == PAUSING || k == UNPAUSING || k == STOPPING
  }

  predicate Sized(ps: seq<Plan>, o: Op) {
    && |ps| == STATES_MAX && |o.states| == STATES_MAX && Entered(o.current)
    && forall k :: 0 <= k < STATES_MAX ==> Valid(ps[k], o.states[k])
  }

  function Put(o: Op, k: nat, b: Body): Op
    requires k < |o.states|
  {
    o.(states := o.states[k := b])
  }

  function Leave(ps: seq<Plan>, o: Op, k: nat, now: int): (r: Op)
    requires Sized(ps, o) && k < STATES_MAX
    ensures Sized(ps, r)
  {
    Put(o, k, Finalize(o.states[k], now))
  }

  function Enter(ps: seq<Plan>, o: Op, k: nat, n: int, now: int, w: World): (r: Op)
    requires Sized(ps, o) && Entered(k)
    ensures Sized(ps, r)
  {
    Put(o, k, Init(ps[k], o.states[k], n, now, w.of(k))).(current := k)
  }

  function WithoutDx(states: seq<Body>): (r: seq<Body>)
    ensures |r| == |states|
  {
    seq(|states|, k requires 0 <= k < |states| => states[k].(dx := 0))
  }

  /** operation::finalize: the operation is switched off by its object. */
  function Close(ps: seq<Plan>, o: Op, now: int): (r: Op)
    requires Sized(ps, o)
    ensures Sized(ps, r)
  {
    if o.current == IDLE then o
    else
      var o1 := Leave(ps, o, o.current, now);
      o1.(states := WithoutDx(o1.states), current := IDLE)
  }

  predicate MustClose(ps: seq<Plan>, o: Op, now: int, w: World)
    requires Sized(ps, o)
  {
    var k := o.current;
    w.off && RunsOut(ps[k], Signalled(ps[k], o.states[k], now, w.of(k)), now, w.of(k))
  }

  /** Evaluates the current state; when its last step has run out, the object is asked to switch the operation off. */
  function Work(ps: seq<Plan>, o: Op, now: int, w: World): (r: Op)
    requires Sized(ps, o)
    ensures Sized(ps, r)
  {
    var k := o.current;
    var o1 := Put(o, k, Evaluate(ps[k], o.states[k], now, w.of(k)));
    if MustClose(ps, o, now, w) then Close(ps, o1, now) else o1
  }

  function Remember(o: Op, now: int): Op
    requires |o.states| == STATES_MAX
  {
    var run := o.states[RUN];
    Put(o, RUN, run.(saved := run.extras)).(runTime := o.runTime + now - run.start, runStep := run.main + 1)
  }

  function Pause(ps: seq<Plan>, o: Op, now: int, w: World): (r: Op)
    requires Sized(ps, o)
    ensures Sized(ps, r)
  {
    if o.current == RUN then
      Work(ps, Enter(ps, Leave(ps, Remember(o, now), RUN, now),
          if ps[PAUSING].empty then PAUSE else PAUSING, 1, now, w), now, w)
    else if o.current == PAUSING then Enter(ps, Leave(ps, o, PAUSING, now), PAUSE, 1, now, w)
    else o
  }

  function Stop(ps: seq<Plan>, o: Op, now: int, w: World): (r: Op)
    requires Sized(ps, o)
    ensures Sized(ps, r)
  {
    if o.current == IDLE || o.current == STOP then o
    else
      var k := if o.current == STOPPING || ps[STOPPING].empty then STOP else STOPPING;
      Work(ps, Enter(ps, Leave(ps, o, o.current, now), k, 1, now, w), now, w)
  }

  function SwitchOff(ps: seq<Plan>, o: Op, now: int, w: World): (r: Op)
    requires Sized(ps, o)
    ensures Sized(ps, r)
  {
    if o.current == IDLE then o else Work(ps, Enter(ps, Leave(ps, o, o.current, now), IDLE, 1, now, w), now, w)
  }

  /** The step to come back to when the caller asks for step n (or for none, when n is not positive). */
  function Target(o: Op, n: int): int {
    if n > 0 then n else if o.runStep > 0 then o.runStep else 1
  }

  predicate SameStep(o: Op, n: int) {
    o.runStep > 0 && Target(o, n) == o.runStep
  }

  /** The extra steps are loaded, the step is entered, and the time it had before the pause is added back. */
  function Resumed(ps: seq<Plan>, o: Op, n: int, now: int, w: World): (r: Op)
    requires Sized(ps, o)
    ensures Sized(ps, r)
  {
    var run := o.states[RUN];
    var o1 := Enter(ps, Put(o, RUN, run.(extras := run.saved)), RUN, Target(o, n), now, w);
    var b := o1.states[RUN];
    if SameStep(o, n) && b.main >= 0 then Put(o1, RUN, b.(steps := b.steps[b.main := b.steps[b.main].(dx := b.dx)]))
        else o1
  }

  function ToRun(ps: seq<Plan>, o: Op, n: int, now: int, w: World): (r: Op)
    requires Sized(ps, o)
    ensures Sized(ps, r)
  {
    Work(ps, Resumed(ps, o, n, now, w), now, w)
  }

  function Start(ps: seq<Plan>, o: Op, n: int, now: int, w: World): (r: Op)
    requires Sized(ps, o)
    ensures Sized(ps, r)
  {
    if o.current == IDLE then
      Enter(ps, Leave(ps, o, IDLE, now), if ps[STARTING].empty then RUN else STARTING, 1, now, w).(runTime := 0)
    else if o.current == STARTING then
      Enter(ps, Leave(ps, o, STARTING, now), RUN, 1, now, w).(runTime := 0)
    else if o.current == PAUSE then
      var o1 := Leave(ps, o, PAUSE, now);
      if ps[UNPAUSING].empty then ToRun(ps, o1, n, now, w)
      else Work(ps, Enter(ps, o1, UNPAUSING, 1, now, w), now, w)
    else if o.current == UNPAUSING then ToRun(ps, o, n, now, w)
    else o
  }

  function EvaluationTime(o: Op, now: int): int
    requires |o.states| == STATES_MAX
  {
    if o.current == RUN then o.runTime + now - o.states[RUN].start else o.runTime
  }

  datatype Call =
    | Pausing
    | Stopping
    | SwitchingOff
    | Starting(n: int)
    | Closing
    | Working
    | Stepping(n: int)
    | SteppingOn
    | TurningOff
    | AddingExtra(extra: StepNumber)
    | DroppingExtra(n: int)
    | SwappingExtra(n: int, on: StepNumber)

  datatype Event = Event(call: Call, at: int, world: World)

  /** Calls about steps go to the current state. */
  function OnCurrent(ps: seq<Plan>, o: Op, c: Call, now: int, sig: Signals): (r: Body)
    requires Sized(ps, o)
    ensures Valid(ps[o.current], r)
  {
    var p, b := ps[o.current], o.states[o.current];
    match c
    case Stepping(n) => To(p, b, n, now, sig)
    case SteppingOn => ToNext(p, b, now, sig)
    case TurningOff => TurnOff(b)
    case AddingExtra(n) => OnExtra(p, b, n, now, sig.passes(n - 1))
    case DroppingExtra(n) => OffExtra(p, b, n)
    case SwappingExtra(n, on) => SwitchExtra(p, b, n, on, now)
    case _ => b
  }

  function Apply(ps: seq<Plan>, o: Op, e: Event): (r: Op)
    requires Sized(ps, o)
    ensures Sized(ps, r)
  {
    match e.call
    case Pausing => Pause(ps, o, e.at, e.world)
    case Stopping => Stop(ps, o, e.at, e.world)
    case SwitchingOff => SwitchOff(ps, o, e.at, e.world)
    case Starting(n) => Start(ps, o, n, e.at, e.world)
    case Closing => Close(ps, o, e.at)
    case Working => Work(ps, o, e.at, e.world)
    case _ => Put(o, o.current, OnCurrent(ps, o, e.call, e.at, e.world.of(o.current)))
  }

  /** What the jump conditions of the current state lead to, after the state was evaluated. */
  function Follow(ps: seq<Plan>, o: Op, now: int, w: World, wish: Wish): (r: Op)
    requires Sized(ps, o)
    ensures Sized(ps, r)
  {
    if !wish.fires || !wish.granted then o
    else if o.current == IDLE then Start(ps, o, o.runStep, now, w)
    else if o.current == STOPPING then Stop(ps, o, now, w)
    else if o.current == RUN then
      if wish.target == STOP then Stop(ps, o, now, w) else if wish.target == PAUSE then Pause(ps, o, now, w) else o
    else if o.current == PAUSING then
      if wish.target == STOP then Stop(ps, o, now, w) else if wish.target == PAUSE then Pause(ps, o, now, w) else o
    else if o.current == STARTING || o.current == UNPAUSING then
      if wish.target == STOP then Stop(ps, o, now, w)
      else if wish.target == RUN then Start(ps, o, wish.runStep, now, w)
      else o
    else o
  }
}

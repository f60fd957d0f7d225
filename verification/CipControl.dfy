/**
  * One tick of one CIP line: operator commands, blocking, errors and the
  * progress of the current step. These functions specify the methods of
  * CipTech.Line that move the line between steps.
  */
module CipControl {
  import opened CipProgram
  import opened CipRouting
  import opened CipSpec

  const ERR_WRONG_OS_OR_RECIPE_ERROR := -30
  const ERR_VALVES_ARE_IN_CONFLICT := -31
  const ERR_ACID_WASH_REQUIRED := -32
  const STATE_PAUSED := -1
  const STATE_BLOCKED := -1000
  const NO_RECIPE := -1

  datatype Command = NoCommand | Next | Pause | Evaluate | Reset | Lock | Unlock | Other

  /** How a request to start a line is answered. */
  datatype Start = NotNow | Conflict | BadDevices | AcidWash | Go

  /** state > 0: washing, 0: idle, < 0: paused, in error or blocked. */
  datatype LineView = LineView(
    carWash: bool,
    step: int, state: int, prg: int,
    blocked: bool, conflict: bool,
    recipe: int, program: nat,
    rig: Rig)

  const EMPTY_METER := Meter(0, 0, 0, 0, 0, 0)

  function InitAt(l: LineView, again: bool, s: Sense): LineView {
    l.(rig := InitStep(l.rig, l.step, again, l.state, l.program, s))
  }

  function Stop(l: LineView): LineView {
    l.(state := 0, rig := l.rig.(v := StopDev(l.rig.v, l.state)))
  }

  function Hold(l: LineView): LineView {
    var q := if l.state > 0 then Stop(l) else l;
    q.(state := STATE_BLOCKED, rig := q.rig.(v := StopDev(q.rig.v, STATE_BLOCKED)))
  }

  function Block(l: LineView, cmd: Command): LineView {
    match cmd
    case Lock => l.(blocked := true)
    case Unlock => l.(blocked := false, state := if l.step > 0 then STATE_PAUSED else 0)
    case _ => l
  }

  function GoTo(l: LineView, param: int, s: Sense): LineView {
    var p := GoToStep(Place(l.step, l.prg), param, l.program, s.o.choice);
    l.(step := p.step, prg := p.prg)
  }

  // ---- Operator commands ----

  function NextStep(l: LineView, s: Sense): LineView {
    if l.state != 0 && l.step != STEP_END then InitAt(GoTo(l, 0, s).(state := 1), false, s)
    else l
  }

  function PauseLine(l: LineView): LineView {
    if l.state > 0 && l.step != STEP_END then Stop(l).(state := STATE_PAUSED) else l
  }

  function ResetLine(l: LineView, s: Sense): LineView {
    if l.state != 0 then InitAt(Stop(l).(step := STEP_END), false, s).(state := 1)
    else l.(recipe := NO_RECIPE, program := 0)
  }

  function Resume(l: LineView, s: Sense): LineView {
    if l.conflict then l
    else if s.devicesBad then l.(state := ERR_WRONG_OS_OR_RECIPE_ERROR)
    else if l.state == ERR_ACID_WASH_REQUIRED then l
    else InitAt(l.(state := 1), true, s)
  }

  predicate MayStart(l: LineView) {
    l.state == 0 && (l.recipe >= 0 || l.program >= SPROG_ACID_PREPARATION) && l.program > 0
  }

  function Begin(l: LineView, start: Start, s: Sense): LineView {
    match start
    case NotNow => l
    case Conflict => l.(state := ERR_VALVES_ARE_IN_CONFLICT, conflict := true)
    case BadDevices => l.(state := ERR_WRONG_OS_OR_RECIPE_ERROR, conflict := false)
    case AcidWash => l.(state := ERR_ACID_WASH_REQUIRED, conflict := false)
    case Go =>
      var q := l.(state := 1, conflict := false);
      if l.carWash then
        var p := LoadProgram(q.prg, q.program, s.o.choice);
        InitAt(q.(step := p.step, prg := p.prg), false, s)
      else InitAt(q, false, s)
  }

  function EvalCommands(l: LineView, cmd: Command, start: Start, s: Sense): LineView {
    match cmd
    case Next => NextStep(l, s)
    case Pause => PauseLine(l)
    case Reset => ResetLine(l, s)
    case Evaluate =>
      if l.state < 0 then Resume(l, s)
      else if MayStart(l) then Begin(l, start, s)
      else l
    case _ => l
  }

  // ---- Progress ----

  /** The end of the last step: the line forgets its program and its meter. */
  predicate Finishes(l: LineView, s: Sense) { l.step == STEP_END && s.endOk }

  function Finished(l: LineView): LineView {
    var r := Stop(l).rig;
    Stop(l).(step := 0, prg := NO_PHASE, conflict := false, recipe := NO_RECIPE, program := 0,
             rig := r.(m := EMPTY_METER, dosed := false, doseWarn := false, c := r.c.(count := 0)))
  }

  function Advance(l: LineView, result: int, s: Sense): LineView {
    var q := GoTo(l, result, s);
    if q.step != l.step then InitAt(q, false, s) else q
  }

  function Fail(l: LineView, error: int): LineView {
    Stop(l.(state := error)).(state := error)
  }

  function EvalCipInProgress(l: LineView, s: Sense): LineView {
    if l.step == STEP_END then
      if Finishes(l, s) then Finished(l) else l
    else
      var o := DoStep(l.rig, l.step, l.program, s);
      var q := l.(rig := o.rig);
      if o.result > 0 then Advance(q, o.result, s)
      else if o.result < 0 then Fail(q, o.result)
      else q
  }

  function EvalCipInError(l: LineView, s: Sense): LineView {
    if s.resume && l.state in {ERR_CIP_OBJECT, ERR_OS} then InitAt(l.(state := 1), true, s) else l
  }

  function Work(l: LineView, s: Sense): LineView {
    if l.state > 0 then EvalCipInProgress(l.(rig := EvalPids(l.rig, s)), s)
    else if l.state < 0 then EvalCipInError(l, s)
    else l
  }

  /** One call of evaluate(). */
  function Tick(l: LineView, cmd: Command, start: Start, s: Sense): LineView {
    var q := Block(l, cmd);
    if q.blocked then Hold(q)
    else if cmd in {NoCommand, Lock, Unlock} then Work(q, s)
    else EvalCommands(q, cmd, start, s)
  }

  /** What can happen to a line: a tick, or the panel choosing what to wash. */
  datatype Event =
    | TickOf(cmd: Command, start: Start, s: Sense)
    | ChooseProgram(program: nat)
    | ChooseRecipe(recipe: int)

  function Apply(l: LineView, e: Event): LineView {
    match e
    case TickOf(cmd, start, s) => Tick(l, cmd, start, s)
    case ChooseProgram(p) => l.(program := p)
    case ChooseRecipe(r) => l.(recipe := r)
  }

  function Run(l: LineView, es: seq<Event>): LineView
    decreases |es|
  {
    if es == [] then l else Run(Apply(l, es[0]), es[1..])
  }
}

/**
  * Time over whole runs of an operation. An independent ledger watches the run from outside: it adds up the time
  * between calls that fell into RUN, once since the operation was started and once since the main step was entered. The
  * times the operation reports agree with the ledger over any number of pauses.
  */
module OperationTime {
  import opened StepSpec
  import opened OperationSpec
  import opened OperationSafety

  datatype Ledger = Ledger(total: int, inStep: int, last: int)

  predicate Resumes(ps: seq<Plan>, o: Op, c: Call)
    requires Sized(ps, o)
  {
    c.Starting? && (o.current == UNPAUSING || (o.current == PAUSE && ps[UNPAUSING].empty))
  }

  /** The operation as it is just before a call evaluates RUN, for the calls that do. */
  function BeforeWork(ps: seq<Plan>, o: Op, e: Event): (r: Op)
    requires Sized(ps, o)
    ensures Sized(ps, r)
  {
    if Resumes(ps, o, e.call) then
      Resumed(ps, if o.current == PAUSE then Leave(ps, o, PAUSE, e.at) else o, e.call.n, e.at, e.world)
    else o
  }

  /** The number of the step that the evaluation of RUN moves on to, zero for none. */
  function NextNumber(ps: seq<Plan>, o: Op, e: Event): (n: int)
    requires Sized(ps, o)
    ensures n == 0 || Exists(o.states[RUN], n)
  {
    Following(ps[RUN], Signalled(ps[RUN], o.states[RUN], e.at, e.world.of(RUN)), e.at, e.world.of(RUN))
  }

  /** Does the evaluation of RUN move on to another step (or to the same one again)? */
  predicate MovesOn(ps: seq<Plan>, o: Op, e: Event)
    requires Sized(ps, o)
  {
    NextNumber(ps, o, e) != 0
  }

  /** Does the call enter a step of RUN anew, other than by coming back to the step that was interrupted? */
  predicate EntersStep(ps: seq<Plan>, o: Op, e: Event)
    requires Sized(ps, o)
  {
    var run := o.states[RUN];
    match e.call
    case Starting(n) =>
      if Resumes(ps, o, e.call) then !SameStep(o, n) || MovesOn(ps, BeforeWork(ps, o, e), e)
      else o.current == IDLE || o.current == STARTING
    case Working => o.current == RUN && MovesOn(ps, o, e)
    case Stepping(n) => o.current == RUN && Exists(run, n)
    case SteppingOn =>
      o.current == RUN && run.main >= 0 &&
      Exists(run, if ps[RUN].next[run.main] == -1 then run.main + 2 else ps[RUN].next[run.main])
    case _ => false
  }

  /**
    * One call: the time since the last one counts if the operation was in RUN; a start and an entered step count anew.
    */
  function Booked(ps: seq<Plan>, o: Op, l: Ledger, e: Event): Ledger
    requires Sized(ps, o)
  {
    var spent := if o.current == RUN then e.at - l.last else 0;
    var starts := e.call.Starting? && (o.current == IDLE || o.current == STARTING);
    Ledger(if starts then 0 else l.total + spent, if EntersStep(ps, o, e) then 0 else l.inStep + spent, e.at)
  }

  function BookedRun(ps: seq<Plan>, o: Op, l: Ledger, es: seq<Event>): Ledger
    requires Sized(ps, o)
    decreases |es|
  {
    if es == [] then l else BookedRun(ps, Apply(ps, o, es[0]), Booked(ps, o, l, es[0]), es[1..])
  }

  // ---- what evaluation does to times -------------------------------------------------------------------------------

  predicate SameTimes(b: Body, r: Body) {
    && |r.steps| == |b.steps| && -1 <= b.main < |b.steps|
    && r.start == b.start && r.dx == b.dx && r.main == b.main && r.saved == b.saved
    && (b.main >= 0 ==> r.steps[b.main].start == b.steps[b.main].start && r.steps[b.main].dx == b.steps[b.main].dx)
  }

  lemma OffExtraFrame(p: Plan, b: Body, n: int)
    requires Valid(p, b) && n in b.extras
    ensures var r := OffExtra(p, b, n); r == b.(steps := r.steps, extras := r.extras) && |r.extras| + 1 == |b.extras|
  {
  }

  lemma {:induction false} RaisedTimes(p: Plan, b: Body, k: nat, now: int, sig: Signals)
    requires Valid(p, b)
    ensures SameTimes(b, Raised(p, b, k, now, sig))
    decreases |b.steps| - k
  {
    if k < |b.steps| {
      var comes := k + 1 !in b.extras && sig.linked(k) && sig.raised(k);
      var b1 := if comes then OnExtra(p, b, k + 1, now, sig.passes(k)) else b;
      RaisedTimes(p, b1, k + 1, now, sig);
    }
  }

  lemma {:induction false} DroppedFrame(p: Plan, b: Body, k: nat, sig: Signals)
    requires Valid(p, b)
    ensures var r := Dropped(p, b, k, sig); r == b.(steps := r.steps, extras := r.extras)
    decreases |b.extras| - k
  {
    hide OffExtra;
    if k < |b.extras| {
      var m := b.extras[k] - 1;
      if sig.linked(m) && !sig.raised(m) && sig.drop(m) {
        OffExtraFrame(p, b, m + 1);
        DroppedFrame(p, OffExtra(p, b, m + 1), k + 1, sig);
      } else {
        DroppedFrame(p, b, k + 1, sig);
      }
    }
  }

  lemma {:induction false} RaisedFrame(p: Plan, b: Body, k: nat, now: int, sig: Signals)
    requires Valid(p, b)
    ensures var r := Raised(p, b, k, now, sig); r == b.(steps := r.steps, extras := r.extras)
    decreases |b.steps| - k
  {
    if k < |b.steps| {
      var comes := k + 1 !in b.extras && sig.linked(k) && sig.raised(k);
      var b1 := if comes then OnExtra(p, b, k + 1, now, sig.passes(k)) else b;
      RaisedFrame(p, b1, k + 1, now, sig);
    }
  }

  /** Evaluating a state never moves the moment it was entered, nor the time it saved. */
  lemma EvaluateFrame(p: Plan, b: Body, now: int, sig: Signals)
    requires Valid(p, b)
    ensures var r := Evaluate(p, b, now, sig); r.start == b.start && r.dx == b.dx && r.saved == b.saved
  {
    DroppedFrame(p, b, 0, sig);
    RaisedFrame(p, Dropped(p, b, 0, sig), 0, now, sig);
  }

  // ---- the running time of the operation ---------------------------------------------------------------------------

  predicate Clocking(o: Op) {
    o.current == RUN || Paused(o)
  }

  predicate Tells(o: Op, l: Ledger)
    requires |o.states| == STATES_MAX
  {
    && (Clocking(o) ==> EvaluationTime(o, l.last) == l.total)
    && (o.current == STARTING ==> o.runTime == 0 == l.total)
  }

  lemma WorkTime(ps: seq<Plan>, o: Op, now: int, w: World)
    requires Sized(ps, o)
    ensures var r := Work(ps, o, now, w);
            && r.runTime == o.runTime && r.runStep == o.runStep
            && (r.current == o.current || r.current == IDLE)
            && (r.current != IDLE || o.current == IDLE ==>
                  r.current == o.current && r.states[RUN].start == o.states[RUN].start)
  {
    hide Evaluate, Finalize, RunsOut;
    EvaluateFrame(ps[o.current], o.states[o.current], now, w.of(o.current));
  }

  lemma PauseTime(ps: seq<Plan>, o: Op, l: Ledger, now: int, w: World)
    requires Sized(ps, o) && Tells(o, l)
    ensures Tells(Pause(ps, o, now, w), Booked(ps, o, l, Event(Call.Pausing, now, w)))
  {
    hide Work, Init, Finalize, Numbers;
    if o.current == RUN {
      var k := if ps[PAUSING].empty then PAUSE else PAUSING;
      WorkTime(ps, Enter(ps, Leave(ps, Remember(o, now), RUN, now), k, 1, now, w), now, w);
    }
  }

  lemma StartTime(ps: seq<Plan>, o: Op, l: Ledger, n: int, now: int, w: World)
    requires Sized(ps, o) && Tells(o, l)
    ensures Tells(Start(ps, o, n, now, w), Booked(ps, o, l, Event(Starting(n), now, w)))
  {
    hide Work, Finalize, Numbers, EntersStep, BegunAll;
    if o.current == UNPAUSING {
      WorkTime(ps, Resumed(ps, o, n, now, w), now, w);
    } else if o.current == PAUSE {
      var o1 := Leave(ps, o, PAUSE, now);
      WorkTime(ps, Resumed(ps, o1, n, now, w), now, w);
      WorkTime(ps, Enter(ps, o1, UNPAUSING, 1, now, w), now, w);
    }
  }

  lemma OtherTime(ps: seq<Plan>, o: Op, l: Ledger, e: Event)
    requires Sized(ps, o) && Tells(o, l) && !e.call.Pausing? && !e.call.Starting?
    ensures Tells(Apply(ps, o, e), Booked(ps, o, l, e))
  {
    hide Work, Finalize, Valid, EntersStep, Init, Dropped, Raised;
    match e.call {
      case Stopping =>
        if o.current != IDLE && o.current != STOP {
          var k := if o.current == STOPPING || ps[STOPPING].empty then STOP else STOPPING;
          WorkTime(ps, Enter(ps, Leave(ps, o, o.current, e.at), k, 1, e.at, e.world), e.at, e.world);
        }
      case SwitchingOff =>
        if o.current != IDLE {
          WorkTime(ps, Enter(ps, Leave(ps, o, o.current, e.at), IDLE, 1, e.at, e.world), e.at, e.world);
        }
      case Working => WorkTime(ps, o, e.at, e.world);
      case _ =>
    }
  }

  lemma {:induction false} RunTells(ps: seq<Plan>, o: Op, l: Ledger, es: seq<Event>)
    requires Sized(ps, o) && Tells(o, l)
    ensures Tells(After(ps, o, es), BookedRun(ps, o, l, es))
    decreases |es|
  {
    hide Apply, Booked, Tells;
    if es != [] {
      var e := es[0];
      if e.call.Pausing? { PauseCall(ps, o, l, e); }
      else if e.call.Starting? { StartCall(ps, o, l, e); }
      else { OtherTime(ps, o, l, e); }
      RunTells(ps, Apply(ps, o, e), Booked(ps, o, l, e), es[1..]);
    }
  }

  lemma PauseCall(ps: seq<Plan>, o: Op, l: Ledger, e: Event)
    requires Sized(ps, o) && Tells(o, l) && e.call.Pausing?
    ensures Tells(Apply(ps, o, e), Booked(ps, o, l, e))
  {
    hide Pause, Booked, Tells;
    PauseTime(ps, o, l, e.at, e.world);
  }

  lemma StartCall(ps: seq<Plan>, o: Op, l: Ledger, e: Event)
    requires Sized(ps, o) && Tells(o, l) && e.call.Starting?
    ensures Tells(Apply(ps, o, e), Booked(ps, o, l, e))
  {
    hide Start, Booked, Tells;
    StartTime(ps, o, l, e.call.n, e.at, e.world);
  }

  /**
    * After any run of calls from construction, in RUN, PAUSING, PAUSE and UNPAUSING the reported time of the operation
    * is the total time it has spent in RUN since it was last started: no pause, skipped step or re-entry adds or loses
    * any.
    */
  lemma EvaluationTimeIsRunTime(ps: seq<Plan>, o: Op, es: seq<Event>, begin: int)
    requires Built(ps, o)
    ensures var r := After(ps, o, es);
            var l := BookedRun(ps, o, Ledger(0, 0, begin), es);
            Clocking(r) ==> EvaluationTime(r, l.last) == l.total
  {
    RunTells(ps, o, Ledger(0, 0, begin), es);
  }

  /** A stop drops the RUN period it ends: from then on the time reported is the total up to the last pause only. */
  lemma StopForgetsLastPeriod(ps: seq<Plan>, o: Op, now: int, w: World)
    requires Sized(ps, o) && o.current == RUN && Stop(ps, o, now, w).current != IDLE
    ensures EvaluationTime(Stop(ps, o, now, w), now) == EvaluationTime(o, now) - (now - o.states[RUN].start)
  {
    hide Work, Init, Finalize, Valid;
    var k := if ps[STOPPING].empty then STOP else STOPPING;
    WorkTime(ps, Enter(ps, Leave(ps, o, o.current, now), k, 1, now, w), now, w);
  }
}

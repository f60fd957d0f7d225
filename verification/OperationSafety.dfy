/**
  * What holds in every run of an operation: a step that is flagged active belongs to the current state and is its
  * operation step, its main step or one of its listed extra steps; and the extra steps of a pause come back in order.
  */
module OperationSafety {
  import opened StepSpec
  import opened OperationSpec

  /** A state that was left properly: nothing active, no time carried. */
  predicate AtRest(b: Body) {
    && !b.mode.active && b.main == -1 && b.extras == []
    && forall i :: 0 <= i < |b.steps| ==> !b.steps[i].active && b.steps[i].dx == 0
  }

  /** Active steps are the main step or listed, and only the main step carries time from before a pause. */
  predicate Accounted(b: Body) {
    && (forall i :: 0 <= i < |b.steps| && b.steps[i].active ==> i == b.main || i + 1 in b.extras)
    && (forall i :: 0 <= i < |b.steps| && i != b.main ==> b.steps[i].dx == 0)
  }

  lemma ToAccounted(p: Plan, b: Body, n: int, now: int, sig: Signals)
    requires Valid(p, b) && Accounted(b)
    ensures Accounted(To(p, b, n, now, sig))
  {
  }

  lemma InitAccounted(p: Plan, b: Body, n: int, now: int, sig: Signals)
    requires Valid(p, b) && AtRest(b.(extras := []))
    ensures Accounted(Init(p, b, n, now, sig)) && Init(p, b, n, now, sig).extras == b.extras
  {
  }

  lemma FinalizeRests(p: Plan, b: Body, now: int)
    requires Valid(p, b) && Accounted(b)
    ensures AtRest(Finalize(b, now))
  {
  }

  lemma WithoutKeeps(list: seq<int>, n: int, m: int)
    requires m in list && m != n
    ensures m in Without(list, n)
  {
    var k := Find(list, n);
    var j := Find(list, m);
    if k < |list| {
      assert Without(list, n)[if j < k then j else j - 1] == m;
    }
  }

  lemma OffExtraAccounted(p: Plan, b: Body, n: int)
    requires Valid(p, b) && Accounted(b)
    ensures Accounted(OffExtra(p, b, n)) && OffExtra(p, b, n).main == b.main
  {
    var r := OffExtra(p, b, n);
    forall i | 0 <= i < |b.steps| && r.steps[i].active ensures i == r.main || i + 1 in r.extras {
      if n in b.extras && i != b.main { WithoutKeeps(b.extras, n, i + 1); }
    }
  }

  lemma SwitchExtraAccounted(p: Plan, b: Body, off: int, on: StepNumber, now: int)
    requires Valid(p, b) && Accounted(b)
    ensures Accounted(SwitchExtra(p, b, off, on, now)) && SwitchExtra(p, b, off, on, now).main == b.main
  {
    var r := SwitchExtra(p, b, off, on, now);
    if off in b.extras && r != b {
      var k := Find(b.extras, off);
      assert r.extras[k] == on;
      forall i | 0 <= i < |b.steps| && r.steps[i].active ensures i == r.main || i + 1 in r.extras {
        if i + 1 != off && i + 1 in b.extras { assert r.extras[Find(b.extras, i + 1)] == i + 1; }
      }
    }
  }

  lemma {:induction false} DroppedAccounted(p: Plan, b: Body, k: nat, sig: Signals)
    requires Valid(p, b) && Accounted(b)
    ensures Accounted(Dropped(p, b, k, sig)) && Dropped(p, b, k, sig).main == b.main
    decreases |b.extras| - k
  {
    if k < |b.extras| {
      var m := b.extras[k] - 1;
      if sig.linked(m) && !sig.raised(m) && sig.drop(m) {
        OffExtraAccounted(p, b, m + 1);
        DroppedAccounted(p, OffExtra(p, b, m + 1), k + 1, sig);
      } else {
        DroppedAccounted(p, b, k + 1, sig);
      }
    }
  }

  lemma {:induction false} RaisedAccounted(p: Plan, b: Body, k: nat, now: int, sig: Signals)
    requires Valid(p, b) && Accounted(b)
    ensures Accounted(Raised(p, b, k, now, sig)) && Raised(p, b, k, now, sig).main == b.main
    decreases |b.steps| - k
  {
    if k < |b.steps| {
      var comes := k + 1 !in b.extras && sig.linked(k) && sig.raised(k);
      var b1 := if comes then OnExtra(p, b, k + 1, now, sig.passes(k)) else b;
      assert Accounted(b1);
      RaisedAccounted(p, b1, k + 1, now, sig);
    }
  }

  lemma SignalledAccounted(p: Plan, b: Body, now: int, sig: Signals)
    requires Valid(p, b) && Accounted(b)
    ensures Accounted(Signalled(p, b, now, sig)) && Signalled(p, b, now, sig).main == b.main
  {
    DroppedAccounted(p, b, 0, sig);
    RaisedAccounted(p, Dropped(p, b, 0, sig), 0, now, sig);
  }

  lemma EvaluateAccounted(p: Plan, b: Body, now: int, sig: Signals)
    requires Valid(p, b) && Accounted(b)
    ensures Accounted(Evaluate(p, b, now, sig))
  {
    SignalledAccounted(p, b, now, sig);
    var b1 := Signalled(p, b, now, sig);
    assert Accounted(Clocked(p, b1, sig));
    ToAccounted(p, Clocked(p, b1, sig), Following(p, b1, now, sig), now, sig);
  }

  /** Every state but the current one is at rest, save UNPAUSING, which is left without being finalized. */
  ghost predicate Tidy(ps: seq<Plan>, o: Op) {
    && Sized(ps, o)
    && (forall k :: 0 <= k < STATES_MAX && k != o.current && k != UNPAUSING ==> AtRest(o.states[k]))
    && (o.current != UNPAUSING ==> Accounted(o.states[o.current]))
  }

  /** The same with no state entered yet: what a call leaves between two states. */
  ghost predicate Between(ps: seq<Plan>, o: Op) {
    && Sized(ps, o)
    && (forall k :: 0 <= k < STATES_MAX && k != UNPAUSING ==> AtRest(o.states[k]))
  }

  lemma LeaveTidy(ps: seq<Plan>, o: Op, now: int)
    requires Tidy(ps, o)
    ensures Between(ps, Leave(ps, o, o.current, now))
  {
    if o.current != UNPAUSING { FinalizeRests(ps[o.current], o.states[o.current], now); }
  }

  lemma EnterTidy(ps: seq<Plan>, o: Op, k: nat, n: int, now: int, w: World)
    requires Between(ps, o) && Entered(k)
    ensures Tidy(ps, Enter(ps, o, k, n, now, w))
  {
    if k != UNPAUSING { InitAccounted(ps[k], o.states[k], n, now, w.of(k)); }
  }

  lemma CloseTidy(ps: seq<Plan>, o: Op, now: int)
    requires Tidy(ps, o)
    ensures Tidy(ps, Close(ps, o, now))
  {
    LeaveTidy(ps, o, now);
  }

  lemma WorkTidy(ps: seq<Plan>, o: Op, now: int, w: World)
    requires Tidy(ps, o)
    ensures Tidy(ps, Work(ps, o, now, w))
  {
    var k := o.current;
    var o1 := Put(o, k, Evaluate(ps[k], o.states[k], now, w.of(k)));
    if k != UNPAUSING { EvaluateAccounted(ps[k], o.states[k], now, w.of(k)); }
    assert Tidy(ps, o1);
    CloseTidy(ps, o1, now);
  }

  lemma ResumedTidy(ps: seq<Plan>, o: Op, n: int, now: int, w: World)
    requires Sized(ps, o) && AtRest(o.states[RUN])
    requires forall k :: 0 <= k < STATES_MAX && k != UNPAUSING ==> AtRest(o.states[k])
    ensures Tidy(ps, Resumed(ps, o, n, now, w)) && Resumed(ps, o, n, now, w).current == RUN
  {
    var run := o.states[RUN];
    InitAccounted(ps[RUN], run.(extras := run.saved), Target(o, n), now, w.of(RUN));
  }

  lemma PauseTidy(ps: seq<Plan>, o: Op, now: int, w: World)
    requires Tidy(ps, o)
    ensures Tidy(ps, Pause(ps, o, now, w))
  {
    if o.current == RUN {
      var o1 := Remember(o, now);
      assert Tidy(ps, o1);
      LeaveTidy(ps, o1, now);
      var k := if ps[PAUSING].empty then PAUSE else PAUSING;
      EnterTidy(ps, Leave(ps, o1, RUN, now), k, 1, now, w);
      WorkTidy(ps, Enter(ps, Leave(ps, o1, RUN, now), k, 1, now, w), now, w);
    } else if o.current == PAUSING {
      LeaveTidy(ps, o, now);
      EnterTidy(ps, Leave(ps, o, PAUSING, now), PAUSE, 1, now, w);
    }
  }

  lemma ChangeTidy(ps: seq<Plan>, o: Op, k: nat, now: int, w: World)
    requires Tidy(ps, o) && Entered(k)
    ensures Tidy(ps, Enter(ps, Leave(ps, o, o.current, now), k, 1, now, w))
    ensures Tidy(ps, Work(ps, Enter(ps, Leave(ps, o, o.current, now), k, 1, now, w), now, w))
  {
    LeaveTidy(ps, o, now);
    EnterTidy(ps, Leave(ps, o, o.current, now), k, 1, now, w);
    WorkTidy(ps, Enter(ps, Leave(ps, o, o.current, now), k, 1, now, w), now, w);
  }

  lemma ToRunTidy(ps: seq<Plan>, o: Op, n: int, now: int, w: World)
    requires Between(ps, o)
    ensures Tidy(ps, ToRun(ps, o, n, now, w))
  {
    ResumedTidy(ps, o, n, now, w);
    WorkTidy(ps, Resumed(ps, o, n, now, w), now, w);
  }

  lemma StartTidy(ps: seq<Plan>, o: Op, n: int, now: int, w: World)
    requires Tidy(ps, o)
    ensures Tidy(ps, Start(ps, o, n, now, w))
  {
    if o.current == IDLE {
      ChangeTidy(ps, o, if ps[STARTING].empty then RUN else STARTING, now, w);
    } else if o.current == STARTING {
      ChangeTidy(ps, o, RUN, now, w);
    } else if o.current == PAUSE {
      LeaveTidy(ps, o, now);
      if ps[UNPAUSING].empty {
        ToRunTidy(ps, Leave(ps, o, PAUSE, now), n, now, w);
      } else {
        ChangeTidy(ps, o, UNPAUSING, now, w);
      }
    } else if o.current == UNPAUSING {
      ToRunTidy(ps, o, n, now, w);
    }
  }

  lemma OnCurrentTidy(ps: seq<Plan>, o: Op, c: Call, now: int, w: World)
    requires Tidy(ps, o)
    ensures Tidy(ps, Put(o, o.current, OnCurrent(ps, o, c, now, w.of(o.current))))
  {
    var p, b := ps[o.current], o.states[o.current];
    if o.current != UNPAUSING {
      match c {
        case DroppingExtra(n) => OffExtraAccounted(p, b, n);
        case SwappingExtra(n, on) => SwitchExtraAccounted(p, b, n, on, now);
        case _ =>
      }
    }
  }

  lemma StopTidy(ps: seq<Plan>, o: Op, now: int, w: World)
    requires Tidy(ps, o)
    ensures Tidy(ps, Stop(ps, o, now, w)) && Tidy(ps, SwitchOff(ps, o, now, w))
  {
    ChangeTidy(ps, o, if o.current == STOPPING || ps[STOPPING].empty then STOP else STOPPING, now, w);
    ChangeTidy(ps, o, IDLE, now, w);
  }

  /** Every call, whatever the signals and the clock, keeps active steps accounted for. */
  lemma CallKeepsTidy(ps: seq<Plan>, o: Op, e: Event)
    requires Tidy(ps, o)
    ensures Tidy(ps, Apply(ps, o, e))
  {
    hide Pause, Stop, SwitchOff, Start, Close, Work, OnCurrent, Tidy;
    match e.call {
      case Pausing => PauseTidy(ps, o, e.at, e.world);
      case Stopping => StopTidy(ps, o, e.at, e.world);
      case SwitchingOff => StopTidy(ps, o, e.at, e.world);
      case Starting(n) => StartTidy(ps, o, n, e.at, e.world);
      case Closing => CloseTidy(ps, o, e.at);
      case Working => WorkTidy(ps, o, e.at, e.world);
      case _ => OnCurrentTidy(ps, o, e.call, e.at, e.world);
    }
  }

  /** An operation as it is built: IDLE, nothing entered yet. */
  ghost predicate Built(ps: seq<Plan>, o: Op) {
    && Sized(ps, o) && o.current == IDLE && o.runStep == -1 && o.runTime == 0
    && forall k :: 0 <= k < STATES_MAX ==> AtRest(o.states[k]) && o.states[k].dx == 0 && o.states[k].saved == []
  }

  function After(ps: seq<Plan>, o: Op, es: seq<Event>): (r: Op)
    requires Sized(ps, o)
    ensures Sized(ps, r)
    decreases |es|
  {
    if es == [] then o else After(ps, Apply(ps, o, es[0]), es[1..])
  }

  lemma {:induction false} RunKeepsTidy(ps: seq<Plan>, o: Op, es: seq<Event>)
    requires Tidy(ps, o)
    ensures Tidy(ps, After(ps, o, es))
    decreases |es|
  {
    hide Apply, Accounted, AtRest;
    if es != [] {
      CallKeepsTidy(ps, o, es[0]);
      RunKeepsTidy(ps, Apply(ps, o, es[0]), es[1..]);
    }
  }

  /**
    * In every run of an operation from its construction: if a step of state k is flagged active, then k is the current
    * state and the step is its main step or one of its listed extra steps; UNPAUSING alone is excepted.
    */
  lemma ActiveStepsBelong(ps: seq<Plan>, o: Op, es: seq<Event>, k: nat, i: nat)
    requires Built(ps, o) && k < STATES_MAX && k != UNPAUSING
    requires i < |After(ps, o, es).states[k].steps|
    ensures var r := After(ps, o, es);
            r.states[k].steps[i].active ==> k == r.current && (i == r.states[k].main || i + 1 in r.states[k].extras)
    ensures var r := After(ps, o, es); r.states[k].mode.active ==> k == r.current
  {
    hide Apply;
    RunKeepsTidy(ps, o, es);
  }

  /** The exception is real: leaving UNPAUSING for RUN leaves the operation step of UNPAUSING flagged active. */
  lemma UnpausingIsLeftActive(ps: seq<Plan>, o: Op, n: int, now: int, w: World)
    requires Sized(ps, o) && o.current == UNPAUSING && o.states[UNPAUSING].mode.active
    ensures Start(ps, o, n, now, w).current != UNPAUSING
    ensures Start(ps, o, n, now, w).states[UNPAUSING].mode.active
  {
    hide Evaluate, Init, Finalize;
  }

  predicate Paused(o: Op) {
    o.current == PAUSING || o.current == PAUSE || o.current == UNPAUSING
  }

  /** No call made while paused, extra-step calls included, touches the running state or what was remembered of it. */
  lemma PausedStartKeepsRun(ps: seq<Plan>, o: Op, n: int, now: int, w: World)
    requires Sized(ps, o) && Paused(o) && Paused(Start(ps, o, n, now, w))
    ensures var r := Start(ps, o, n, now, w);
            r.states[RUN] == o.states[RUN] && r.runStep == o.runStep && r.runTime == o.runTime
  {
    hide Evaluate, Init, Finalize, RunsOut, Valid;
  }

  lemma PausedPauseKeepsRun(ps: seq<Plan>, o: Op, now: int, w: World)
    requires Sized(ps, o) && Paused(o) && Paused(Pause(ps, o, now, w))
    ensures var r := Pause(ps, o, now, w);
            r.states[RUN] == o.states[RUN] && r.runStep == o.runStep && r.runTime == o.runTime
  {
    hide Evaluate, Init, Finalize, RunsOut, Valid;
  }

  lemma StopEndsPause(ps: seq<Plan>, o: Op, now: int, w: World)
    requires Sized(ps, o) && Paused(o)
    ensures !Paused(Stop(ps, o, now, w)) && !Paused(SwitchOff(ps, o, now, w)) && !Paused(Close(ps, o, now))
  {
    hide Evaluate, Init, Finalize, RunsOut, Valid;
  }

  lemma PausedWorkKeepsRun(ps: seq<Plan>, o: Op, now: int, w: World)
    requires Sized(ps, o) && Paused(o) && Paused(Work(ps, o, now, w))
    ensures var r := Work(ps, o, now, w);
            r.states[RUN] == o.states[RUN] && r.runStep == o.runStep && r.runTime == o.runTime
  {
    hide Evaluate, Init, Finalize, RunsOut, Valid;
  }

  lemma PausedCallKeepsRun(ps: seq<Plan>, o: Op, e: Event)
    requires Sized(ps, o) && Paused(o) && Paused(Apply(ps, o, e))
    ensures var r := Apply(ps, o, e);
            r.states[RUN] == o.states[RUN] && r.runStep == o.runStep && r.runTime == o.runTime
  {
    hide Pause, Stop, SwitchOff, Start, Close, Work, OnCurrent;
    match e.call {
      case Pausing => PausedPauseKeepsRun(ps, o, e.at, e.world);
      case Stopping => StopEndsPause(ps, o, e.at, e.world);
      case SwitchingOff => StopEndsPause(ps, o, e.at, e.world);
      case Starting(n) => PausedStartKeepsRun(ps, o, n, e.at, e.world);
      case Closing => StopEndsPause(ps, o, e.at, e.world);
      case Working => PausedWorkKeepsRun(ps, o, e.at, e.world);
      case _ =>
    }
  }

  ghost predicate StaysPaused(ps: seq<Plan>, o: Op, es: seq<Event>)
    requires Sized(ps, o)
    decreases |es|
  {
    Paused(o) && (es != [] ==> StaysPaused(ps, Apply(ps, o, es[0]), es[1..]))
  }

  lemma {:induction false} PauseKeepsRun(ps: seq<Plan>, o: Op, es: seq<Event>)
    requires Sized(ps, o) && StaysPaused(ps, o, es)
    ensures var r := After(ps, o, es);
            Paused(r) && r.states[RUN] == o.states[RUN] && r.runStep == o.runStep && r.runTime == o.runTime
    decreases |es|
  {
    hide Apply;
    if es != [] {
      assert StaysPaused(ps, Apply(ps, o, es[0]), es[1..]);
      PausedCallKeepsRun(ps, o, es[0]);
      PauseKeepsRun(ps, Apply(ps, o, es[0]), es[1..]);
    }
  }

  lemma PauseSaves(ps: seq<Plan>, o: Op, e: Event)
    requires Sized(ps, o) && o.current == RUN && e.call == Call.Pausing && Paused(Apply(ps, o, e))
    ensures Apply(ps, o, e).states[RUN].saved == o.states[RUN].extras
  {
    hide Evaluate, Init, RunsOut, Valid;
  }

  lemma InitKeepsExtras(p: Plan, b: Body, n: int, now: int, sig: Signals)
    requires Valid(p, b)
    ensures Init(p, b, n, now, sig).extras == b.extras
  {
  }

  lemma InitBeginsExtras(p: Plan, b: Body, n: int, now: int, sig: Signals, x: int)
    requires Valid(p, b) && x in b.extras
    ensures var r := Init(p, b, n, now, sig);
            r.extras == b.extras && 1 <= x <= |r.steps| && r.steps[x - 1].active && r.steps[x - 1].start == now
  {
    assert b.extras[Find(b.extras, x)] == x;
  }

  /** The listed extra steps are these, all active and started now. */
  ghost predicate Restarted(b: Body, extras: seq<int>, now: int) {
    && b.extras == extras
    && forall x :: x in extras ==> 1 <= x <= |b.steps| && b.steps[x - 1].active && b.steps[x - 1].start == now
  }

  lemma ResumedRuns(ps: seq<Plan>, o: Op, n: int, now: int, w: World)
    requires Sized(ps, o)
    ensures Restarted(Resumed(ps, o, n, now, w).states[RUN], o.states[RUN].saved, now)
  {
    hide Init, Numbers;
    var run := o.states[RUN];
    assert Valid(ps[RUN], run.(extras := run.saved)) by { assert Valid(ps[RUN], run); }
    forall x | x in run.saved {
      InitBeginsExtras(ps[RUN], run.(extras := run.saved), Target(o, n), now, w.of(RUN), x);
    }
    InitKeepsExtras(ps[RUN], run.(extras := run.saved), Target(o, n), now, w.of(RUN));
  }

  ghost predicate Unlinked(sig: Signals) {
    forall i: int :: !sig.linked(i)
  }

  lemma {:induction false} UnlinkedDropsNothing(p: Plan, b: Body, k: nat, sig: Signals)
    requires Valid(p, b) && Unlinked(sig)
    ensures Dropped(p, b, k, sig) == b
    decreases |b.extras| - k
  {
    if k < |b.extras| { UnlinkedDropsNothing(p, b, k + 1, sig); }
  }

  lemma {:induction false} UnlinkedRaisesNothing(p: Plan, b: Body, k: nat, now: int, sig: Signals)
    requires Valid(p, b) && Unlinked(sig)
    ensures Raised(p, b, k, now, sig) == b
    decreases |b.steps| - k
  {
    if k < |b.steps| { UnlinkedRaisesNothing(p, b, k + 1, now, sig); }
  }

  /** Does a start lead back to RUN, at once or after the UNPAUSING that has been entered? */
  predicate ReturnsToRun(ps: seq<Plan>, o: Op)
    requires Sized(ps, o)
  {
    o.current == UNPAUSING || (o.current == PAUSE && ps[UNPAUSING].empty)
  }

  /** RUN as such a start enters it, before its first evaluation. */
  function Reentered(ps: seq<Plan>, o: Op, n: int, now: int, w: World): (r: Op)
    requires Sized(ps, o)
    ensures Sized(ps, r)
  {
    Resumed(ps, if o.current == PAUSE then Leave(ps, o, PAUSE, now) else o, n, now, w)
  }

  lemma StartReenters(ps: seq<Plan>, o: Op, n: int, now: int, w: World)
    requires Sized(ps, o) && ReturnsToRun(ps, o)
    ensures Start(ps, o, n, now, w) == Work(ps, Reentered(ps, o, n, now, w), now, w)
    ensures Reentered(ps, o, n, now, w).current == RUN
  {
    hide Evaluate, Init, Finalize, RunsOut, Valid;
  }

  lemma ReenteredRuns(ps: seq<Plan>, o: Op, n: int, now: int, w: World)
    requires Sized(ps, o)
    ensures Restarted(Reentered(ps, o, n, now, w).states[RUN], o.states[RUN].saved, now)
  {
    var o1 := if o.current == PAUSE then Leave(ps, o, PAUSE, now) else o;
    assert o1.states[RUN].saved == o.states[RUN].saved by { hide Finalize, Valid; }
    hide Resumed, Leave;
    ResumedRuns(ps, o1, n, now, w);
  }

  lemma StartComesBack(ps: seq<Plan>, o: Op, n: int, now: int, w: World)
    requires Sized(ps, o)
    ensures Restarted(Reentered(ps, o, n, now, w).states[RUN], o.states[RUN].saved, now)
    ensures ReturnsToRun(ps, o) ==> Start(ps, o, n, now, w) == Work(ps, Reentered(ps, o, n, now, w), now, w)
    ensures ReturnsToRun(ps, o) && Unlinked(w.of(RUN)) && Start(ps, o, n, now, w).current == RUN ==>
              Start(ps, o, n, now, w).states[RUN].extras == o.states[RUN].saved
  {
    hide Work, Start, Reentered;
    ReenteredRuns(ps, o, n, now, w);
    if ReturnsToRun(ps, o) {
      StartReenters(ps, o, n, now, w);
      var q := Reentered(ps, o, n, now, w);
      if Unlinked(w.of(RUN)) && Work(ps, q, now, w).current == RUN { UnlinkedWork(ps, q, now, w); }
    }
  }

  /**
    * Pause a running operation, make any calls while it is paused, start it again: the extra steps are the ones active
    * at the pause, in the same order, each started again at the moment of the return. Only enabling signals of the
    * running state, which it reads at once, can change the list; without such signals the call as a whole restores it.
    */
  lemma ExtraStepsComeBack(ps: seq<Plan>, o: Op, pause: Event, es: seq<Event>, n: int, now: int, w: World)
    requires Tidy(ps, o) && o.current == RUN && pause.call == Call.Pausing
    requires StaysPaused(ps, Apply(ps, o, pause), es)
    ensures var r := Resumed(ps, After(ps, Apply(ps, o, pause), es), n, now, w);
            r.current == RUN && Restarted(r.states[RUN], o.states[RUN].extras, now)
    ensures var r := ToRun(ps, After(ps, Apply(ps, o, pause), es), n, now, w);
            Unlinked(w.of(RUN)) && r.current == RUN ==> r.states[RUN].extras == o.states[RUN].extras
    ensures var q := After(ps, Apply(ps, o, pause), es);
            ReturnsToRun(ps, q) ==>
              && Start(ps, q, n, now, w) == Work(ps, Reentered(ps, q, n, now, w), now, w)
              && Restarted(Reentered(ps, q, n, now, w).states[RUN], o.states[RUN].extras, now)
    ensures var q := After(ps, Apply(ps, o, pause), es);
            var r := Start(ps, q, n, now, w);
            ReturnsToRun(ps, q) && Unlinked(w.of(RUN)) && r.current == RUN ==>
                r.states[RUN].extras == o.states[RUN].extras
  {
    hide Apply, Accounted, AtRest, Work, Start, Reentered, Restarted;
    var o1 := Apply(ps, o, pause);
    PauseSaves(ps, o, pause);
    PauseKeepsRun(ps, o1, es);
    ResumedRuns(ps, After(ps, o1, es), n, now, w);
    var o2 := Resumed(ps, After(ps, o1, es), n, now, w);
    if Unlinked(w.of(RUN)) && Work(ps, o2, now, w).current == RUN { UnlinkedWork(ps, o2, now, w); }
    StartComesBack(ps, After(ps, o1, es), n, now, w);
  }

  lemma UnlinkedWork(ps: seq<Plan>, o: Op, now: int, w: World)
    requires Sized(ps, o) && o.current == RUN && Unlinked(w.of(RUN)) && Work(ps, o, now, w).current == RUN
    ensures Work(ps, o, now, w).states[RUN].extras == o.states[RUN].extras
  {
    UnlinkedDropsNothing(ps[RUN], o.states[RUN], 0, w.of(RUN));
    UnlinkedRaisesNothing(ps[RUN], o.states[RUN], 0, now, w.of(RUN));
  }

  // ---- one cycle of the operation ----------------------------------------------------------------------------------

  /** The call that the jump conditions lead to, if any, when the current state has been evaluated. */
  function Jump(o: Op, wish: Wish): (c: seq<Call>)
    ensures |c| <= 1
  {
    if !wish.fires || !wish.granted then []
    else if o.current == IDLE then [Starting(o.runStep)]
    else if o.current == STOPPING then [Stopping]
    else if o.current == STOP || o.current == PAUSE then []
    else if wish.target == STOP then [Stopping]
    else if wish.target == PAUSE && (o.current == RUN || o.current == PAUSING) then [Pausing]
    else if wish.target == RUN && (o.current == STARTING || o.current == UNPAUSING) then [Starting(wish.runStep)]
    else []
  }

  /** A cycle is a run of at most two calls at one moment, so all that holds of runs of calls holds of cycles. */
  lemma CycleIsARun(ps: seq<Plan>, o: Op, now: int, w: World, wish: Wish) returns (es: seq<Event>)
    requires Sized(ps, o)
    ensures 1 <= |es| <= 2 && es[0] == Event(Working, now, w) && forall e :: e in es ==> e.at == now
    ensures After(ps, o, es) == Follow(ps, Work(ps, o, now, w), now, w, wish)
  {
    hide Work, Start, Stop, Pause, Valid;
    var q := Work(ps, o, now, w);
    var c := Jump(q, wish);
    es := [Event(Working, now, w)];
    assert es[1..] == [] && After(ps, q, []) == q;
    if c != [] {
      var e := Event(c[0], now, w);
      es := es + [e];
      assert es[1..] == [e] && [e][1..] == [];
      assert After(ps, q, [e]) == After(ps, Apply(ps, q, e), []) == Apply(ps, q, e);
    }
  }
}

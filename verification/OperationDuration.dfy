/**
  * How long a step lasts: exactly its set time, counted from the calls alone, over any number of pauses; and what comes
  * after it.
  */
module OperationDuration {
  import opened StepSpec
  import opened OperationSpec
  import opened OperationSafety
  import opened OperationTime
  import opened OperationStepTime

  // ---- the successor is the configured one -------------------------------------------------------------------------

  predicate Chosen(p: Plan, b: Body)
    requires Valid(p, b)
  {
    b.main >= 0 ==> b.next == p.next[b.main]
  }

  ghost predicate AllChosen(ps: seq<Plan>, o: Op) {
    Sized(ps, o) && forall k :: 0 <= k < STATES_MAX ==> Chosen(ps[k], o.states[k])
  }

  lemma EvaluateChosen(p: Plan, b: Body, now: int, sig: Signals)
    requires Valid(p, b) && Chosen(p, b)
    ensures Chosen(p, Evaluate(p, b, now, sig))
  {
    hide Dropped, Raised, Following;
    DroppedFrame(p, b, 0, sig);
    RaisedFrame(p, Dropped(p, b, 0, sig), 0, now, sig);
  }

  lemma StepCallChosen(p: Plan, b: Body, n: int, on: StepNumber, now: int, sig: Signals, passes: bool)
    requires Valid(p, b) && Chosen(p, b)
    ensures Chosen(p, To(p, b, n, now, sig)) && Chosen(p, ToNext(p, b, now, sig))
    ensures Chosen(p, OffExtra(p, b, n)) && Chosen(p, OnExtra(p, b, on, now, passes))
    ensures Chosen(p, SwitchExtra(p, b, n, on, now))
  {
  }

  lemma InitChosen(p: Plan, b: Body, n: int, now: int, sig: Signals)
    requires Valid(p, b)
    ensures Chosen(p, Init(p, b, n, now, sig))
  {
  }

  lemma MoveChosen(ps: seq<Plan>, o: Op, k: nat, n: int, now: int, w: World)
    requires AllChosen(ps, o)
    ensures k < STATES_MAX ==> AllChosen(ps, Leave(ps, o, k, now))
    ensures Entered(k) ==> AllChosen(ps, Enter(ps, o, k, n, now, w))
  {
    hide Init, Numbers;
    if Entered(k) { InitChosen(ps[k], o.states[k], n, now, w.of(k)); }
  }

  lemma RememberChosen(ps: seq<Plan>, o: Op, now: int)
    requires AllChosen(ps, o)
    ensures AllChosen(ps, Remember(o, now)) && Remember(o, now).current == o.current
  {
  }

  lemma CloseChosen(ps: seq<Plan>, o: Op, now: int)
    requires AllChosen(ps, o)
    ensures AllChosen(ps, Close(ps, o, now))
  {
    hide Numbers;
  }

  lemma WorkChosen(ps: seq<Plan>, o: Op, now: int, w: World)
    requires AllChosen(ps, o)
    ensures AllChosen(ps, Work(ps, o, now, w))
  {
    hide Evaluate, Close, RunsOut, Numbers;
    EvaluateChosen(ps[o.current], o.states[o.current], now, w.of(o.current));
    CloseChosen(ps, Put(o, o.current, Evaluate(ps[o.current], o.states[o.current], now, w.of(o.current))), now);
  }

  lemma ResumedChosen(ps: seq<Plan>, o: Op, n: int, now: int, w: World)
    requires AllChosen(ps, o)
    ensures AllChosen(ps, Resumed(ps, o, n, now, w))
  {
    hide Init, Numbers;
    var run := o.states[RUN];
    InitChosen(ps[RUN], run.(extras := run.saved), Target(o, n), now, w.of(RUN));
  }

  lemma ChangeChosen(ps: seq<Plan>, o: Op, k: nat, now: int, w: World)
    requires AllChosen(ps, o) && Entered(k)
    ensures var r := Enter(ps, Leave(ps, o, o.current, now), k, 1, now, w);
            AllChosen(ps, r) && AllChosen(ps, Work(ps, r, now, w))
  {
    hide Enter, Leave, Work, Chosen;
    MoveChosen(ps, o, o.current, 1, now, w);
    MoveChosen(ps, Leave(ps, o, o.current, now), k, 1, now, w);
    WorkChosen(ps, Enter(ps, Leave(ps, o, o.current, now), k, 1, now, w), now, w);
  }

  lemma StartChosen(ps: seq<Plan>, o: Op, n: int, now: int, w: World)
    requires AllChosen(ps, o)
    ensures AllChosen(ps, Start(ps, o, n, now, w))
  {
    hide Enter, Leave, Work, Resumed, Valid;
    if o.current == PAUSE || o.current == UNPAUSING {
      var o1 := if o.current == PAUSE then Leave(ps, o, PAUSE, now) else o;
      MoveChosen(ps, o, PAUSE, n, now, w);
      ResumedChosen(ps, o1, n, now, w);
      WorkChosen(ps, Resumed(ps, o1, n, now, w), now, w);
      ChangeChosen(ps, o, UNPAUSING, now, w);
    } else {
      ChangeChosen(ps, o, if o.current == IDLE && !ps[STARTING].empty then STARTING else RUN, now, w);
    }
  }

  lemma PauseChosen(ps: seq<Plan>, o: Op, now: int, w: World)
    requires AllChosen(ps, o)
    ensures AllChosen(ps, Pause(ps, o, now, w))
  {
    hide Enter, Leave, Work, Remember, Valid;
    RememberChosen(ps, o, now);
    if o.current == RUN {
      ChangeChosen(ps, Remember(o, now), if ps[PAUSING].empty then PAUSE else PAUSING, now, w);
    } else {
      ChangeChosen(ps, o, PAUSE, now, w);
    }
  }

  lemma OnCurrentChosen(ps: seq<Plan>, o: Op, c: Call, now: int, w: World)
    requires AllChosen(ps, o)
    ensures AllChosen(ps, Put(o, o.current, OnCurrent(ps, o, c, now, w.of(o.current))))
  {
    hide To, ToNext, OnExtra, OffExtra, SwitchExtra, Numbers;
    var p, b, sig := ps[o.current], o.states[o.current], w.of(o.current);
    match c {
      case Stepping(n) => StepCallChosen(p, b, n, 1, now, sig, false);
      case SteppingOn => StepCallChosen(p, b, 0, 1, now, sig, false);
      case AddingExtra(n) => StepCallChosen(p, b, 0, n, now, sig, sig.passes(n - 1));
      case DroppingExtra(n) => StepCallChosen(p, b, n, 1, now, sig, false);
      case SwappingExtra(n, on) => StepCallChosen(p, b, n, on, now, sig, false);
      case _ =>
    }
  }

  lemma CallChosen(ps: seq<Plan>, o: Op, e: Event)
    requires AllChosen(ps, o)
    ensures AllChosen(ps, Apply(ps, o, e))
  {
    hide Work, Start, Pause, Close, Enter, Leave, Valid, OnCurrent, Chosen;
    var now, w := e.at, e.world;
    match e.call {
      case Starting(n) => StartChosen(ps, o, n, now, w);
      case Pausing => PauseChosen(ps, o, now, w);
      case Closing => CloseChosen(ps, o, now);
      case Working => WorkChosen(ps, o, now, w);
      case Stopping =>
        ChangeChosen(ps, o, if o.current == STOPPING || ps[STOPPING].empty then STOP else STOPPING, now, w);
      case SwitchingOff => ChangeChosen(ps, o, IDLE, now, w);
      case _ => OnCurrentChosen(ps, o, e.call, now, w);
    }
  }

  lemma {:induction false} RunChosen(ps: seq<Plan>, o: Op, es: seq<Event>)
    requires AllChosen(ps, o)
    ensures AllChosen(ps, After(ps, o, es))
    decreases |es|
  {
    hide Apply, Chosen, Valid;
    if es != [] {
      CallChosen(ps, o, es[0]);
      RunChosen(ps, Apply(ps, o, es[0]), es[1..]);
    }
  }

  /** The set time that is shown is that of the step entered, and after an evaluation that of the main step. */
  lemma SetTimeIsShown(p: Plan, b: Body, n: int, now: int, sig: Signals)
    requires Valid(p, b)
    ensures Exists(b, n) ==> To(p, b, n, now, sig).allotted == if p.timed[n - 1] then sig.duration(n - 1) else 0
    ensures var r := Evaluate(p, b, now, sig);
            r.main >= 0 && p.timed[r.main] ==> r.allotted == sig.duration(r.main)
  {
    hide Dropped, Raised, Following;
    DroppedFrame(p, b, 0, sig);
    RaisedFrame(p, Dropped(p, b, 0, sig), 0, now, sig);
  }

  // ---- the set time ------------------------------------------------------------------------------------------------

  /** What follows step m when it has run for some time: its successor when its set time is over, or else its jump. */
  function Next(p: Plan, m: nat, time: int, sig: Signals): int
    requires m < |p.timed| == |p.next|
  {
    if p.timed[m] && (sig.duration(m) == 0 || sig.duration(m) < time) then p.next[m] else sig.jump(m)
  }

  lemma FollowsNext(p: Plan, b: Body, now: int, sig: Signals, time: int)
    requires Valid(p, b) && Chosen(p, b) && b.main >= 0 && MainTime(b, now) == time
    requires !(Carries(b) && WalkEnds(b.extras, 0, b.main + 1, sig))
    ensures var b1, n := Signalled(p, b, now, sig), Next(p, b.main, time, sig);
            && b1.main == b.main
            && Following(p, b1, now, sig) == (if Exists(b, n) then n else 0)
            && (RunsOut(p, b1, now, sig) <==> n == -1 && Over(p, b.main, time, sig))
  {
    hide Signalled, WalkEnds;
    SignalledWalks(p, b, now, sig);
    SignalledNext(p, b, now, sig);
  }

  lemma SignalledNext(p: Plan, b: Body, now: int, sig: Signals)
    requires Valid(p, b)
    ensures Signalled(p, b, now, sig).next == b.next
  {
    DroppedFrame(p, b, 0, sig);
    RaisedFrame(p, Dropped(p, b, 0, sig), 0, now, sig);
  }

  /** The set time of step m is over. */
  predicate Over(p: Plan, m: nat, time: int, sig: Signals)
    requires m < |p.timed|
  {
    p.timed[m] && (sig.duration(m) == 0 || sig.duration(m) < time)
  }

  /** One evaluation of RUN, in terms of the time its main step has run. */
  lemma WorkMovesOn(ps: seq<Plan>, o: Op, e: Event, time: int)
    requires Sized(ps, o) && AllChosen(ps, o) && o.current == RUN && o.states[RUN].main >= 0 && e.call.Working?
    requires MainTime(o.states[RUN], e.at) == time
    requires var b := o.states[RUN]; !(Carries(b) && WalkEnds(b.extras, 0, b.main + 1, e.world.of(RUN)))
    ensures Lasts(ps, o, e, time)
  {
    hide Signalled, WalkEnds, Finalize, Numbers, Next, Over;
    var p, b, sig := ps[RUN], o.states[RUN], e.world.of(RUN);
    FollowsNext(p, b, e.at, sig, time);
    SignalledWalks(p, b, e.at, sig);
    ClockedKeeps(p, Signalled(p, b, e.at, sig), sig);
  }

  /** What an evaluation makes of a main step that has run for that time. */
  predicate Lasts(ps: seq<Plan>, o: Op, e: Event, time: int)
    requires Sized(ps, o) && o.states[RUN].main >= 0
  {
    var p, b, sig := ps[RUN], o.states[RUN], e.world.of(RUN);
    var n, q := Next(p, b.main, time, sig), Apply(ps, o, e);
    if Exists(b, n) then
      && q.current == RUN && q.states[RUN].main == n - 1 && |q.states[RUN].steps| == |b.steps|
      && (!p.timed[n - 1] || sig.duration(n - 1) > 0 ==> q.states[RUN].steps[n - 1].start == e.at)
    else if n == -1 && e.world.off && Over(p, b.main, time, sig) then q.current == IDLE
    else q.current == RUN && q.states[RUN].main == b.main && MainTime(q.states[RUN], e.at) == time
  }

  /**
    * After any run from construction whose calls since the present step was entered meet their condition, an evaluation
    * that ends no listing of the step moves on exactly when the RUN time since it was entered, counted from the calls
    * alone, is more than its set time, or when that is zero: to the configured successor, or out of the operation where
    * there is none. Until then it only follows a jump.
    */
  lemma StepLastsItsTime(ps: seq<Plan>, o: Op, es: seq<Event>, begin: int, e: Event)
    requires Built(ps, o) && RightSinceEntry(ps, o, es, true)
    requires var r := After(ps, o, es); r.current == RUN && r.states[RUN].main >= 0 && e.call.Working?
    requires var b := After(ps, o, es).states[RUN];
             !(Carries(b) && WalkEnds(b.extras, 0, b.main + 1, e.world.of(RUN)))
    ensures var r, l := After(ps, o, es), BookedRun(ps, o, Ledger(0, 0, begin), es);
            Lasts(ps, r, e, l.inStep + e.at - l.last)
  {
    hide After, BookedRun, RightSinceEntry, Lasts, Apply, WalkEnds, AtRest, MainTime, Valid;
    BuiltIsChosen(ps, o);
    RunChosen(ps, o, es);
    StepTimeIsPauseProof(ps, o, es, begin);
    var r, l := After(ps, o, es), BookedRun(ps, o, Ledger(0, 0, begin), es);
    TimePasses(ps[RUN], r.states[RUN], l.last, e.at);
    WorkMovesOn(ps, r, e, l.inStep + e.at - l.last);
  }

  lemma BuiltIsChosen(ps: seq<Plan>, o: Op)
    requires Built(ps, o)
    ensures AllChosen(ps, o)
  {
  }

  lemma TimePasses(p: Plan, b: Body, last: int, now: int)
    requires Valid(p, b) && b.main >= 0
    ensures MainTime(b, now) == MainTime(b, last) + now - last
  {
  }

  /**
    * Without enabling signals and jumps, a step with a positive set time and another step as its successor is left by
    * an evaluation if and only if it has run for more than that time, over any number of pauses.
    */
  lemma StepStaysExactly(ps: seq<Plan>, o: Op, es: seq<Event>, begin: int, e: Event)
    requires Built(ps, o) && RightSinceEntry(ps, o, es, true)
    requires var r := After(ps, o, es); r.current == RUN && r.states[RUN].main >= 0 && e.call.Working?
    requires Unlinked(e.world.of(RUN))
    requires var b, m := After(ps, o, es).states[RUN], After(ps, o, es).states[RUN].main;
             && ps[RUN].timed[m] && e.world.of(RUN).duration(m) > 0 && !Exists(b, e.world.of(RUN).jump(m))
             && Exists(b, ps[RUN].next[m]) && ps[RUN].next[m] != m + 1
    ensures var r, l := After(ps, o, es), BookedRun(ps, o, Ledger(0, 0, begin), es);
            var q, m := Apply(ps, r, e), r.states[RUN].main;
            && q.current == RUN
            && (q.states[RUN].main == m <==> l.inStep + e.at - l.last <= e.world.of(RUN).duration(m))
            && (q.states[RUN].main != m ==> q.states[RUN].main == ps[RUN].next[m] - 1)
  {
    hide Apply, AtRest, RightSinceEntry, WalkEnds;
    var b := After(ps, o, es).states[RUN];
    UnlinkedEndsNothing(b.extras, 0, b.main + 1, e.world.of(RUN));
    StepLastsItsTime(ps, o, es, begin, e);
  }

  lemma {:induction false} UnlinkedEndsNothing(list: seq<int>, k: nat, n: int, sig: Signals)
    requires Unlinked(sig)
    ensures !WalkEnds(list, k, n, sig)
    decreases |list| - k
  {
    if k < |list| { UnlinkedEndsNothing(list, k + 1, n, sig); }
  }
}

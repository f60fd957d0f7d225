/**
  * The time of the main step over whole runs: it is the RUN time spent in that step, however often the operation was
  * paused and brought back to it. Exactly which calls make it wrong, and that entering a step makes it right again.
  */
module OperationStepTime {
  import opened StepSpec
  import opened OperationSpec
  import opened OperationSafety
  import opened OperationTime

  /** The reported time of the main step agrees with the ledger, and so does the time carried over a pause. */
  ghost predicate Counts(ps: seq<Plan>, o: Op, l: Ledger)
    requires Sized(ps, o)
  {
    && (o.current == RUN && o.states[RUN].main >= 0 ==> MainTime(o.states[RUN], l.last) == l.inStep)
    && (Paused(o) && o.runStep > 0 ==> o.states[RUN].dx == l.inStep)
  }

  // ---- what can be checked before a call ---------------------------------------------------------------------------

  /** The walk over the extra steps, which skips a place after each removal, ends a listing of n. */
  predicate WalkEnds(list: seq<int>, k: nat, n: int, sig: Signals)
    decreases |list| - k
  {
    k < |list| &&
    var m := list[k] - 1;
    var gone := sig.linked(m) && !sig.raised(m) && sig.drop(m);
    (gone && list[k] == n) || WalkEnds(if gone then Without(list, list[k]) else list, k + 1, n, sig)
  }

  /** Step n, if it exists, is started when it is entered, or by chance was last started at this very moment. */
  predicate Begins(p: Plan, b: Body, n: int, now: int, sig: Signals)
    requires Valid(p, b)
  {
    Exists(b, n) ==> Starts(p, n - 1, sig) || b.steps[n - 1].start == now
  }

  /** The main step carries time from before a pause. */
  predicate Carries(b: Body)
    requires -1 <= b.main < |b.steps|
  {
    b.main >= 0 && b.steps[b.main].dx != 0
  }

  /**
    * The evaluation of RUN: a step that it moves on to begins, and if there is none, no listing is ended of a main step
    * that carries time. When the object switches the operation off, there is no main step any more.
    */
  predicate WorksRight(ps: seq<Plan>, o: Op, e: Event)
    requires Sized(ps, o)
  {
    var p, b, sig := ps[RUN], o.states[RUN], e.world.of(RUN);
    var n := NextNumber(ps, o, e);
    MustClose(ps, o, e.at, e.world)
    || if n != 0 then Begins(p, Signalled(p, b, e.at, sig), n, e.at, sig)
       else !(Carries(b) && WalkEnds(b.extras, 0, b.main + 1, sig))
  }

  /** The step that a start comes back to is begun, as the main step or, if it is listed, as an extra step. */
  predicate ComesBack(p: Plan, run: Body, n: int, now: int, sig: Signals)
    requires Valid(p, run)
  {
    Begins(p, run, n, now, sig) || n in run.saved
  }

  /** The number of the step that the next one is configured or counted to be. */
  function NextOf(p: Plan, b: Body): int
    requires Valid(p, b) && b.main >= 0
  {
    if p.next[b.main] == -1 then b.main + 2 else p.next[b.main]
  }

  /** The conditions under which a call keeps, or makes, the time of the main step right. */
  predicate Right(ps: seq<Plan>, o: Op, e: Event)
    requires Sized(ps, o)
  {
    var p, run, sig := ps[RUN], o.states[RUN], e.world.of(RUN);
    match e.call
    case Starting(n) =>
      if Resumes(ps, o, e.call) then
        var q := BeforeWork(ps, o, e);
        && WorksRight(ps, q, e)
        && (MovesOn(ps, q, e) || MustClose(ps, q, e.at, e.world) || ComesBack(p, run, Target(o, n), e.at, sig))
      else o.current == STARTING || (o.current == IDLE && ps[STARTING].empty) ==> Begins(p, run, 1, e.at, sig)
    case Working => o.current == RUN ==> WorksRight(ps, o, e)
    case Stepping(n) => o.current == RUN ==> Begins(p, run, n, e.at, sig)
    case SteppingOn => o.current == RUN && run.main >= 0 ==> Begins(p, run, NextOf(p, run), e.at, sig)
    case DroppingExtra(n) => o.current == RUN && n == run.main + 1 && n in run.extras ==> !Carries(run)
    case SwappingExtra(n, on) =>
      o.current == RUN && n == run.main + 1 && n in run.extras && Exists(run, on) && on != n ==> !Carries(run)
    case _ => true
  }

  // ---- what the calls do to the main step --------------------------------------------------------------------------

  /**
    * A step that is entered counts from zero if and only if it is started, or by chance was last started at this very
    * moment.
    */
  lemma EnteredCountsFromZero(p: Plan, b: Body, n: int, now: int, sig: Signals)
    requires Valid(p, b) && Accounted(b) && Exists(b, n)
    ensures To(p, b, n, now, sig).main == n - 1
    ensures MainTime(To(p, b, n, now, sig), now) == 0 <==> Begins(p, b, n, now, sig)
  {
  }

  /**
    * Ending the listing of an extra step keeps the time of the main step if and only if the step is not listed, is not
    * the main step, or carries no time from before a pause.
    */
  lemma DroppingKeepsMainTime(p: Plan, b: Body, n: int, now: int)
    requires Valid(p, b)
    ensures OffExtra(p, b, n).main == b.main
    ensures MainTime(OffExtra(p, b, n), now) == MainTime(b, now) <==>
            n !in b.extras || n != b.main + 1 || !Carries(b)
  {
  }

  /** Replacing a listing does, too, or if there is nothing to replace it with. */
  lemma SwappingKeepsMainTime(p: Plan, b: Body, n: int, on: StepNumber, now: int)
    requires Valid(p, b)
    ensures SwitchExtra(p, b, n, on, now).main == b.main
    ensures MainTime(SwitchExtra(p, b, n, on, now), now) == MainTime(b, now) <==>
            n !in b.extras || n != b.main + 1 || !Carries(b) || !Exists(b, on) || on == n
  {
  }

  lemma AddingKeepsMainTime(p: Plan, b: Body, n: StepNumber, now: int, passes: bool)
    requires Valid(p, b)
    ensures OnExtra(p, b, n, now, passes).main == b.main
    ensures MainTime(OnExtra(p, b, n, now, passes), now) == MainTime(b, now)
  {
  }

  /** The main step after the walk: it keeps its start, and loses what it carries if its listing ends. */
  predicate Walked(b: Body, r: Body, ends: bool) {
    && |r.steps| == |b.steps| && r.main == b.main && 0 <= b.main < |b.steps|
    && r.steps[b.main].start == b.steps[b.main].start
    && r.steps[b.main].dx == if ends then 0 else b.steps[b.main].dx
  }

  lemma OffExtraWalks(p: Plan, b: Body, n: int)
    requires Valid(p, b) && b.main >= 0 && n in b.extras
    ensures Walked(b, OffExtra(p, b, n), n == b.main + 1) && OffExtra(p, b, n).extras == Without(b.extras, n)
  {
  }

  lemma {:induction false} DroppedWalks(p: Plan, b: Body, k: nat, sig: Signals)
    requires Valid(p, b) && b.main >= 0
    ensures Walked(b, Dropped(p, b, k, sig), WalkEnds(b.extras, k, b.main + 1, sig))
    decreases |b.extras| - k
  {
    hide OffExtra, Without;
    if k < |b.extras| {
      var m := b.extras[k] - 1;
      if sig.linked(m) && !sig.raised(m) && sig.drop(m) {
        OffExtraFrame(p, b, m + 1);
        OffExtraWalks(p, b, m + 1);
        DroppedWalks(p, OffExtra(p, b, m + 1), k + 1, sig);
      } else {
        DroppedWalks(p, b, k + 1, sig);
      }
    }
  }

  lemma SignalledWalks(p: Plan, b: Body, now: int, sig: Signals)
    requires Valid(p, b) && b.main >= 0
    ensures Walked(b, Signalled(p, b, now, sig), WalkEnds(b.extras, 0, b.main + 1, sig))
  {
    hide Dropped, Raised, WalkEnds;
    DroppedWalks(p, b, 0, sig);
    RaisedTimes(p, Dropped(p, b, 0, sig), 0, now, sig);
  }

  /** One evaluation enters the step that follows, or leaves the main step to the walk. */
  lemma EvaluateTimes(p: Plan, b: Body, now: int, sig: Signals)
    requires Valid(p, b) && Accounted(b)
    ensures var r, b1 := Evaluate(p, b, now, sig), Signalled(p, b, now, sig);
            var n := Following(p, b1, now, sig);
            && r.main == (if n != 0 then n - 1 else b.main)
            && (n != 0 ==> (MainTime(r, now) == 0 <==> Begins(p, b1, n, now, sig)))
            && (n == 0 && b.main >= 0 ==> Walked(b, r, WalkEnds(b.extras, 0, b.main + 1, sig)))
  {
    hide Signalled, WalkEnds, Accounted, TimeIsUp;
    SignalledAccounted(p, b, now, sig);
    var b1 := Signalled(p, b, now, sig);
    var n := Following(p, b1, now, sig);
    ClockedKeeps(p, b1, sig);
    if n != 0 {
      EnteredCountsFromZero(p, Clocked(p, b1, sig), n, now, sig);
    } else if b.main >= 0 {
      SignalledWalks(p, b, now, sig);
    }
  }

  lemma ClockedKeeps(p: Plan, b: Body, sig: Signals)
    requires Valid(p, b)
    ensures var r := Clocked(p, b, sig);
            && r.steps == b.steps && r.main == b.main && r.extras == b.extras && (Accounted(b) ==> Accounted(r))
  {
  }

  // ---- one call ----------------------------------------------------------------------------------------------------

  lemma WorkElsewhere(ps: seq<Plan>, o: Op, now: int, w: World)
    requires Sized(ps, o) && o.current != RUN
    ensures var r := Work(ps, o, now, w); r.current != IDLE ==> r.states[RUN] == o.states[RUN]
  {
    hide Evaluate, Finalize, RunsOut;
  }

  lemma PauseCounts(ps: seq<Plan>, o: Op, l: Ledger, e: Event)
    requires Tidy(ps, o) && Counts(ps, o, l) && o.current == RUN && e.call.Pausing?
    ensures Counts(ps, Apply(ps, o, e), Booked(ps, o, l, e))
  {
    hide Work, Init, Accounted, AtRest, Numbers;
    var k := if ps[PAUSING].empty then PAUSE else PAUSING;
    var o1 := Enter(ps, Leave(ps, Remember(o, e.at), RUN, e.at), k, 1, e.at, e.world);
    WorkElsewhere(ps, o1, e.at, e.world);
    WorkTime(ps, o1, e.at, e.world);
  }

  /** What the evaluation of RUN makes of the time of the main step. */
  lemma RunWorkCounts(ps: seq<Plan>, o: Op, e: Event, inStep: int)
    requires Tidy(ps, o) && o.current == RUN
    requires MovesOn(ps, o, e) ==> inStep == 0
    ensures var p, b, sig := ps[RUN], o.states[RUN], e.world.of(RUN);
            var n := NextNumber(ps, o, e);
            Counts(ps, Work(ps, o, e.at, e.world), Ledger(0, inStep, e.at)) <==>
              || MustClose(ps, o, e.at, e.world)
              || if n != 0 then Begins(p, Signalled(p, b, e.at, sig), n, e.at, sig)
                 else b.main < 0
                      || MainTime(b, e.at) - (if WalkEnds(b.extras, 0, b.main + 1, sig) then b.steps[b.main].dx else 0)
                         == inStep
  {
    hide Evaluate, Signalled, Begins, WalkEnds, Numbers, Finalize, Accounted, AtRest;
    EvaluateTimes(ps[RUN], o.states[RUN], e.at, e.world.of(RUN));
  }

  lemma RunCallCounts(ps: seq<Plan>, o: Op, l: Ledger, e: Event)
    requires Tidy(ps, o) && o.current == RUN && (Counts(ps, o, l) || EntersStep(ps, o, e))
    ensures Counts(ps, Apply(ps, o, e), Booked(ps, o, l, e)) <==> Right(ps, o, e)
  {
    hide Work, Finalize, Init, Accounted, AtRest, Begins, To, OnExtra, OffExtra, SwitchExtra, MustClose, WorksRight;
    var p, b, sig := ps[RUN], o.states[RUN], e.world.of(RUN);
    match e.call {
      case Pausing => PauseCounts(ps, o, l, e);
      case Stopping =>
        WorkTime(ps, Enter(ps, Leave(ps, o, RUN, e.at), if ps[STOPPING].empty then STOP else STOPPING,
            1, e.at, e.world),
                 e.at, e.world);
      case SwitchingOff => WorkTime(ps, Enter(ps, Leave(ps, o, RUN, e.at), IDLE, 1, e.at, e.world), e.at, e.world);
      case Working => WorkingCounts(ps, o, l, e);
      case Stepping(n) => StepCallCounts(ps, o, l, e, n);
      case SteppingOn =>
        if b.main >= 0 { StepCallCounts(ps, o, l, e, NextOf(p, b)); }
      case AddingExtra(n) => AddingKeepsMainTime(p, b, n, e.at, sig.passes(n - 1));
      case DroppingExtra(n) => DroppingKeepsMainTime(p, b, n, e.at);
      case SwappingExtra(n, on) => SwappingKeepsMainTime(p, b, n, on, e.at);
      case _ =>
    }
  }

  lemma WorkingCounts(ps: seq<Plan>, o: Op, l: Ledger, e: Event)
    requires Tidy(ps, o) && o.current == RUN && e.call.Working? && (Counts(ps, o, l) || EntersStep(ps, o, e))
    ensures Counts(ps, Apply(ps, o, e), Booked(ps, o, l, e)) <==> WorksRight(ps, o, e)
  {
    hide Work, Begins, MustClose, WalkEnds, Signalled, NextNumber, Accounted, AtRest;
    RunWorkCounts(ps, o, e, Booked(ps, o, l, e).inStep);
  }

  lemma StepCallCounts(ps: seq<Plan>, o: Op, l: Ledger, e: Event, n: int)
    requires Tidy(ps, o) && o.current == RUN && (Counts(ps, o, l) || Exists(o.states[RUN], n))
    ensures var p, b, sig := ps[RUN], o.states[RUN], e.world.of(RUN);
            var next := Ledger(0, if Exists(b, n) then 0 else l.inStep + e.at - l.last, e.at);
            Counts(ps, Put(o, RUN, To(p, b, n, e.at, sig)), next) <==> Begins(p, b, n, e.at, sig)
  {
    hide Accounted, AtRest, Starts;
    if Exists(o.states[RUN], n) {
      EnteredCountsFromZero(ps[RUN], o.states[RUN], n, e.at, e.world.of(RUN));
    }
  }

  /** RUN as a start that comes back enters it, when the wanted step exists. */
  lemma ResumedStep(ps: seq<Plan>, o: Op, n: int, now: int, w: World)
    requires Between(ps, o)
    ensures var run, b := o.states[RUN], Resumed(ps, o, n, now, w).states[RUN];
            && |b.steps| == |run.steps| && b.extras == run.saved
            && b.main == (if Exists(run, Target(o, n)) then Target(o, n) - 1 else -1)
            && (b.main >= 0 ==>
                  && b.steps[b.main].dx == (if SameStep(o, n) then run.dx else 0)
                  && (b.steps[b.main].start == now <==> ComesBack(ps[RUN], run, Target(o, n), now, w.of(RUN))))
  {
    hide Numbers;
  }

  lemma WalkNeedsListing(list: seq<int>, k: nat, n: int, sig: Signals)
    requires WalkEnds(list, k, n, sig)
    ensures n in list
    decreases |list| - k
  {
    var m := list[k] - 1;
    if list[k] != n {
      var gone := sig.linked(m) && !sig.raised(m) && sig.drop(m);
      WalkNeedsListing(if gone then Without(list, list[k]) else list, k + 1, n, sig);
    }
  }

  lemma ResumeCounts(ps: seq<Plan>, o: Op, l: Ledger, e: Event)
    requires Tidy(ps, o) && Paused(o) && Resumes(ps, o, e.call)
    requires Counts(ps, o, l) || EntersStep(ps, o, e)
    ensures Counts(ps, Apply(ps, o, e), Booked(ps, o, l, e)) <==> Right(ps, o, e)
  {
    hide Work, Resumed, Accounted, AtRest, MustClose, Begins, ComesBack, Signalled, WalkEnds, NextNumber;
    var n, p, run, sig := e.call.n, ps[RUN], o.states[RUN], e.world.of(RUN);
    var o1 := if o.current == PAUSE then Leave(ps, o, PAUSE, e.at) else o;
    if o.current == PAUSE { LeaveTidy(ps, o, e.at); }
    assert Between(ps, o1) && o1.states[RUN] == run && o1.runStep == o.runStep;
    ResumedTidy(ps, o1, n, e.at, e.world);
    ResumedStep(ps, o1, n, e.at, e.world);
    var q := Resumed(ps, o1, n, e.at, e.world);
    assert q == BeforeWork(ps, o, e);
    assert Apply(ps, o, e) == Work(ps, q, e.at, e.world);
    ResumeWorks(ps, o, q, l, e);
  }

  lemma ResumeWorks(ps: seq<Plan>, o: Op, q: Op, l: Ledger, e: Event)
    requires Sized(ps, o) && Paused(o) && Resumes(ps, o, e.call) && (Counts(ps, o, l) || EntersStep(ps, o, e))
    requires Tidy(ps, q) && q.current == RUN && q == BeforeWork(ps, o, e)
    requires var run, b, n := o.states[RUN], q.states[RUN], Target(o, e.call.n);
      && |b.steps| == |run.steps| && b.extras == run.saved
      && b.main == (if Exists(run, n) then n - 1 else -1)
      && (b.main >= 0 ==>
            && b.steps[b.main].dx == (if SameStep(o, e.call.n) then run.dx else 0)
            && (b.steps[b.main].start == e.at <==> ComesBack(ps[RUN], run, n, e.at, e.world.of(RUN))))
    ensures Counts(ps, Work(ps, q, e.at, e.world), Booked(ps, o, l, e)) <==> Right(ps, o, e)
  {
    hide Work, BeforeWork, Accounted, AtRest, MustClose, Signalled, WalkEnds, NextNumber, Starts;
    var run, b, sig := o.states[RUN], q.states[RUN], e.world.of(RUN);
    RunWorkCounts(ps, q, e, Booked(ps, o, l, e).inStep);
    if b.main >= 0 && WalkEnds(b.extras, 0, b.main + 1, sig) { WalkNeedsListing(b.extras, 0, b.main + 1, sig); }
  }

  lemma StartCounts(ps: seq<Plan>, o: Op, l: Ledger, e: Event)
    requires Tidy(ps, o) && (o.current == IDLE || o.current == STARTING) && e.call.Starting?
    ensures Counts(ps, Apply(ps, o, e), Booked(ps, o, l, e)) <==> Right(ps, o, e)
  {
    hide Finalize, Numbers;
    LeaveTidy(ps, o, e.at);
  }

  lemma OutsideStaysOutside(ps: seq<Plan>, o: Op, e: Event)
    requires Sized(ps, o) && o.current != RUN && !Paused(o)
    requires !(e.call.Starting? && (o.current == IDLE || o.current == STARTING))
    ensures var r := Apply(ps, o, e); r.current != RUN && !Paused(r)
  {
    hide Evaluate, Finalize, Init, RunsOut, Valid, OnCurrent;
  }

  lemma PausedCallCounts(ps: seq<Plan>, o: Op, l: Ledger, e: Event)
    requires Tidy(ps, o) && Paused(o) && !Resumes(ps, o, e.call) && (Counts(ps, o, l) || EntersStep(ps, o, e))
    ensures Counts(ps, Apply(ps, o, e), Booked(ps, o, l, e)) && Right(ps, o, e)
  {
    hide Apply, Accounted, AtRest;
    if Paused(Apply(ps, o, e)) {
      PausedCallKeepsRun(ps, o, e);
    } else if Apply(ps, o, e).current == RUN {
      ResumingCall(ps, o, e);
    }
  }

  lemma ResumingCall(ps: seq<Plan>, o: Op, e: Event)
    requires Sized(ps, o) && Paused(o)
    ensures Apply(ps, o, e).current == RUN ==> Resumes(ps, o, e.call)
  {
    hide Evaluate, Finalize, Init, RunsOut, Valid, OnCurrent;
  }

  /**
    * One call keeps the time of the main step right if and only if it meets its condition, and a call that enters a
    * step makes it right if and only if it does, however wrong it was.
    */
  lemma CallCountsExactly(ps: seq<Plan>, o: Op, l: Ledger, e: Event)
    requires Tidy(ps, o) && (Counts(ps, o, l) || EntersStep(ps, o, e))
    ensures Counts(ps, Apply(ps, o, e), Booked(ps, o, l, e)) <==> Right(ps, o, e)
  {
    hide Accounted, AtRest, WorksRight, ComesBack, Begins;
    if o.current == RUN {
      RunCallCounts(ps, o, l, e);
    } else if Paused(o) {
      if Resumes(ps, o, e.call) { ResumeCounts(ps, o, l, e); } else { PausedCallCounts(ps, o, l, e); }
    } else if e.call.Starting? && (o.current == IDLE || o.current == STARTING) {
      StartCounts(ps, o, l, e);
    } else {
      OutsideStaysOutside(ps, o, e);
    }
  }

  // ---- whole runs ---------------------------------------------------------------------------------------------------

  /**
    * The calls since the present step was entered, the one that entered it included, all meet their condition; whether
    * those before did, known as so far, does not matter any more.
    */
  predicate RightSinceEntry(ps: seq<Plan>, o: Op, es: seq<Event>, soFar: bool)
    requires Sized(ps, o)
    decreases |es|
  {
    if es == [] then soFar
    else RightSinceEntry(ps, Apply(ps, o, es[0]), es[1..], (soFar || EntersStep(ps, o, es[0])) && Right(ps, o, es[0]))
  }

  lemma {:induction false} RunCounts(ps: seq<Plan>, o: Op, l: Ledger, es: seq<Event>, soFar: bool)
    requires Tidy(ps, o) && (soFar ==> Counts(ps, o, l))
    ensures RightSinceEntry(ps, o, es, soFar) ==> Counts(ps, After(ps, o, es), BookedRun(ps, o, l, es))
    decreases |es|
  {
    hide Apply, Booked, Counts, Right, EntersStep, Accounted, AtRest;
    if es != [] {
      var e := es[0];
      if soFar || EntersStep(ps, o, e) { CallCountsExactly(ps, o, l, e); }
      CallKeepsTidy(ps, o, e);
      RunCounts(ps, Apply(ps, o, e), Booked(ps, o, l, e), es[1..], (soFar || EntersStep(ps, o, e)) && Right(ps, o, e));
    }
  }

  /**
    * After any run from construction whose calls since the present step was entered meet their condition, the time
    * reported for the main step of a running operation is the total RUN time since that step was entered: every pause
    * that came back to the step is left out, everything else is counted. Steps skipped before it change nothing.
    */
  lemma StepTimeIsPauseProof(ps: seq<Plan>, o: Op, es: seq<Event>, begin: int)
    requires Built(ps, o) && RightSinceEntry(ps, o, es, true)
    ensures var r := After(ps, o, es);
            var l := BookedRun(ps, o, Ledger(0, 0, begin), es);
            r.current == RUN && r.states[RUN].main >= 0 ==> MainTime(r.states[RUN], l.last) == l.inStep
  {
    RunCounts(ps, o, Ledger(0, 0, begin), es, true);
  }

  ghost predicate CountsThroughout(ps: seq<Plan>, o: Op, l: Ledger, es: seq<Event>)
    requires Sized(ps, o)
    decreases |es|
  {
    Counts(ps, o, l)
    && (es != [] ==> CountsThroughout(ps, Apply(ps, o, es[0]), Booked(ps, o, l, es[0]), es[1..]))
  }

  predicate AllRight(ps: seq<Plan>, o: Op, es: seq<Event>)
    requires Sized(ps, o)
    decreases |es|
  {
    es != [] ==> Right(ps, o, es[0]) && AllRight(ps, Apply(ps, o, es[0]), es[1..])
  }

  lemma {:induction false} AllRightExactly(ps: seq<Plan>, o: Op, l: Ledger, es: seq<Event>)
    requires Tidy(ps, o) && Counts(ps, o, l)
    ensures CountsThroughout(ps, o, l, es) <==> AllRight(ps, o, es)
    decreases |es|
  {
    hide Apply, Booked, Counts, Right, Accounted, AtRest;
    if es != [] {
      CallCountsExactly(ps, o, l, es[0]);
      CallKeepsTidy(ps, o, es[0]);
      if Right(ps, o, es[0]) { AllRightExactly(ps, Apply(ps, o, es[0]), Booked(ps, o, l, es[0]), es[1..]); }
    }
  }

  /**
    * After any run from construction, whatever it was, let a call enter a step: the time of the main step is right at
    * that moment and at every one of a run that follows if and only if that call and all of that run meet their
    * condition.
    */
  lemma StepTimeExactly(ps: seq<Plan>, o: Op, before: seq<Event>, e: Event, es: seq<Event>, begin: int)
    requires Built(ps, o) && EntersStep(ps, After(ps, o, before), e)
    ensures var q, l := After(ps, o, before), BookedRun(ps, o, Ledger(0, 0, begin), before);
            CountsThroughout(ps, Apply(ps, q, e), Booked(ps, q, l, e), es) <==>
            Right(ps, q, e) && AllRight(ps, Apply(ps, q, e), es)
  {
    hide Apply, Booked, Right, EntersStep;
    RunKeepsTidy(ps, o, before);
    hide Counts, Accounted, AtRest;
    var q, l := After(ps, o, before), BookedRun(ps, o, Ledger(0, 0, begin), before);
    CallCountsExactly(ps, q, l, e);
    CallKeepsTidy(ps, q, e);
    if Right(ps, q, e) { AllRightExactly(ps, Apply(ps, q, e), Booked(ps, q, l, e), es); }
  }
}

/**
  * Two runs from construction in which the main step reports a wrong time: both conditions on a call matter, that steps
  * which are entered begin and that no listing of the main step is ended.
  */
module OperationCounterexamples {
  import opened StepSpec
  import opened OperationSpec
  import opened OperationSafety
  import opened OperationTime
  import opened OperationStepTime

  const QUIET := Signals(i => 0, i => false, i => false, i => false, i => -1, i => true)

  const SILENT := World(k => QUIET, false)

  const UNSTARTED := Step(false, 0, 0)

  /** RUN has two steps, with a set time or without; the other states have nothing to do. */
  function Plans(timed: bool): (ps: seq<Plan>)
    ensures |ps| == STATES_MAX
  {
    seq(STATES_MAX, k => if k == RUN then Plan([timed, timed], [-1, -1], false) else Plan([], [], true))
  }

  function Fresh(): (o: Op)
    ensures |o.states| == STATES_MAX
  {
    Op(seq(STATES_MAX, k => Body(UNSTARTED, if k == RUN then [UNSTARTED, UNSTARTED] else [], -1, 0, -1, [], [], 0, 0)),
       IDLE, -1, 0)
  }

  lemma FreshIsBuilt(timed: bool)
    ensures Built(Plans(timed), Fresh())
  {
  }

  lemma RunOne(ps: seq<Plan>, o: Op, e: Event, l: Ledger)
    requires Sized(ps, o)
    ensures After(ps, o, [e]) == Apply(ps, o, e) && BookedRun(ps, o, l, [e]) == Booked(ps, o, l, e)
  {
    hide Apply, Booked;
    assert [e][1..] == [];
    assert After(ps, Apply(ps, o, e), []) == Apply(ps, o, e);
    assert BookedRun(ps, Apply(ps, o, e), Booked(ps, o, l, e), []) == Booked(ps, o, l, e);
  }

  /**
    * A step with a set time of zero is entered at five and reports five at once, from a clock that was never started.
    */
  lemma ZeroSetTimeMiscounts()
    ensures var ps, o := Plans(true), Fresh();
            && Built(ps, o)
            && var es := [Event(Starting(0), 5, SILENT)];
            && var r, l := After(ps, o, es), BookedRun(ps, o, Ledger(0, 0, 0), es);
            && r.current == RUN && r.states[RUN].main == 0
            && MainTime(r.states[RUN], l.last) == 5 && l.inStep == 0
  {
    FreshIsBuilt(true);
    RunOne(Plans(true), Fresh(), Event(Starting(0), 5, SILENT), Ledger(0, 0, 0));
  }

  // ---- a main step that is listed as an extra step as well ----------------------------------------------------------

  /** Without signals, set times and conditions evaluating the current state changes nothing. */
  lemma QuietWork(o: Op, now: int)
    requires Sized(Plans(false), o)
    ensures Work(Plans(false), o, now, SILENT) == o
  {
    var ps := Plans(false);
    var k := o.current;
    var b := o.states[k];
    UnlinkedDropsNothing(ps[k], b, 0, QUIET);
    UnlinkedRaisesNothing(ps[k], b, 0, now, QUIET);
    assert Evaluate(ps[k], b, now, QUIET) == b;
    assert Put(o, k, b) == o;
  }

  /** RUN with the second step as the main one, listed as an extra step as well. */
  function Listed(main: Step, first: Step, start: int): Body {
    Body(Step(true, start, 0), [first, main], 1, 0, -1, [2], [], start, 0)
  }

  const ENDED := Step(false, 0, 0)

  lemma Starts0()
    ensures var o := Start(Plans(false), Fresh(), 0, 0, SILENT);
            && o.current == RUN
            && o.states[RUN] == Body(Step(true, 0, 0), [Step(true, 0, 0), UNSTARTED], 0, 0, -1, [], [], 0, 0)
            && forall k :: 0 <= k < STATES_MAX && k != RUN ==> o.states[k].steps == [] && o.states[k].main == -1
  {
    FreshIsBuilt(false);
  }

  lemma ListsAndSteps(o: Op)
    requires Sized(Plans(false), o) && o.current == RUN
    requires o.states[RUN] == Body(Step(true, 0, 0), [Step(true, 0, 0), UNSTARTED], 0, 0, -1, [], [], 0, 0)
    ensures var ps := Plans(false);
            var o1 := Apply(ps, o, Event(AddingExtra(2), 0, SILENT));
            var o2 := Apply(ps, o1, Event(Stepping(2), 0, SILENT));
            && o1.current == RUN && o1.states[RUN].main == 0
                && o1.states[RUN].steps == [Step(true, 0, 0), Step(true, 0, 0)]
            && o2.current == RUN && o2.states[RUN] == Listed(Step(true, 0, 0), ENDED, 0)
  {
    var p, b := Plans(false)[RUN], o.states[RUN];
    var b1 := OnExtra(p, b, 2, 0, true);
    assert b1.extras == [2] && b1.steps == [Step(true, 0, 0), Step(true, 0, 0)];
    assert To(p, b1, 2, 0, QUIET).steps == [ENDED, Step(true, 0, 0)];
  }

  lemma PausesAtTen(o: Op)
    requires Sized(Plans(false), o) && o.current == RUN && o.states[RUN] == Listed(Step(true, 0, 0), ENDED, 0)
    ensures var r := Apply(Plans(false), o, Event(Call.Pausing, 10, SILENT));
            && r.current == PAUSE && r.runStep == 2
            && r.states[RUN] == Body(Step(false, 0, 0), [ENDED, ENDED], -1, 0, -1, [], [2], 10, 10)
  {
    hide Work;
    var ps := Plans(false);
    QuietWork(Enter(ps, Leave(ps, Remember(o, 10), RUN, 10), PAUSE, 1, 10, SILENT), 10);
  }

  lemma ResumesAtTen(o: Op)
    requires Sized(Plans(false), o) && o.current == PAUSE && o.runStep == 2
    requires o.states[RUN] == Body(Step(false, 0, 0), [ENDED, ENDED], -1, 0, -1, [], [2], 10, 10)
    ensures var r := Apply(Plans(false), o, Event(Starting(0), 10, SILENT));
            && r.current == RUN && r.states[RUN].main == 1 && r.states[RUN].extras == [2]
            && r.states[RUN].steps == [ENDED, Step(true, 10, 10)]
  {
    hide Work;
    var ps := Plans(false);
    QuietWork(Resumed(ps, Leave(ps, o, PAUSE, 10), 0, 10, SILENT), 10);
  }

  lemma RunOn(ps: seq<Plan>, o: Op, e: Event, es: seq<Event>, l: Ledger)
    requires Sized(ps, o)
    ensures After(ps, o, [e] + es) == After(ps, Apply(ps, o, e), es)
    ensures BookedRun(ps, o, l, [e] + es) == BookedRun(ps, Apply(ps, o, e), Booked(ps, o, l, e), es)
  {
    hide Apply, Booked;
    assert ([e] + es)[1..] == es;
  }

  /**
    * The second step is listed as an extra step, then entered as the main one, and runs for ten units. After a pause
    * and the return to it, ending the listing makes the main step report zero, and it has run for ten.
    */
  lemma ListedMainStepLosesTime() returns (es: seq<Event>)
    ensures var ps, o := Plans(false), Fresh();
            && Built(ps, o)
            && var r, l := After(ps, o, es), BookedRun(ps, o, Ledger(0, 0, 0), es);
            && r.current == RUN && r.states[RUN].main == 1
            && MainTime(r.states[RUN], l.last) == 0 && l.inStep == 10
  {
    hide Apply, MovesOn, After, BookedRun, Built, Valid, Start, Plans, Fresh, SameStep, BeforeWork;
    FreshIsBuilt(false);
    var ps, o0, l0 := Plans(false), Fresh(), Ledger(0, 0, 0);
    var e0, e1, e2 := Event(Starting(0), 0, SILENT), Event(AddingExtra(2), 0, SILENT), Event(Stepping(2), 0, SILENT);
    var e3, e4 := Event(Call.Pausing, 10, SILENT), Event(Starting(0), 10, SILENT);
    var e5 := Event(DroppingExtra(2), 10, SILENT);
    StartIsStart(ps, o0, e0);
    Starts0();
    var o1, l1 := Apply(ps, o0, e0), Booked(ps, o0, l0, e0);
    ListsAndSteps(o1);
    var o2, l2 := Apply(ps, o1, e1), Booked(ps, o1, l1, e1);
    var o3, l3 := Apply(ps, o2, e2), Booked(ps, o2, l2, e2);
    PausesAtTen(o3);
    var o4, l4 := Apply(ps, o3, e3), Booked(ps, o3, l3, e3);
    ResumesAtTen(o4);
    var o5, l5 := Apply(ps, o4, e4), Booked(ps, o4, l4, e4);
    DropsAtTen(o5);
    var o6, l6 := Apply(ps, o5, e5), Booked(ps, o5, l5, e5);
    assert l3 == Ledger(0, 0, 0) && l4 == Ledger(10, 10, 10);
    NothingFollows(o4, e4);
    assert l5 == l4 && l6 == l5;
    es := [e0] + ([e1] + ([e2] + ([e3] + ([e4] + [e5]))));
    RunOn(ps, o0, e0, [e1] + ([e2] + ([e3] + ([e4] + [e5]))), l0);
    RunOn(ps, o1, e1, [e2] + ([e3] + ([e4] + [e5])), l1);
    RunOn(ps, o2, e2, [e3] + ([e4] + [e5]), l2);
    RunOn(ps, o3, e3, [e4] + [e5], l3);
    RunOn(ps, o4, e4, [e5], l4);
    RunOne(ps, o5, e5, l5);
  }

  lemma StartIsStart(ps: seq<Plan>, o: Op, e: Event)
    requires Sized(ps, o) && e.call.Starting?
    ensures Apply(ps, o, e) == Start(ps, o, e.call.n, e.at, e.world)
  {
  }

  lemma DropsAtTen(o: Op)
    requires Sized(Plans(false), o) && o.current == RUN && o.states[RUN].main == 1 && o.states[RUN].extras == [2]
    requires o.states[RUN].steps == [ENDED, Step(true, 10, 10)]
    ensures var r := Apply(Plans(false), o, Event(DroppingExtra(2), 10, SILENT));
            r.current == RUN && r.states[RUN].main == 1 && MainTime(r.states[RUN], 10) == 0
  {
  }

  lemma NothingFollows(o: Op, e: Event)
    requires Sized(Plans(false), o) && o.current == PAUSE && o.runStep == 2 && e == Event(Starting(0), 10, SILENT)
    ensures !EntersStep(Plans(false), o, e)
  {
    var ps := Plans(false);
    var b := BeforeWork(ps, o, e).states[RUN];
    UnlinkedDropsNothing(ps[RUN], b, 0, QUIET);
    UnlinkedRaisesNothing(ps[RUN], b, 0, 10, QUIET);
  }
}

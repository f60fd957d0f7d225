/**
  * Exactly which operations can leave UNPAUSING active: leaving it for RUN does not finalize it, so those that have
  * something to do there, and no others.
  */
module OperationUnpausing {
  import opened StepSpec
  import opened OperationSpec
  import opened OperationSafety
  import opened OperationTime
  import opened OperationCounterexamples

  lemma WorkStays(ps: seq<Plan>, o: Op, now: int, w: World)
    requires Sized(ps, o) && !w.off
    ensures var r := Work(ps, o, now, w);
            r.current == o.current && r.states[o.current].mode == o.states[o.current].mode
  {
    hide Following, Numbers;
    DroppedFrame(ps[o.current], o.states[o.current], 0, w.of(o.current));
    RaisedFrame(ps[o.current], Dropped(ps[o.current], o.states[o.current], 0, w.of(o.current)),
        0, now, w.of(o.current));
  }

  /** Where a call leads, while the object does not switch the operation off. */
  lemma StartLeads(ps: seq<Plan>, o: Op, now: int, w: World)
    requires Sized(ps, o) && !w.off
    ensures var r := Apply(ps, o, Event(Starting(0), now, w));
            && (o.current == IDLE ==> r.current == if ps[STARTING].empty then RUN else STARTING)
            && (o.current == STARTING || o.current == UNPAUSING ==> r.current == RUN)
            && (o.current == PAUSE && !ps[UNPAUSING].empty ==>
                  r.current == UNPAUSING && r.states[UNPAUSING].mode.active)
  {
    hide Evaluate, Finalize, RunsOut, Valid, Resumed, Work;
    var o1 := if o.current == PAUSE then Leave(ps, o, PAUSE, now) else o;
    WorkStays(ps, Enter(ps, o1, UNPAUSING, 1, now, w), now, w);
    WorkStays(ps, Resumed(ps, o, 0, now, w), now, w);
    assert Resumed(ps, o, 0, now, w).current == RUN by { ResumesInRun(ps, o, now, w); }
  }

  lemma ResumesInRun(ps: seq<Plan>, o: Op, now: int, w: World)
    requires Sized(ps, o)
    ensures Resumed(ps, o, 0, now, w).current == RUN
  {
    hide Init, Valid;
  }

  lemma PauseLeads(ps: seq<Plan>, o: Op, now: int, w: World)
    requires Sized(ps, o) && !w.off
    ensures var r := Apply(ps, o, Event(Call.Pausing, now, w));
            && (o.current == RUN ==> r.current == if ps[PAUSING].empty then PAUSE else PAUSING)
            && (o.current == PAUSING ==> r.current == PAUSE)
  {
    hide Work, Init, Finalize, Numbers;
    if o.current == RUN {
      var k := if ps[PAUSING].empty then PAUSE else PAUSING;
      WorkStays(ps, Enter(ps, Leave(ps, Remember(o, now), RUN, now), k, 1, now, w), now, w);
    }
  }

  lemma {:induction false} OneMore(ps: seq<Plan>, o: Op, es: seq<Event>, e: Event)
    requires Sized(ps, o)
    ensures After(ps, o, es + [e]) == Apply(ps, After(ps, o, es), e)
    decreases |es|
  {
    hide Apply;
    if es == [] {
      assert [] + [e] == [e] && [e][1..] == [];
      assert After(ps, o, [e]) == After(ps, Apply(ps, o, e), []) == Apply(ps, o, e);
    } else {
      assert (es + [e])[1..] == es[1..] + [e];
      OneMore(ps, Apply(ps, o, es[0]), es[1..], e);
    }
  }

  /**
    * Every operation that has something to do in UNPAUSING can come to RUN with the operation step of UNPAUSING still
    * active: start it, pause it and start it again.
    */
  lemma UnpausingStaysActive(ps: seq<Plan>, o: Op) returns (es: seq<Event>)
    requires Built(ps, o) && !ps[UNPAUSING].empty
    ensures var r := After(ps, o, es); r.current == RUN && r.states[UNPAUSING].mode.active
  {
    hide Apply, Built, AtRest, Start;
    assert o.current == IDLE && Sized(ps, o) by { BuiltIsIdle(ps, o); }
    var start, pause := Event(Starting(0), 0, SILENT), Event(Call.Pausing, 0, SILENT);
    es := [];
    StartLeads(ps, o, 0, SILENT);
    OneMore(ps, o, es, start);
    es := es + [start];
    if !ps[STARTING].empty {
      StartLeads(ps, After(ps, o, es), 0, SILENT);
      OneMore(ps, o, es, start);
      es := es + [start];
    }
    PauseLeads(ps, After(ps, o, es), 0, SILENT);
    OneMore(ps, o, es, pause);
    es := es + [pause];
    if !ps[PAUSING].empty {
      PauseLeads(ps, After(ps, o, es), 0, SILENT);
      OneMore(ps, o, es, pause);
      es := es + [pause];
    }
    StartLeads(ps, After(ps, o, es), 0, SILENT);
    OneMore(ps, o, es, start);
    es := es + [start];
    var q := After(ps, o, es);
    StartLeads(ps, q, 0, SILENT);
    UnpausingIsLeftActive(ps, q, 0, 0, SILENT);
    StartIsStart(ps, q, start);
    OneMore(ps, o, es, start);
    es := es + [start];
  }

  lemma BuiltIsIdle(ps: seq<Plan>, o: Op)
    requires Built(ps, o)
    ensures o.current == IDLE && Sized(ps, o)
  {
  }

  /** UNPAUSING was not entered. */
  predicate Untouched(o: Op) {
    |o.states| == STATES_MAX && o.current != UNPAUSING && !o.states[UNPAUSING].mode.active
  }

  lemma WorkLeavesUntouched(ps: seq<Plan>, o: Op, now: int, w: World)
    requires Sized(ps, o) && Untouched(o)
    ensures Untouched(Work(ps, o, now, w))
  {
    hide Evaluate, RunsOut, Valid;
  }

  lemma MoveLeavesUntouched(ps: seq<Plan>, o: Op, k: nat, n: int, now: int, w: World)
    requires Sized(ps, o) && Untouched(o)
    ensures k < STATES_MAX ==> Untouched(Leave(ps, o, k, now))
    ensures Entered(k) && k != UNPAUSING ==> Untouched(Enter(ps, o, k, n, now, w))
    ensures Untouched(Remember(o, now)) && Untouched(Resumed(ps, o, n, now, w))
  {
    hide Init, Valid;
  }

  /** Leaving one state for another that is not UNPAUSING, and evaluating it. */
  lemma ChangeLeavesUntouched(ps: seq<Plan>, o: Op, k: nat, now: int, w: World)
    requires Sized(ps, o) && Untouched(o) && Entered(k) && k != UNPAUSING
    ensures var r := Enter(ps, Leave(ps, o, o.current, now), k, 1, now, w);
      Untouched(r) && Untouched(Work(ps, r, now, w))
  {
    hide Enter, Leave, Work;
    MoveLeavesUntouched(ps, o, o.current, 1, now, w);
    MoveLeavesUntouched(ps, Leave(ps, o, o.current, now), k, 1, now, w);
    WorkLeavesUntouched(ps, Enter(ps, Leave(ps, o, o.current, now), k, 1, now, w), now, w);
  }

  lemma StartLeavesUntouched(ps: seq<Plan>, o: Op, n: int, now: int, w: World)
    requires Sized(ps, o) && Untouched(o) && ps[UNPAUSING].empty
    ensures Untouched(Start(ps, o, n, now, w))
  {
    hide Enter, Leave, Work, Resumed, Valid;
    if o.current == PAUSE {
      var o1 := Leave(ps, o, PAUSE, now);
      MoveLeavesUntouched(ps, o, PAUSE, n, now, w);
      MoveLeavesUntouched(ps, o1, PAUSE, n, now, w);
      WorkLeavesUntouched(ps, Resumed(ps, o1, n, now, w), now, w);
    } else {
      ChangeLeavesUntouched(ps, o, if o.current == IDLE && !ps[STARTING].empty then STARTING else RUN, now, w);
    }
  }

  lemma PauseLeavesUntouched(ps: seq<Plan>, o: Op, now: int, w: World)
    requires Sized(ps, o) && Untouched(o)
    ensures Untouched(Pause(ps, o, now, w))
  {
    hide Enter, Leave, Work, Remember, Valid;
    if o.current == RUN {
      MoveLeavesUntouched(ps, o, RUN, 1, now, w);
      RememberKeeps(ps, o, now);
      ChangeLeavesUntouched(ps, Remember(o, now), if ps[PAUSING].empty then PAUSE else PAUSING, now, w);
    } else {
      ChangeLeavesUntouched(ps, o, PAUSE, now, w);
    }
  }

  lemma RememberKeeps(ps: seq<Plan>, o: Op, now: int)
    requires Sized(ps, o)
    ensures Sized(ps, Remember(o, now)) && Remember(o, now).current == o.current
  {
  }

  lemma CallLeavesUntouched(ps: seq<Plan>, o: Op, e: Event)
    requires Sized(ps, o) && ps[UNPAUSING].empty && Untouched(o)
    ensures Untouched(Apply(ps, o, e))
  {
    hide Work, Start, Pause, Close, Enter, Leave, Valid, OnCurrent;
    var now, w := e.at, e.world;
    match e.call {
      case Starting(n) => StartLeavesUntouched(ps, o, n, now, w);
      case Pausing => PauseLeavesUntouched(ps, o, now, w);
      case Closing => CloseLeavesUntouched(ps, o, now);
      case Working => WorkLeavesUntouched(ps, o, now, w);
      case Stopping =>
        ChangeLeavesUntouched(ps, o, if o.current == STOPPING || ps[STOPPING].empty then STOP else STOPPING, now, w);
      case SwitchingOff => ChangeLeavesUntouched(ps, o, IDLE, now, w);
      case _ =>
    }
  }

  lemma CloseLeavesUntouched(ps: seq<Plan>, o: Op, now: int)
    requires Sized(ps, o) && Untouched(o)
    ensures Untouched(Close(ps, o, now))
  {
  }

  lemma {:induction false} RunLeavesUntouched(ps: seq<Plan>, o: Op, es: seq<Event>)
    requires Sized(ps, o) && ps[UNPAUSING].empty && Untouched(o)
    ensures Untouched(After(ps, o, es))
    decreases |es|
  {
    hide Apply, Untouched;
    if es != [] {
      CallLeavesUntouched(ps, o, es[0]);
      RunLeavesUntouched(ps, Apply(ps, o, es[0]), es[1..]);
    }
  }

  /** Does any run leave the operation step of UNPAUSING active in another state? */
  ghost predicate LeavesUnpausing(ps: seq<Plan>, o: Op)
    requires Sized(ps, o)
  {
    exists es: seq<Event> ::
      After(ps, o, es).current != UNPAUSING && After(ps, o, es).states[UNPAUSING].mode.active
  }

  lemma UnpausingIsLeftExactly(ps: seq<Plan>, o: Op)
    requires Built(ps, o)
    ensures LeavesUnpausing(ps, o) <==> !ps[UNPAUSING].empty
  {
    hide Apply;
    if ps[UNPAUSING].empty {
      forall es: seq<Event> ensures Untouched(After(ps, o, es)) { RunLeavesUntouched(ps, o, es); }
    } else {
      var es := UnpausingStaysActive(ps, o);
      assert After(ps, o, es).current != UNPAUSING;
    }
  }
}

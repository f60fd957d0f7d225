/**
  * The operation object (PAC/common/operation_mngr.cpp, class operation) over its fifteen state objects: each method
  * changes the states it names, in place, and is proved to bring about exactly the value that OperationSpec defines.
  */
module Operation {
  import opened StepSpec
  import opened OperationSpec
  import opened OperationState
  import opened OperationSafety

  class Operation {
    const states: seq<State>
    var currentState: nat
    var runStep: int
    var runTime: int

    ghost function Plans(): (ps: seq<Plan>)
      ensures |ps| == |states|
    {
      seq(|states|, k requires 0 <= k < |states| => states[k].plan)
    }

    ghost function View(): (o: Op)
      reads this, states
      ensures |o.states| == |states|
    {
      Op(seq(|states|, k requires 0 <= k < |states| reads this, states => states[k].View()),
          currentState, runStep, runTime)
    }

    ghost predicate Ok()
      reads this, states
    {
      && |states| == STATES_MAX && Entered(currentState)
      && (forall j, k :: 0 <= j < k < STATES_MAX ==> states[j] != states[k])
      && forall k :: 0 <= k < STATES_MAX ==> states[k].Ok()
    }

    lemma OkIsSized()
      requires Ok()
      ensures Sized(Plans(), View())
    {
    }

    constructor (plans: seq<Plan>, now: int)
      requires |plans| == STATES_MAX && forall k :: 0 <= k < STATES_MAX ==> |plans[k].timed| == |plans[k].next|
      ensures Ok() && Plans() == plans && Built(plans, View())
      ensures fresh(states)
    {
      var built: seq<State> := [];
      var k := 0;
      while k < STATES_MAX
        invariant 0 <= k <= STATES_MAX && |built| == k && fresh(built)
        invariant forall i, j :: 0 <= i < j < k ==> built[i] != built[j]
        invariant forall i :: 0 <= i < k ==>
                    && built[i].Ok() && built[i].plan == plans[i] && AtRest(built[i].View())
                    && built[i].dxStepTime == 0 && built[i].savedActiveSteps == []
      {
        var state := new State(plans[k], now);
        built := built + [state];
        k := k + 1;
      }
      states := built;
      currentState, runStep, runTime := IDLE, -1, 0;
    }

    method FinalizeState(k: nat, now: int)
      requires Ok() && k < STATES_MAX
      modifies states
      ensures Ok() && Sized(Plans(), old(View())) && View() == Leave(Plans(), old(View()), k, now)
    {
      OkIsSized();
      states[k].Finalize(now);
    }

    method EnterState(k: nat, n: int, now: int, w: World)
      requires Ok() && Entered(k)
      modifies this, states
      ensures Ok() && Sized(Plans(), old(View())) && View() == Enter(Plans(), old(View()), k, n, now, w)
    {
      hide Init, Valid;
      OkIsSized();
      currentState := k;
      states[k].Init(n, now, w.of(k));
    }

    method Finalize(now: int)
      requires Ok()
      modifies this, states
      ensures Ok() && Sized(Plans(), old(View())) && View() == Close(Plans(), old(View()), now)
    {
      OkIsSized();
      if currentState > 0 {
        FinalizeState(currentState, now);
        ghost var left := View();
        var idx := 0;
        while idx < STATES_MAX
          invariant 0 <= idx <= STATES_MAX && Ok()
          invariant currentState == left.current && runStep == left.runStep && runTime == left.runTime
          invariant forall k :: 0 <= k < STATES_MAX ==>
                      states[k].View() == if k < idx then left.states[k].(dx := 0) else left.states[k]
        {
          states[idx].ResetEvalTime();
          idx := idx + 1;
        }
        currentState := IDLE;
        assert View().states == WithoutDx(left.states);
      }
    }

    /** Evaluates the current state; off says whether the object agrees to switch an expired operation off. */
    method EvaluateState(now: int, w: World)
      requires Ok()
      modifies this, states
      ensures Ok() && Sized(Plans(), old(View())) && View() == Work(Plans(), old(View()), now, w)
    {
      hide StepSpec.Evaluate, Close, RunsOut, Valid, Signalled;
      OkIsSized();
      ghost var o := View();
      var expired := states[currentState].Evaluate(now, w.of(currentState));
      assert View() ==
          Put(o, o.current, StepSpec.Evaluate(Plans()[o.current], o.states[o.current], now, w.of(o.current)));
      if expired && w.off {
        Finalize(now);
      }
    }

    method RememberRun(now: int)
      requires Ok()
      modifies this, states
      ensures Ok() && Sized(Plans(), old(View())) && View() == Remember(old(View()), now)
    {
      OkIsSized();
      runTime := runTime + now - states[RUN].startTime;
      runStep := states[RUN].activeStepN + 1;
      states[RUN].Save();
    }

    method Pause(now: int, w: World)
      requires Ok()
      modifies this, states
      ensures Ok() && Sized(Plans(), old(View())) && View() == OperationSpec.Pause(Plans(), old(View()), now, w)
    {
      hide Leave, Enter, Work, Valid, Remember;
      OkIsSized();
      if currentState == RUN {
        RememberRun(now);
        FinalizeState(RUN, now);
        EnterState(if states[PAUSING].plan.empty then PAUSE else PAUSING, 1, now, w);
        EvaluateState(now, w);
      } else if currentState == PAUSING {
        FinalizeState(PAUSING, now);
        EnterState(PAUSE, 1, now, w);
      }
    }

    method Stop(now: int, w: World)
      requires Ok()
      modifies this, states
      ensures Ok() && Sized(Plans(), old(View())) && View() == OperationSpec.Stop(Plans(), old(View()), now, w)
    {
      hide Leave, Enter, Work, Valid;
      OkIsSized();
      if currentState == STOPPING {
        FinalizeState(currentState, now);
        EnterState(STOP, 1, now, w);
        EvaluateState(now, w);
      } else if currentState != IDLE && currentState != STOP {
        FinalizeState(currentState, now);
        EnterState(if states[STOPPING].plan.empty then STOP else STOPPING, 1, now, w);
        EvaluateState(now, w);
      }
    }

    method SwitchOff(now: int, w: World)
      requires Ok()
      modifies this, states
      ensures Ok() && Sized(Plans(), old(View())) && View() == OperationSpec.SwitchOff(Plans(), old(View()), now, w)
    {
      hide Leave, Enter, Work, Valid;
      OkIsSized();
      if currentState != IDLE {
        FinalizeState(currentState, now);
        EnterState(IDLE, 1, now, w);
        EvaluateState(now, w);
      }
    }

    /** Loads the extra steps and enters the asked-for step, or the one of before the pause, or the first. */
    method ResumeRun(newRunStep: int, now: int, w: World)
      requires Ok()
      modifies this, states
      ensures Ok() && Sized(Plans(), old(View())) && View() == Resumed(Plans(), old(View()), newRunStep, now, w)
    {
      hide Init, Numbers;
      OkIsSized();
      LoadRun();
      ghost var loaded := View();
      if newRunStep > 0 {
        EnterState(RUN, newRunStep, now, w);
        if newRunStep == runStep {
          AddDx();
        }
      } else if runStep > 0 {
        EnterState(RUN, runStep, now, w);
        AddDx();
      } else {
        EnterState(RUN, 1, now, w);
      }
    }

    method ToRunState(newRunStep: int, now: int, w: World)
      requires Ok()
      modifies this, states
      ensures Ok() && Sized(Plans(), old(View())) && View() == ToRun(Plans(), old(View()), newRunStep, now, w)
    {
      hide Resumed, Work, Valid;
      OkIsSized();
      ResumeRun(newRunStep, now, w);
      EvaluateState(now, w);
    }

    method LoadRun()
      requires Ok()
      modifies states
      ensures Ok() && Sized(Plans(), old(View()))
      ensures var o := old(View()); View() == Put(o, RUN, o.states[RUN].(extras := o.states[RUN].saved))
    {
      OkIsSized();
      states[RUN].Load();
    }

    method AddDx()
      requires Ok()
      modifies states
      ensures Ok() && Sized(Plans(), old(View()))
      ensures var o := old(View());
              var b := o.states[RUN];
              View() ==
                  if b.main >= 0 then Put(o, RUN, b.(steps := b.steps[b.main := b.steps[b.main].(dx := b.dx)])) else o
    {
      OkIsSized();
      states[RUN].AddDxStepTime();
    }

    method Start(newRunStep: int, now: int, w: World)
      requires Ok()
      modifies this, states
      ensures Ok() && Sized(Plans(), old(View()))
      ensures View() == OperationSpec.Start(Plans(), old(View()), newRunStep, now, w)
    {
      hide Leave, Enter, Work, ToRun, Valid;
      OkIsSized();
      if currentState == IDLE {
        FinalizeState(IDLE, now);
        EnterState(if states[STARTING].plan.empty then RUN else STARTING, 1, now, w);
        runTime := 0;
      } else if currentState == PAUSE {
        FinalizeState(PAUSE, now);
        if states[UNPAUSING].plan.empty {
          ToRunState(newRunStep, now, w);
        } else {
          EnterState(UNPAUSING, 1, now, w);
          EvaluateState(now, w);
        }
      } else if currentState == STARTING {
        FinalizeState(STARTING, now);
        EnterState(RUN, 1, now, w);
        runTime := 0;
      } else if currentState == UNPAUSING {
        ToRunState(newRunStep, now, w);
      }
    }

    /** One cycle: the current state is evaluated, then its jump conditions may pause, stop or start the operation. */
    method Evaluate(now: int, w: World, wish: Wish)
      requires Ok()
      modifies this, states
      ensures Ok() && Sized(Plans(), old(View()))
      ensures View() == Follow(Plans(), Work(Plans(), old(View()), now, w), now, w, wish)
    {
      hide Work, OperationSpec.Start, OperationSpec.Stop, OperationSpec.Pause, Valid;
      OkIsSized();
      EvaluateState(now, w);
      if wish.fires && wish.granted {
        if currentState == IDLE {
          Start(runStep, now, w);
        } else if currentState == STOPPING {
          Stop(now, w);
        } else if currentState == STOP || currentState == PAUSE {
        } else if wish.target == STOP {
          Stop(now, w);
        } else if wish.target == PAUSE {
          if currentState == RUN || currentState == PAUSING {
            Pause(now, w);
          }
        } else if wish.target == RUN && currentState != RUN && currentState != PAUSING {
          Start(wish.runStep, now, w);
        }
      }
    }

    /** The time the operation has spent in RUN, as it is reported. */
    method EvaluationTime(now: int) returns (t: int)
      requires Ok()
      ensures t == OperationSpec.EvaluationTime(View(), now)
    {
      if currentState == RUN {
        return runTime + (now - states[RUN].startTime);
      }
      t := runTime;
    }

    method ToStep(n: int, now: int, w: World)
      requires Ok()
      modifies states
      ensures Ok() && Sized(Plans(), old(View()))
      ensures View() == Apply(Plans(), old(View()), Event(Stepping(n), now, w))
    {
      hide To, OnExtra, OffExtra, Valid;
      OkIsSized();
      states[currentState].ToStep(n, now, w.of(currentState));
    }

    method OnExtraStep(n: StepNumber, now: int, w: World)
      requires Ok()
      modifies states
      ensures Ok() && Sized(Plans(), old(View()))
      ensures View() == Apply(Plans(), old(View()), Event(AddingExtra(n), now, w))
    {
      hide To, OnExtra, OffExtra, Valid;
      OkIsSized();
      var _ := states[currentState].OnExtraStep(n, now, w.of(currentState));
    }

    method OffExtraStep(n: int, now: int, w: World)
      requires Ok()
      modifies states
      ensures Ok() && Sized(Plans(), old(View()))
      ensures View() == Apply(Plans(), old(View()), Event(DroppingExtra(n), now, w))
    {
      hide To, OnExtra, OffExtra, Valid;
      OkIsSized();
      states[currentState].OffExtraStep(n);
    }

    method SwitchActiveExtraStep(off: int, on: StepNumber, now: int, w: World)
      requires Ok()
      modifies states
      ensures Ok() && Sized(Plans(), old(View()))
      ensures View() == Apply(Plans(), old(View()), Event(SwappingExtra(off, on), now, w))
    {
      hide SwitchExtra, Valid;
      OkIsSized();
      var _ := states[currentState].SwitchActiveExtraStep(off, on, now);
    }

    method ToNextStep(now: int, w: World)
      requires Ok()
      modifies states
      ensures Ok() && Sized(Plans(), old(View()))
      ensures View() == Apply(Plans(), old(View()), Event(SteppingOn, now, w))
    {
      hide ToNext, Valid;
      OkIsSized();
      states[currentState].ToNextStep(now, w.of(currentState));
    }

    method TurnOffActiveStep(now: int, w: World)
      requires Ok()
      modifies states
      ensures Ok() && Sized(Plans(), old(View()))
      ensures View() == Apply(Plans(), old(View()), Event(TurningOff, now, w))
    {
      hide TurnOff, Valid;
      OkIsSized();
      states[currentState].TurnOffActiveStep();
    }
  }
}

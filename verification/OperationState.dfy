/**
  * The state object itself (PAC/common/operation_mngr.cpp, class operation_state): its fields are updated in place by
  * the methods below, and each method is proved to bring about exactly the value that StepSpec defines.
  */
module OperationState {
  import opened StepSpec

  class State {
    const plan: Plan
    var modeStep: Step
    var steps: seq<Step>
    var activeStepN: int
    var activeStepTime: int
    var activeStepNextStepN: int
    var activeSteps: seq<int>
    var savedActiveSteps: seq<int>
    var startTime: int
    var dxStepTime: int

    ghost function View(): Body
      reads this
    {
      Body(modeStep, steps, activeStepN, activeStepTime, activeStepNextStepN, activeSteps, savedActiveSteps, startTime,
           dxStepTime)
    }

    ghost predicate Ok()
      reads this
    {
      Valid(plan, View())
    }

    constructor (plan: Plan, now: int)
      requires |plan.timed| == |plan.next|
      ensures Ok() && this.plan == plan
      ensures View() == Body(Step(false, 0, 0), seq(|plan.timed|, i => Step(false, 0, 0)), -1, 0, -1, [], [], now, 0)
    {
      this.plan := plan;
      modeStep := Step(false, 0, 0);
      steps := seq(|plan.timed|, i => Step(false, 0, 0));
      activeStepN, activeStepTime, activeStepNextStepN := -1, 0, -1;
      activeSteps, savedActiveSteps := [], [];
      startTime, dxStepTime := now, 0;
    }

    method ToStep(newStep: int, now: int, sig: Signals)
      requires Ok()
      modifies this
      ensures Ok() && View() == To(plan, old(View()), newStep, now, sig)
    {
      if newStep > |steps| || newStep <= 0 {
        return;
      }
      activeStepTime, activeStepNextStepN := 0, -1;
      if activeStepN >= 0 {
        steps := steps[activeStepN := Ended(steps[activeStepN])];
      }
      activeStepN := newStep - 1;
      activeStepNextStepN := plan.next[activeStepN];
      if plan.timed[activeStepN] {
        activeStepTime := sig.duration(activeStepN);
      }
      if activeStepTime > 0 || !plan.timed[activeStepN] {
        steps := steps[activeStepN := Begun(steps[activeStepN], now)];
      }
    }

    method ToNextStep(now: int, sig: Signals)
      requires Ok()
      modifies this
      ensures Ok() && View() == ToNext(plan, old(View()), now, sig)
    {
      if activeStepN >= 0 {
        if plan.next[activeStepN] == -1 {
          ToStep(activeStepN + 1 + 1, now, sig);
        } else {
          ToStep(plan.next[activeStepN], now, sig);
        }
      }
    }

    method TurnOffActiveStep()
      requires Ok()
      modifies this
      ensures Ok() && View() == TurnOff(old(View()))
    {
      if activeStepN >= 0 {
        steps := steps[activeStepN := Ended(steps[activeStepN])];
        activeStepN := -1;
      }
    }

    /** Starts every listed extra step, in list order. */
    method BeginExtras(now: int)
      requires Ok()
      modifies `steps
      ensures steps == BegunAll(old(steps), activeSteps, now)
    {
      var idx := 0;
      while idx < |activeSteps|
        invariant idx <= |activeSteps|
        invariant steps == BegunAll(old(steps), activeSteps[..idx], now)
      {
        var n := activeSteps[idx];
        assert activeSteps[..idx + 1] == activeSteps[..idx] + [n];
        steps := steps[n - 1 := Begun(steps[n - 1], now)];
        idx := idx + 1;
      }
      assert activeSteps[..idx] == activeSteps;
    }

    /** Finalizes every listed extra step, in list order. */
    method EndExtras()
      requires Ok()
      modifies `steps
      ensures steps == EndedAll(old(steps), activeSteps)
    {
      var idx := 0;
      while idx < |activeSteps|
        invariant idx <= |activeSteps|
        invariant steps == EndedAll(old(steps), activeSteps[..idx])
      {
        var n := activeSteps[idx];
        assert activeSteps[..idx + 1] == activeSteps[..idx] + [n];
        steps := steps[n - 1 := Ended(steps[n - 1])];
        idx := idx + 1;
      }
      assert activeSteps[..idx] == activeSteps;
    }

    method Init(startStep: int, now: int, sig: Signals)
      requires Ok()
      modifies this
      ensures Ok() && View() == StepSpec.Init(plan, old(View()), startStep, now, sig)
    {
      modeStep := Begun(modeStep, now);
      startTime := now;
      activeStepN := -1;
      if |steps| == 0 {
        return;
      }
      ToStep(startStep, now, sig);
      BeginExtras(now);
    }

    method Finalize(now: int)
      requires Ok()
      modifies this
      ensures Ok() && View() == StepSpec.Finalize(old(View()), now)
    {
      modeStep := Ended(modeStep);
      startTime := now;
      if activeStepN >= 0 {
        dxStepTime := StepTime(steps[activeStepN], now);
      }
      if activeStepN >= 0 {
        steps := steps[activeStepN := Ended(steps[activeStepN])];
        activeStepN := -1;
      }
      EndExtras();
      activeSteps := [];
    }

    method OnExtraStep(n: StepNumber, now: int, sig: Signals) returns (res: int)
      requires Ok()
      modifies this
      ensures Ok() && View() == OnExtra(plan, old(View()), n, now, sig.passes(n - 1))
    {
      if n > |steps| || n < 0 {
        return 1;
      }
      if 1 + activeStepN == n {
        return 0;
      }
      if n !in activeSteps {
        activeSteps := activeSteps + [n];
        if !sig.passes(n - 1) {
          return 1;
        }
        steps := steps[n - 1 := Begun(steps[n - 1], now)];
      }
      res := 0;
    }

    method OffExtraStep(n: int)
      requires Ok()
      modifies `steps, `activeSteps
      ensures Ok() && View() == OffExtra(plan, old(View()), n)
    {
      var k := Find(activeSteps, n);
      if k < |activeSteps| {
        WithoutNumbers(activeSteps, n, |steps|);
        steps := steps[n - 1 := Ended(steps[n - 1])];
        activeSteps := activeSteps[..k] + activeSteps[k + 1..];
      }
    }

    method SwitchActiveExtraStep(off: int, on: StepNumber, now: int) returns (res: int)
      requires Ok()
      modifies this
      ensures Ok() && View() == SwitchExtra(plan, old(View()), off, on, now)
    {
      if on > |steps| || on < 0 {
        return 1;
      }
      if 1 + activeStepN == on {
        return 0;
      }
      var k := Find(activeSteps, off);
      if k < |activeSteps| {
        steps := steps[off - 1 := Ended(steps[off - 1])];
        steps := steps[on - 1 := Begun(steps[on - 1], now)];
        activeSteps := activeSteps[k := on];
      }
      res := 0;
    }

    method Save()
      requires Ok()
      modifies this
      ensures Ok() && View() == old(View()).(saved := old(View()).extras)
    {
      savedActiveSteps := activeSteps;
    }

    method Load()
      requires Ok()
      modifies this
      ensures Ok() && View() == old(View()).(extras := old(View()).saved)
    {
      activeSteps := savedActiveSteps;
    }

    method AddDxStepTime()
      requires Ok()
      modifies this
      ensures Ok()
      ensures var b := old(View());
              View() == if b.main >= 0 then b.(steps := b.steps[b.main := b.steps[b.main].(dx := b.dx)]) else b
    {
      if activeStepN >= 0 {
        steps := steps[activeStepN := steps[activeStepN].(dx := dxStepTime)];
      }
    }

    method ResetEvalTime()
      requires Ok()
      modifies this
      ensures Ok() && View() == old(View()).(dx := 0)
    {
      dxStepTime := 0;
    }

    /** Drops one extra step if its signals went away. */
    method DropExtra(m: int, sig: Signals)
      requires Ok() && m + 1 in activeSteps
      modifies `steps, `activeSteps
      ensures Ok() && |activeSteps| <= |old(activeSteps)|
      ensures View() == if sig.linked(m) && !sig.raised(m) && sig.drop(m) then OffExtra(plan, old(View()), m + 1)
        else old(View())
    {
      if sig.linked(m) && !sig.raised(m) && sig.drop(m) {
        OffExtraShrinks(plan, View(), m + 1);
        OffExtraStep(m + 1);
      }
    }

    /** Extra steps whose signals went away are dropped. */
    method DropExtras(sig: Signals)
      requires Ok()
      modifies `steps, `activeSteps
      ensures Ok() && View() == Dropped(plan, old(View()), 0, sig)
    {
      hide OffExtra, Numbers;
      var idx := 0;
      while idx < |activeSteps|
        invariant Ok()
        invariant Dropped(plan, View(), idx, sig) == Dropped(plan, old(View()), 0, sig)
        decreases |activeSteps| - idx
      {
        DropExtra(activeSteps[idx] - 1, sig);
        idx := idx + 1;
      }
    }

    /** Steps whose signals are present become extra steps. */
    method RaiseExtras(now: int, sig: Signals)
      requires Ok()
      modifies this
      ensures Ok() && View() == Raised(plan, old(View()), 0, now, sig)
    {
      var idx := 0;
      while idx < |steps|
        invariant Ok() && idx <= |steps|
        invariant Raised(plan, View(), idx, now, sig) == Raised(plan, old(View()), 0, now, sig)
        decreases |plan.timed| - idx
      {
        if idx + 1 !in activeSteps && sig.linked(idx) && sig.raised(idx) {
          var _ := OnExtraStep(idx + 1, now, sig);
        }
        idx := idx + 1;
      }
    }

    /** The result says that the last step has run out, so that the operation has to be switched off. */
    method Evaluate(now: int, sig: Signals) returns (expired: bool)
      requires Ok()
      modifies this
      ensures Ok() && View() == StepSpec.Evaluate(plan, old(View()), now, sig)
      ensures expired == RunsOut(plan, Signalled(plan, old(View()), now, sig), now, sig)
    {
      hide Dropped, Raised, Numbers;
      DropExtras(sig);
      RaiseExtras(now, sig);
      expired := false;
      if activeStepN < 0 {
        return;
      }
      if plan.timed[activeStepN] {
        activeStepTime := sig.duration(activeStepN);
        if activeStepTime == 0 || StepTime(steps[activeStepN], now) > activeStepTime {
          if activeStepNextStepN == -1 {
            expired := true;
          } else {
            ToStep(activeStepNextStepN, now, sig);
          }
          return;
        }
      }
      var next := sig.jump(activeStepN);
      if next >= 0 {
        ToStep(next, now, sig);
      }
    }
  }

  lemma OffExtraShrinks(p: Plan, b: Body, n: int)
    requires Valid(p, b) && n in b.extras
    ensures |OffExtra(p, b, n).extras| + 1 == |b.extras|
  {
  }
}

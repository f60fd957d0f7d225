/**
  * Where every call leads, which step it enters, and what the calls and signals about extra steps do to the list, told
  * without the functions that do it.
  */
module OperationTransitions {
  import opened StepSpec
  import opened OperationSpec
  import opened OperationSafety
  import opened OperationTime
  import opened OperationUnpausing

  // ---- states ------------------------------------------------------------------------------------------------------

  /** The state after a call: a state with nothing to do on the way is passed over. */
  function LeadsTo(ps: seq<Plan>, current: int, c: Call): int
    requires |ps| == STATES_MAX
  {
    match c
    case Pausing =>
      if current == RUN then if ps[PAUSING].empty then PAUSE else PAUSING
      else if current == PAUSING then PAUSE
      else current
    case Stopping =>
      if current == IDLE || current == STOP then current
      else if current == STOPPING || ps[STOPPING].empty then STOP
      else STOPPING
    case SwitchingOff => IDLE
    case Starting(_) =>
      if current == IDLE then if ps[STARTING].empty then RUN else STARTING
      else if current == PAUSE then if ps[UNPAUSING].empty then RUN else UNPAUSING
      else if current == STARTING || current == UNPAUSING then RUN
      else current
    case Closing => IDLE
    case _ => current
  }

  lemma ChangeLeads(ps: seq<Plan>, o: Op, k: nat, now: int, w: World)
    requires Sized(ps, o) && Entered(k)
    ensures var q := Enter(ps, Leave(ps, o, o.current, now), k, 1, now, w);
            q.current == k && Work(ps, q, now, w).current == if MustClose(ps, q, now, w) then IDLE else k
  {
    hide Evaluate, Init, Finalize, RunsOut, Valid, MustClose;
  }

  lemma ResumeLeads(ps: seq<Plan>, o: Op, n: int, now: int, w: World)
    requires Sized(ps, o)
    ensures var q := Resumed(ps, o, n, now, w);
            q.current == RUN && Work(ps, q, now, w).current == if MustClose(ps, q, now, w) then IDLE else RUN
  {
    hide Evaluate, Init, Finalize, RunsOut, Valid, MustClose;
  }

  /** Every call leads where the table says, or to IDLE when the object agrees to switch an expired operation off. */
  lemma CallLeads(ps: seq<Plan>, o: Op, e: Event)
    requires Sized(ps, o)
    ensures var r := Apply(ps, o, e);
            && (r.current == LeadsTo(ps, o.current, e.call) || (e.world.off && r.current == IDLE))
  {
    hide Enter, Leave, Work, Resumed, Close, Remember, OnCurrent, Valid, MustClose;
    var now, w := e.at, e.world;
    match e.call {
      case Starting(n) =>
        if o.current == PAUSE || o.current == UNPAUSING {
          ResumeLeads(ps, if o.current == PAUSE then Leave(ps, o, PAUSE, now) else o, n, now, w);
          ChangeLeads(ps, o, UNPAUSING, now, w);
          CloseNeedsConsent(ps, w);
        } else {
          ChangeLeads(ps, o, if o.current == IDLE && !ps[STARTING].empty then STARTING else RUN, now, w);
        }
      case Pausing =>
        CloseNeedsConsent(ps, w);
        RememberIsSized(ps, o, now);
        if o.current == RUN { ChangeLeads(ps, Remember(o, now), if ps[PAUSING].empty then PAUSE else PAUSING, now, w); }
        else { ChangeLeads(ps, o, PAUSE, now, w); }
      case Stopping =>
        CloseNeedsConsent(ps, w);
        ChangeLeads(ps, o, if o.current == STOPPING || ps[STOPPING].empty then STOP else STOPPING, now, w);
      case SwitchingOff =>
        ChangeLeads(ps, o, IDLE, now, w);
      case Closing => CloseLeads(ps, o, now);
      case Working => WorkLeads(ps, o, now, w);
      case _ =>
    }
  }

  lemma CloseNeedsConsent(ps: seq<Plan>, w: World)
    ensures forall o: Op, now :: Sized(ps, o) && MustClose(ps, o, now, w) ==> w.off
  {
  }

  lemma RememberIsSized(ps: seq<Plan>, o: Op, now: int)
    requires Sized(ps, o)
    ensures Sized(ps, Remember(o, now)) && Remember(o, now).current == o.current
  {
  }

  lemma CloseLeads(ps: seq<Plan>, o: Op, now: int)
    requires Sized(ps, o)
    ensures Close(ps, o, now).current == IDLE
    ensures o.current != IDLE ==> forall k :: 0 <= k < STATES_MAX ==> Close(ps, o, now).states[k].dx == 0
  {
  }

  lemma WorkLeads(ps: seq<Plan>, o: Op, now: int, w: World)
    requires Sized(ps, o)
    ensures Work(ps, o, now, w).current == o.current || (w.off && Work(ps, o, now, w).current == IDLE)
  {
    hide Evaluate, RunsOut, Valid;
  }

  // ---- coming back to a step ---------------------------------------------------------------------------------------

  /**
    * Pause a running operation, make any calls while it is paused, and start it again: RUN is entered with the step
    * that was interrupted, or with the one that is asked for, or else with the first.
    */
  lemma StepComesBack(ps: seq<Plan>, o: Op, pause: Event, es: seq<Event>, n: int, now: int, w: World)
    requires Tidy(ps, o) && o.current == RUN && pause.call == Call.Pausing
    requires StaysPaused(ps, Apply(ps, o, pause), es)
    requires var q := After(ps, Apply(ps, o, pause), es); ReturnsToRun(ps, q)
    ensures var q := After(ps, Apply(ps, o, pause), es);
            var b, run := Reentered(ps, q, n, now, w).states[RUN], o.states[RUN];
            var wanted := if n > 0 then n - 1 else if run.main >= 0 then run.main else 0;
            && Start(ps, q, n, now, w) == Work(ps, Reentered(ps, q, n, now, w), now, w)
            && b.main == if wanted < |run.steps| then wanted else -1
  {
    hide Apply, Accounted, AtRest, Work, Start, Reentered;
    var o1 := Apply(ps, o, pause);
    PauseRemembers(ps, o, pause);
    PauseKeepsRun(ps, o1, es);
    var q := After(ps, o1, es);
    StartComesBack(ps, q, n, now, w);
    ReentersTarget(ps, q, n, now, w);
  }

  lemma PauseRemembers(ps: seq<Plan>, o: Op, e: Event)
    requires Sized(ps, o) && o.current == RUN && e.call == Call.Pausing && Paused(Apply(ps, o, e))
    ensures Apply(ps, o, e).runStep == o.states[RUN].main + 1
    ensures |Apply(ps, o, e).states[RUN].steps| == |o.states[RUN].steps|
  {
    hide Evaluate, Init, RunsOut, Valid;
  }

  lemma ReentersTarget(ps: seq<Plan>, o: Op, n: int, now: int, w: World)
    requires Sized(ps, o)
    ensures var run := o.states[RUN];
            var wanted := if n > 0 then n else if o.runStep > 0 then o.runStep else 1;
            Reentered(ps, o, n, now, w).states[RUN].main == if wanted <= |run.steps| then wanted - 1 else -1
  {
    hide Finalize, Numbers;
  }

  // ---- extra steps -------------------------------------------------------------------------------------------------

  /** An extra step is listed last, once, never while it is the main step, and begins if it passes its check. */
  lemma AddingLists(p: Plan, b: Body, n: StepNumber, now: int, passes: bool)
    requires Valid(p, b)
    ensures var r := OnExtra(p, b, n, now, passes);
            if 1 <= n <= |b.steps| && n - 1 != b.main && n !in b.extras then
              && r.extras == b.extras + [n] && r.main == b.main
              && (passes ==> r.steps[n - 1].active && r.steps[n - 1].start == now)
              && (!passes ==> r.steps == b.steps)
              && forall i :: 0 <= i < |b.steps| && i != n - 1 ==> r.steps[i] == b.steps[i]
            else r == b
  {
  }

  /** The first listing of a step is taken out of the list and the step is ended; nothing else changes. */
  lemma DroppingUnlists(p: Plan, b: Body, n: int) returns (k: nat)
    requires Valid(p, b) && n in b.extras
    ensures var r := OffExtra(p, b, n);
            && k < |b.extras| && b.extras[k] == n && n !in b.extras[..k]
            && r.extras == b.extras[..k] + b.extras[k + 1..] && r.main == b.main
            && !r.steps[n - 1].active && r.steps[n - 1].dx == 0
            && forall i :: 0 <= i < |b.steps| && i != n - 1 ==> r.steps[i] == b.steps[i]
  {
    k := Find(b.extras, n);
  }

  /** A listing is replaced in its place: the old step is ended and the new one begins. */
  lemma SwappingReplaces(p: Plan, b: Body, off: int, on: StepNumber, now: int) returns (k: nat)
    requires Valid(p, b) && off in b.extras && 1 <= on <= |b.steps| && on - 1 != b.main
    ensures var r := SwitchExtra(p, b, off, on, now);
            && k < |b.extras| && b.extras[k] == off && off !in b.extras[..k]
            && r.extras == b.extras[..k] + [on] + b.extras[k + 1..] && r.main == b.main
            && r.steps[on - 1].active && r.steps[on - 1].start == now && (off != on ==> !r.steps[off - 1].active)
            && forall i :: 0 <= i < |b.steps| && i != on - 1 && i != off - 1 ==> r.steps[i] == b.steps[i]
  {
    k := Find(b.extras, off);
  }

  /** Turning off ends the main step and leaves none in its place; extra steps go on. */
  lemma TurningOffEnds(p: Plan, b: Body)
    requires Valid(p, b)
    ensures var r := TurnOff(b);
            && r.main == -1 && r.extras == b.extras
            && (b.main >= 0 ==> !r.steps[b.main].active && r.steps[b.main].dx == 0)
            && (forall i :: 0 <= i < |b.steps| && i != b.main ==> r.steps[i] == b.steps[i])
            && forall now :: MainTime(r, now) == 0
  {
  }

  lemma {:induction false} RaisedLists(p: Plan, b: Body, k: nat, now: int, sig: Signals, i: nat)
    requires Valid(p, b) && i < |b.steps| && i != b.main
    ensures var r := Raised(p, b, k, now, sig);
            && |r.steps| == |b.steps| && r.main == b.main
            && (i + 1 in r.extras <==> i + 1 in b.extras || (i >= k && sig.linked(i) && sig.raised(i)))
    decreases |b.steps| - k
  {
    if k < |b.steps| {
      var comes := k + 1 !in b.extras && sig.linked(k) && sig.raised(k);
      var b1 := if comes then OnExtra(p, b, k + 1, now, sig.passes(k)) else b;
      RaisedLists(p, b1, k + 1, now, sig, i);
    }
  }

  /** Only an extra step whose signal has gone, and that is to end with it, can be taken from the list. */
  lemma {:induction false} DroppedLists(p: Plan, b: Body, k: nat, sig: Signals, n: int)
    requires Valid(p, b)
    ensures var r := Dropped(p, b, k, sig);
            && |r.steps| == |b.steps| && r.main == b.main
            && (n in r.extras ==> n in b.extras)
            && (n in b.extras && n !in r.extras ==> sig.linked(n - 1) && !sig.raised(n - 1) && sig.drop(n - 1))
    decreases |b.extras| - k
  {
    hide Without;
    if k < |b.extras| {
      var m := b.extras[k] - 1;
      if sig.linked(m) && !sig.raised(m) && sig.drop(m) {
        OffExtraFrame(p, b, m + 1);
        UnlistsOne(b.extras, m + 1, n);
        DroppedLists(p, OffExtra(p, b, m + 1), k + 1, sig, n);
      } else {
        DroppedLists(p, b, k + 1, sig, n);
      }
    }
  }

  lemma UnlistsOne(list: seq<int>, gone: int, n: int)
    ensures n in Without(list, gone) ==> n in list
    ensures n in list && n != gone ==> n in Without(list, gone)
  {
    if n in list && n != gone { WithoutKeeps(list, gone, n); }
  }

  /**
    * After an evaluation of the signals every existing step whose signal is present is listed, but for the main step; a
    * step without a signal of its own is listed if it was; and a listing is only ever lost to a signal that has gone.
    */
  lemma SignalsList(p: Plan, b: Body, now: int, sig: Signals, i: nat)
    requires Valid(p, b) && i < |b.steps| && i != b.main
    ensures var r := Signalled(p, b, now, sig);
            && (sig.linked(i) && sig.raised(i) ==> i + 1 in r.extras)
            && (!sig.linked(i) ==> (i + 1 in r.extras <==> i + 1 in b.extras))
            && (i + 1 in r.extras && i + 1 !in b.extras ==> sig.linked(i) && sig.raised(i))
            && (i + 1 in b.extras && i + 1 !in r.extras ==> sig.linked(i) && !sig.raised(i) && sig.drop(i))
  {
    hide Dropped, Raised;
    DroppedLists(p, b, 0, sig, i + 1);
    RaisedLists(p, Dropped(p, b, 0, sig), 0, now, sig, i);
  }
}

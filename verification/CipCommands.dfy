/**
  * What the panel commands do to a line that is not simply washing: locking
  * and unlocking, skipping a step after an error, and the steps it can reach.
  */
module CipCommands {
  import opened CipProgram
  import opened CipSchedule
  import opened CipRouting
  import opened CipSpec
  import opened CipControl
  import opened CipSafety

  /**
    * No step that a run reaches is unknown to the tables of step routines,
    * as no step is unknown to the scheduler.
    */
  lemma TrackedStepsAreKnown(at: Place, program: nat, o: Options)
    requires OnTrack(at)
    ensures InitAct(at.step, program, o) != Act.Unknown && DoAct(at.step, program, o) != Act.Unknown
  {
  }

  /**
    * Locking and unlocking a line leaves it paused if it has left its first
    * step, and otherwise idle: a wash that was started but has not left the
    * first step is forgotten, whatever its state was.
    */
  lemma LockAndUnlock(l: LineView, s: Sense, t: Sense)
    requires OnTrack(Place(l.step, l.prg))
    ensures var q := Tick(Tick(l, Lock, NotNow, s), Unlock, NotNow, t);
      && !q.blocked && q.step == l.step && q.prg == l.prg && q.program == l.program && q.recipe == l.recipe
      && q.state == if l.step == STEP_START then 0 else STATE_PAUSED
  {
    hide StopDev, InitStep, DoStep, EvalPids, GoToStep;
    TrackedStepsArePositive(Place(l.step, l.prg));
  }

  /**
    * Skipping a step starts the line again from any pause or error, but for
    * a locked line, an idle one and one at its last step.
    */
  lemma SkippingStarts(l: LineView, s: Sense)
    ensures var q := Tick(l, Next, NotNow, s);
      q.state == 1 && !q.blocked <==>
        !l.blocked && ((l.state != 0 && l.step != STEP_END) || l.state == 1)
  {
    hide StopDev, InitStep, GoToStep;
  }

  /**
    * A line can neither be paused nor skipped past its last step: only the
    * end of that step or a lock changes its state.
    */
  lemma LastStepOnlyEnds(l: LineView, cmd: Command, start: Start, s: Sense)
    requires l.step == STEP_END && l.state > 0 && !l.blocked && cmd != Lock && cmd != Unlock
    ensures var q := Tick(l, cmd, start, s);
      if cmd == NoCommand && s.endOk then q.state == 0 && q.step == STEP_START && q.prg == NO_PHASE
      else q.state > 0 && q.step == STEP_END
  {
    hide StopDev, InitStep, EvalPids;
  }

  // ---- A line that does not wash feeds nothing ----

  /** No medium, no path and no steam is open; the return may be. */
  predicate Quiet(v: Valves) { v.feed == FEED_SHUT && !v.v05 && !v.v06 && !v.v13 }

  predicate Still(l: LineView) { l.state <= 0 ==> Quiet(l.rig.v) }

  /** Unlocking a line that is not locked but washing. */
  predicate UnlocksWashing(l: LineView, e: Event) {
    e.TickOf? && e.cmd == Unlock && !l.blocked && l.state > 0
  }

  lemma StopIsQuiet(v: Valves, state: int)
    ensures Quiet(StopDev(v, state))
  {
  }

  lemma WorkKeepsStill(l: LineView, s: Sense)
    requires Still(l)
    ensures Still(Work(l, s))
  {
    hide InitStep, DoStep, GoToStep, EvalPids, StopDev, Quiet;
    var q := l.(rig := EvalPids(l.rig, s));
    StopIsQuiet(q.rig.v, q.state);
    var o := DoStep(q.rig, q.step, q.program, s);
    StopIsQuiet(o.rig.v, o.result);
  }

  lemma CommandKeepsStill(l: LineView, cmd: Command, start: Start, s: Sense)
    requires Still(l)
    ensures Still(EvalCommands(l, cmd, start, s))
  {
    hide InitStep, GoTo, LoadProgram, StopDev, Quiet;
    StopIsQuiet(l.rig.v, l.state);
  }

  lemma HoldIsQuiet(l: LineView)
    ensures Quiet(Hold(l).rig.v)
  {
  }

  /**
    * One event keeps a line that does not wash from feeding, if and only if
    * it does not unlock a washing line: that pauses the line with its valves
    * as they are.
    */
  lemma EventKeepsStill(l: LineView, e: Event)
    requires Sound(l) && Still(l)
    ensures Still(Apply(l, e)) <==> !UnlocksWashing(l, e) || Quiet(l.rig.v)
  {
    hide Work, EvalCommands, Hold, Quiet, OnTrack;
    match e
    case TickOf(cmd, start, s) =>
      var q := Block(l, cmd);
      HoldIsQuiet(q);
      if UnlocksWashing(l, e) {
        UnlockedKeepsRig(q, s);
      } else {
        if Still(q) { WorkKeepsStill(q, s); }
        CommandKeepsStill(l, cmd, start, s);
      }
    case _ =>
  }

  lemma UnlockedKeepsRig(l: LineView, s: Sense)
    requires l.state == STATE_PAUSED || l.state == 0
    ensures Work(l, s) == l
  {
  }

  /** At every moment of a run the line feeds nothing unless it washes. */
  predicate StillThroughout(l: LineView, es: seq<Event>)
    decreases |es|
  {
    Still(l) && (es != [] ==> StillThroughout(Apply(l, es[0]), es[1..]))
  }

  /** No washing line is unlocked along a run while it feeds. */
  predicate UnlocksQuietly(l: LineView, es: seq<Event>)
    decreases |es|
  {
    es != [] ==> (!UnlocksWashing(l, es[0]) || Quiet(l.rig.v)) && UnlocksQuietly(Apply(l, es[0]), es[1..])
  }

  /**
    * A line that is idle, paused, in error or locked feeds nothing at every
    * moment of a run, if and only if no washing line is unlocked while it
    * feeds.
    */
  lemma {:induction false} StoppedLinesFeedNothing(l: LineView, es: seq<Event>)
    requires Sound(l) && Still(l)
    ensures StillThroughout(l, es) <==> UnlocksQuietly(l, es)
    ensures UnlocksQuietly(l, es) ==> Still(Run(l, es))
    decreases |es|
  {
    hide Apply, Still, Quiet, Sound, UnlocksWashing;
    if es != [] {
      EventKeepsSound(l, es[0]);
      EventKeepsStill(l, es[0]);
      if Still(Apply(l, es[0])) { StoppedLinesFeedNothing(Apply(l, es[0]), es[1..]); }
    }
  }
}

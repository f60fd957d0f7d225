/**
  * Every litre that a step reads from its meter is charged to exactly one
  * account, and exactly which litres no step reads.
  */
module CipMeter {
  import opened CipProgram
  import opened CipRouting
  import opened CipSpec
  import opened CipControl
  import opened CipExactness
  import opened CipRinse

  /** Town water, secondary water, acid and caustic together. */
  function Charged(m: Meter): int { m.wc + m.ws + m.acid + m.caustic }

  /** What is charged beyond the reading of the current step. */
  function Settled(m: Meter): int { Charged(m) - m.lv }

  /**
    * A routine either leaves the meter alone or charges all litres since the
    * last reading.
    */
  predicate Metered(m: Meter, n: Meter, litres: nat) {
    n == m || (n.lv == litres && Settled(n) == Settled(m))
  }

  // ---- Which calls read the meter ----

  predicate Fed(from: Medium) {
    from.Water? || from.Sanitizer? || from.TankW? || from.TankK? || from.TankS?
  }

  /**
    * Feeding reads the meter, but for the call in which a push-out arrives or
    * fails to; circulation, filling of the vessel and emptying never do.
    */
  predicate Reads(r: Rig, act: Act, s: Sense) {
    match act
    case ToObject(from, _) => Fed(from)
    case FromObject(from, where) => Fed(from) && !(s.volDone && CheckArrival(r.f, from, where, s).1 != 0)
    case FilRR(_) => true
    case _ => false
  }

  predicate ReadBy(m: Meter, n: Meter, litres: nat, taken: bool) {
    if taken then n.lv == litres && Settled(n) == Settled(m) else n == m
  }

  lemma FeedReads(x: FeedSide, from: Medium, s: Sense)
    ensures ReadBy(x.m, FeedFor(x, from, s).m, s.litres, Fed(from))
  {
  }

  lemma ToObjectReads(r: Rig, step: int, from: Medium, where: Medium, program: nat, s: Sense)
    ensures ReadBy(r.m, CipSpec.ToObject(r, step, from, where, program, s).rig.m, s.litres, Fed(from))
  {
    hide FeedFor, Return, ReadBy, Fed;
    FeedReads(FeedSideOf(r), from, s);
  }

  lemma FromObjectReads(r: Rig, from: Medium, where: Medium, s: Sense)
    ensures ReadBy(r.m, CipSpec.FromObject(r, from, where, s).rig.m, s.litres,
                   Fed(from) && !(s.volDone && CheckArrival(r.f, from, where, s).1 != 0))
  {
    hide FeedFor, Return, SortRR, CheckArrival, Fed;
    var a := if s.volDone then CheckArrival(r.f, from, where, s) else (r.f, 0);
    FeedReads(FeedSideOf(r.(f := a.0)), from, s);
  }

  lemma DoRoutingReads(r: Rig, act: Act, step: int, program: nat, s: Sense)
    ensures ReadBy(r.m, DoRouting(r, act, step, program, s).rig.m, s.litres, Reads(r, act, s))
  {
    hide CipSpec.ToObject, CipSpec.FromObject, SortRR, CircFeed, CircOverflow, Drained, DrainReturn,
         OporCircReturn, PumpTarget, PumpOver, Fed, CheckArrival;
    match act
    case ToObject(from, where) => ToObjectReads(r, step, from, where, program, s);
    case FromObject(from, where) => FromObjectReads(r, from, where, s);
    case _ =>
  }

  predicate StepReads(r: Rig, step: int, program: nat, s: Sense) {
    (s.fault == 0 || step == STEP_END) && Reads(r, DoAct(step, program, s.o), s)
  }

  /** A call of a step reads all litres since the last reading, or none. */
  lemma DoStepReads(r: Rig, step: int, program: nat, s: Sense)
    ensures ReadBy(r.m, DoStep(r, step, program, s).rig.m, s.litres, StepReads(r, step, program, s))
  {
    hide DoAct, DoRouting, Reads, ReadBy;
    DoRoutingReads(r, DoAct(step, program, s.o), step, program, s);
    UnreadIsSame(r.m, s.litres);
  }

  lemma UnreadIsSame(m: Meter, litres: nat)
    ensures ReadBy(m, m, litres, false)
  {
  }

  lemma DoStepMeters(r: Rig, step: int, program: nat, s: Sense)
    ensures Metered(r.m, DoStep(r, step, program, s).rig.m, s.litres)
  {
    hide DoStep, StepReads;
    DoStepReads(r, step, program, s);
  }

  // ---- Where a reading ends ----

  /**
    * A tick ends the reading of a step by entering another one: the only
    * moment at which the reading restarts.
    */
  predicate ClosesByCommand(l: LineView, cmd: Command, start: Start) {
    match cmd
    case Next => l.state != 0 && l.step != STEP_END
    case Reset => l.state != 0
    case Evaluate => MayStart(l) && start == Go
    case _ => false
  }

  predicate ClosesByWork(l: LineView, s: Sense) {
    l.state > 0 && l.step != STEP_END
    && var o := DoStep(EvalPids(l.rig, s), l.step, l.program, s);
       o.result > 0 && GoTo(l, o.result, s).step != l.step
  }

  /** The reading that is left behind. */
  function ClosedByCommand(l: LineView, cmd: Command, start: Start): int {
    if ClosesByCommand(l, cmd, start) then l.rig.m.lv else 0
  }

  function ClosedByWork(l: LineView, s: Sense): int {
    if ClosesByWork(l, s) then DoStep(EvalPids(l.rig, s), l.step, l.program, s).rig.m.lv else 0
  }

  predicate Works(l: LineView, e: Event) {
    e.TickOf? && !Block(l, e.cmd).blocked && e.cmd in {NoCommand, Lock, Unlock}
  }

  predicate Commands(l: LineView, e: Event) {
    e.TickOf? && !Block(l, e.cmd).blocked && e.cmd !in {NoCommand, Lock, Unlock}
  }

  predicate Closes(l: LineView, e: Event) {
    (Works(l, e) && ClosesByWork(Block(l, e.cmd), e.s)) || (Commands(l, e) && ClosesByCommand(l, e.cmd, e.start))
  }

  function Closed(l: LineView, e: Event): int {
    if Works(l, e) then ClosedByWork(Block(l, e.cmd), e.s)
    else if Commands(l, e) then ClosedByCommand(l, e.cmd, e.start)
    else 0
  }

  /** The final reset of the line clears the accounts. */
  predicate Clears(l: LineView, e: Event) {
    Works(l, e) && Block(l, e.cmd).state > 0 && Finishes(l, e.s)
  }

  function Cleared(l: LineView, e: Event): int {
    if Clears(l, e) then Settled(l.rig.m) else 0
  }

  lemma InitStepMeters(r: Rig, step: int, again: bool, state: int, program: nat, s: Sense)
    ensures InitStep(r, step, again, state, program, s).m == if again then r.m else r.m.(lv := 0)
  {
    hide InitAct, InitValves, InitFlags, InitFeeding;
  }

  lemma AdvanceMeters(l: LineView, result: int, s: Sense)
    ensures Advance(l, result, s).rig.m
         == if GoTo(l, result, s).step != l.step then l.rig.m.(lv := 0) else l.rig.m
  {
    hide GoToStep, InitStep;
    var q := GoTo(l, result, s);
    InitStepMeters(q.rig, q.step, false, q.state, q.program, s);
  }

  lemma CommandMeters(l: LineView, cmd: Command, start: Start, s: Sense)
    requires !l.blocked && cmd !in {NoCommand, Lock, Unlock}
    ensures Settled(EvalCommands(l, cmd, start, s).rig.m)
         == Settled(l.rig.m) + ClosedByCommand(l, cmd, start)
  {
    hide GoToStep, InitStep, LoadProgram;
    forall step, again, state, program, r: Rig
      ensures InitStep(r, step, again, state, program, s).m == if again then r.m else r.m.(lv := 0)
    {
      InitStepMeters(r, step, again, state, program, s);
    }
  }

  lemma WorkMeters(l: LineView, s: Sense)
    requires !l.blocked && !(l.state > 0 && Finishes(l, s))
    ensures Settled(Work(l, s).rig.m) == Settled(l.rig.m) + ClosedByWork(l, s)
  {
    hide InitStep, DoStep, GoTo, Advance;
    if l.state > 0 {
      if l.step != STEP_END {
        var r := EvalPids(l.rig, s);
        DoStepMeters(r, l.step, l.program, s);
        var o := DoStep(r, l.step, l.program, s);
        AdvanceMeters(l.(rig := o.rig), o.result, s);
        GoToIgnoresRig(l, o.rig, o.result, s);
      }
    } else {
      InitStepMeters(l.rig, l.step, true, 1, l.program, s);
    }
  }

  lemma GoToIgnoresRig(l: LineView, r: Rig, param: int, s: Sense)
    ensures GoTo(l.(rig := r), param, s).step == GoTo(l, param, s).step
  {
    hide GoToStep;
  }

  /**
    * One event changes the settled sum only by a reading that it closes and,
    * at the end of a program, by what it clears.
    */
  lemma EventSettles(l: LineView, e: Event)
    ensures Settled(Apply(l, e).rig.m) + Cleared(l, e) == Settled(l.rig.m) + Closed(l, e)
  {
    hide EvalCommands, ClosedByCommand, Work, ClosedByWork;
    match e
    case TickOf(cmd, start, s) =>
      var q := Block(l, cmd);
      if Works(l, e) {
        if Clears(l, e) { FinishClears(q, s); } else { WorkMeters(q, s); }
      } else if Commands(l, e) {
        CommandMeters(q, cmd, start, s);
      }
    case _ =>
  }

  lemma FinishClears(l: LineView, s: Sense)
    requires l.state > 0 && Finishes(l, s)
    ensures Work(l, s).rig.m == EMPTY_METER && ClosedByWork(l, s) == 0
  {
    hide EvalPids, DoStep, GoTo, StopDev;
  }

  /** The readings of all steps closed along a run. */
  function ClosedAlong(l: LineView, es: seq<Event>): int
    decreases |es|
  {
    if es == [] then 0 else Closed(l, es[0]) + ClosedAlong(Apply(l, es[0]), es[1..])
  }

  function ClearedAlong(l: LineView, es: seq<Event>): int
    decreases |es|
  {
    if es == [] then 0 else Cleared(l, es[0]) + ClearedAlong(Apply(l, es[0]), es[1..])
  }

  /**
    * Over every run from a line with empty accounts, over any number of
    * programs, the four accounts and what the ends of programs cleared from
    * them are together the last readings of all the steps.
    */
  lemma {:induction false} EveryLitreIsCharged(l: LineView, es: seq<Event>)
    ensures Settled(Run(l, es).rig.m) + ClearedAlong(l, es) == Settled(l.rig.m) + ClosedAlong(l, es)
    ensures l.rig.m == EMPTY_METER ==>
      Charged(Run(l, es).rig.m) + ClearedAlong(l, es) == ClosedAlong(l, es) + Run(l, es).rig.m.lv
    decreases |es|
  {
    hide Apply, Closed, Cleared;
    if es != [] {
      EventSettles(l, es[0]);
      EveryLitreIsCharged(Apply(l, es[0]), es[1..]);
    }
  }

  // ---- Which litres are not charged ----

  /**
    * What the meter shows, at the tick that closes a step, beyond the last
    * reading of the step.
    */
  function Escaped(l: LineView, e: Event): int {
    if Closes(l, e) then e.s.litres - Closed(l, e) else 0
  }

  /**
    * Litres escape only where a step ends and its last call did not read the
    * meter: then it is those since the reading before.
    */
  lemma UnreadLitresEscape(l: LineView, e: Event)
    requires Closes(l, e)
    ensures Escaped(l, e) ==
      if Works(l, e) && StepReads(l.rig, l.step, l.program, e.s) then 0 else e.s.litres - l.rig.m.lv
  {
    hide DoStep, GoTo, DoAct, Reads, MayStart;
    var q := Block(l, e.cmd);
    if Works(l, e) {
      DoStepReads(EvalPids(q.rig, e.s), q.step, q.program, e.s);
      ReadsIgnoresValves(q.rig, DoAct(q.step, q.program, e.s.o), e.s);
    }
  }

  lemma ReadsIgnoresValves(r: Rig, act: Act, s: Sense)
    ensures Reads(EvalPids(r, s), act, s) == Reads(r, act, s) && EvalPids(r, s).m == r.m
  {
    hide CheckArrival;
  }

  function MeteredAlong(l: LineView, es: seq<Event>): int
    decreases |es|
  {
    if es == [] then 0 else (if Closes(l, es[0]) then es[0].s.litres else 0) + MeteredAlong(Apply(l, es[0]), es[1..])
  }

  function EscapedAlong(l: LineView, es: seq<Event>): int
    decreases |es|
  {
    if es == [] then 0 else Escaped(l, es[0]) + EscapedAlong(Apply(l, es[0]), es[1..])
  }

  lemma {:induction false} ClosedOrEscaped(l: LineView, es: seq<Event>)
    ensures ClosedAlong(l, es) + EscapedAlong(l, es) == MeteredAlong(l, es)
    decreases |es|
  {
    hide Apply, ClosedByWork, ClosedByCommand, ClosesByWork, ClosesByCommand;
    if es != [] {
      ClosedOnlyAtEnds(l, es[0]);
      ClosedOrEscaped(Apply(l, es[0]), es[1..]);
    }
  }

  lemma ClosedOnlyAtEnds(l: LineView, e: Event)
    ensures !Closes(l, e) ==> Closed(l, e) == 0
  {
    hide DoStep, GoTo, MayStart;
  }

  /**
    * All that the meter counted in the steps closed along a run, and the
    * reading of the present one, was charged - and cleared at the ends of
    * programs - or has escaped.
    */
  lemma MeteredIsChargedOrEscapes(l: LineView, es: seq<Event>)
    requires l.rig.m == EMPTY_METER
    ensures Charged(Run(l, es).rig.m) + ClearedAlong(l, es) + EscapedAlong(l, es)
         == MeteredAlong(l, es) + Run(l, es).rig.m.lv
  {
    hide Run, ClosedAlong, ClearedAlong, EscapedAlong, MeteredAlong, Charged, Settled;
    EveryLitreIsCharged(l, es);
    ClosedOrEscaped(l, es);
  }

  // ---- It happens ----

  /** A command that leads to another step leaves what was not read. */
  lemma SkipEscapes(l: LineView, s: Sense)
    requires l.state > 0 && l.step != STEP_END && !l.blocked
    ensures var e := TickOf(Next, NotNow, s);
      && Escaped(l, e) == s.litres - l.rig.m.lv
      && var q := Apply(l, e);
      q.rig.m == l.rig.m.(lv := 0) && q.state == 1 && !q.blocked && q.step == GoTo(l, 0, s).step
  {
    hide GoToStep, InitStep;
    var q := GoTo(l, 0, s);
    InitStepMeters(l.rig, q.step, false, 1, l.program, s);
  }

  lemma StartEscapes(l: LineView, s: Sense)
    requires l.state == 0 && !l.blocked && MayStart(l)
    ensures var e := TickOf(Evaluate, Go, s);
      && Escaped(l, e) == s.litres - l.rig.m.lv && Apply(l, e).rig.m == l.rig.m.(lv := 0)
  {
    hide InitStep, LoadProgram;
    forall step ensures InitStep(l.rig, step, false, 1, l.program, s).m == l.rig.m.(lv := 0) {
      InitStepMeters(l.rig, step, false, 1, l.program, s);
    }
  }

  /** The push-out of the caustic step has arrived: the meter is not read. */
  lemma ArrivalEscapes(l: LineView, s: Sense)
    requires l.step == 24 && l.state == 1 && !l.blocked
    requires s.volDone && s.flow && s.caustic.some && s.fault == 0
    ensures var e := TickOf(NoCommand, NotNow, s);
      && Escaped(l, e) == s.litres - l.rig.m.lv && Apply(l, e).rig.m == l.rig.m.(lv := 0)
  {
    hide InitStep, FeedFor, SortRR, Return;
    var e := TickOf(NoCommand, NotNow, s);
    ArrivalIsUnread(EvalPids(l.rig, s), l.program, s);
    forall r: Rig, step ensures InitStep(r, step, false, 1, l.program, s).m == r.m.(lv := 0) {
      InitStepMeters(r, step, false, 1, l.program, s);
    }
    UnreadLitresEscape(l, e);
  }

  lemma ArrivalIsUnread(r: Rig, program: nat, s: Sense)
    requires s.volDone && s.flow && s.caustic.some && s.fault == 0
    ensures DoStep(r, 24, program, s).result == 1 && DoStep(r, 24, program, s).rig.m == r.m
    ensures !StepReads(r, 24, program, s)
  {
    hide FeedFor, SortRR, Return;
  }

  /**
    * From a line at rest: the operator skips to the push-out of the caustic
    * phase, and all the litres metered until it arrives are charged to none
    * of the accounts.
    */
  lemma PushOutEscapes(begin: Sense, s: Sense) returns (es: seq<Event>)
    requires begin.litres == 0
    requires s.volDone && s.flow && s.caustic.some && s.fault == 0
    ensures EscapedAlong(Ready(8, false), es) == s.litres && Charged(Run(Ready(8, false), es).rig.m) == 0
  {
    hide Apply, Escaped, Closes, LoadProgram, GoTo, Run, EscapedAlong;
    var start, skip := TickOf(Evaluate, Go, begin), TickOf(Next, NotNow, begin);
    var end := TickOf(NoCommand, NotNow, s);
    var l0 := Ready(8, false);
    ProgramStarts(begin.o.choice);
    StartAndSkip(l0, begin);
    StartEscapes(l0, begin);
    var l1 := Apply(l0, start);
    SkipEscapes(l1, begin);
    var l2 := Apply(l1, skip);
    SkipEscapes(l2, begin);
    var l3 := Apply(l2, skip);
    assert l3.step == 23 by { NextOfCaustic(l2, begin); }
    SkipEscapes(l3, begin);
    var l4 := Apply(l3, skip);
    assert l4.step == 24 by { NextOfCaustic(l3, begin); }
    ArrivalEscapes(l4, s);
    es := [start] + ([skip] + ([skip] + ([skip] + [end])));
    RunsOn(l0, start, [skip] + ([skip] + ([skip] + [end])));
    RunsOn(l1, skip, [skip] + ([skip] + [end]));
    RunsOn(l2, skip, [skip] + [end]);
    RunsOn(l3, skip, [end]);
    RunsOn(l4, end, []);
    assert [end] + [] == [end];
    NothingRuns(Apply(l4, end));
  }

  lemma NextOfCaustic(l: LineView, s: Sense)
    requires l.step == 22 || l.step == 23
    ensures GoTo(l, 0, s).step == l.step + 1
  {
  }

  lemma RunsOn(l: LineView, e: Event, es: seq<Event>)
    ensures EscapedAlong(l, [e] + es) == Escaped(l, e) + EscapedAlong(Apply(l, e), es)
    ensures Run(l, [e] + es) == Run(Apply(l, e), es)
  {
    hide Apply, Escaped;
    assert ([e] + es)[1..] == es;
  }

  lemma NothingRuns(l: LineView)
    ensures Run(l, []) == l && EscapedAlong(l, []) == 0
  {
  }
}

/**
  * Between caustic and acid a line goes through a complete rinse, whichever
  * steps the operator skips, unless he resets the line on the way. The steps
  * of the rinse are entered; how long each of them lasts is not told.
  */
module CipRinse {
  import opened CipProgram
  import opened CipSchedule
  import opened CipRouting
  import opened CipSpec
  import opened CipControl
  import opened CipSafety
  import opened CipExactness

  /** The states of a line along a run. */
  ghost predicate IsTrace(ls: seq<LineView>, es: seq<Event>) {
    && |ls| == |es| + 1
    && Sound(ls[0])
    && forall k | 0 <= k < |es| :: ls[k + 1] == Apply(ls[k], es[k])
  }

  lemma {:induction false} TraceIsSound(ls: seq<LineView>, es: seq<Event>, k: nat)
    requires IsTrace(ls, es) && k < |ls|
    ensures Sound(ls[k])
  {
    hide Apply, Sound;
    if k > 0 {
      TraceIsSound(ls, es, k - 1);
      EventKeepsSound(ls[k - 1], es[k - 1]);
    }
  }

  /** A stretch of the route that leads on through one step only. */
  datatype Stretch = Stretch(first: int, last: int, gate: int)

  const AFTER_CAUSTIC := Stretch(22, 32, 33)
  const CAUSTIC_RINSE := Stretch(33, 34, 35)
  const CAUSTIC_FLUSH := Stretch(35, 35, 37)
  const AFTER_ACID := Stretch(42, 52, 53)
  const ACID_RINSE := Stretch(53, 54, 55)
  const ACID_FLUSH := Stretch(55, 55, 57)
  const BEFORE_CAUSTIC := Stretch(22, 27, 28)
  const BEFORE_ACID := Stretch(42, 47, 48)
  const BEFORE_HOT_WATER := Stretch(61, 65, 66)
  const BEFORE_DISINFECTION := Stretch(71, 76, 77)

  predicate OnRoute(st: Stretch) {
    || st == AFTER_CAUSTIC || st == CAUSTIC_RINSE || st == CAUSTIC_FLUSH
    || st == AFTER_ACID || st == ACID_RINSE || st == ACID_FLUSH
    || st == BEFORE_CAUSTIC || st == BEFORE_ACID || st == BEFORE_HOT_WATER || st == BEFORE_DISINFECTION
  }

  predicate On(st: Stretch, step: int) { st.first <= step <= st.last }

  lemma StretchSuccessor(st: Stretch, at: Place, param: int, program: nat, c: Choice)
    requires OnRoute(st) && OnTrack(at) && On(st, at.step)
    ensures var next := GoToStep(at, param, program, c).step; On(st, next) || next == st.gate
  {
  }

  lemma MoveKeepsStretch(st: Stretch, l: LineView, param: int, s: Sense)
    requires OnRoute(st) && OnTrack(Place(l.step, l.prg)) && On(st, l.step)
    ensures var next := GoTo(l, param, s).step; On(st, next) || next == st.gate
  {
    hide GoToStep, OnRoute, On, OnTrack;
    StretchSuccessor(st, Place(l.step, l.prg), param, l.program, s.o.choice);
  }

  lemma StretchIsInside(st: Stretch, step: int)
    requires OnRoute(st) && On(st, step)
    ensures step != STEP_START && step != STEP_END && STEP_END != st.gate && !On(st, STEP_END)
  {
  }

  /** The reset command reaches the line: a locked line does not hear it. */
  predicate Resets(l: LineView, e: Event) {
    e.TickOf? && e.cmd == Reset && !l.blocked
  }

  /** Out of a stretch leads its gate, and otherwise a reset and nothing else. */
  lemma EventKeepsStretch(st: Stretch, l: LineView, e: Event)
    requires OnRoute(st) && Sound(l) && On(st, l.step)
    ensures var q := Apply(l, e); On(st, q.step) || q.step == st.gate <==> !Resets(l, e)
  {
    hide GoTo, InitStep, DoStep, EvalPids, Finished, OnTrack, OnRoute, On;
    StretchIsInside(st, l.step);
    match e
    case TickOf(cmd, start, s) =>
      MoveKeepsStretch(st, l, 0, s);
      var q := Block(l, cmd);
      var r := DoStep(EvalPids(q.rig, s), q.step, q.program, s);
      MoveKeepsStretch(st, q.(rig := r.rig), r.result, s);
    case _ =>
  }

  lemma ResetEnds(l: LineView, e: Event)
    requires Sound(l) && l.step != STEP_START && Resets(l, e)
    ensures Apply(l, e).step == STEP_END
  {
    hide InitStep, OnTrack;
  }

  /** Between two moments no reset reaches the line at any of these steps. */
  predicate Unbroken(ls: seq<LineView>, es: seq<Event>, i: nat, j: nat, first: int, last: int)
    requires |ls| == |es| + 1 && j < |ls|
  {
    forall k | i <= k < j :: first <= ls[k].step <= last ==> !Resets(ls[k], es[k])
  }

  /** A run that leaves a stretch unbroken passes its gate. */
  lemma {:induction false} PassesGate(st: Stretch, ls: seq<LineView>, es: seq<Event>, i: nat, j: nat) returns (g: nat)
    requires OnRoute(st) && IsTrace(ls, es) && i < j < |ls|
    requires On(st, ls[i].step) && !On(st, ls[j].step)
    requires Unbroken(ls, es, i, j, st.first, st.last)
    ensures i < g <= j && ls[g].step == st.gate
    decreases j - i
  {
    hide OnRoute, Resets, Apply, Sound;
    TraceIsSound(ls, es, i);
    EventKeepsStretch(st, ls[i], es[i]);
    if ls[i + 1].step == st.gate {
      g := i + 1;
    } else {
      g := PassesGate(st, ls, es, i + 1, j);
    }
  }

  /**
    * Whichever steps the operator skips: a phase of caustic, acid, hot water
    * or disinfection that was begun is left only after its circulation was
    * entered, unless a reset reaches the line before.
    */
  lemma WashIsEntered(st: Stretch, ls: seq<LineView>, es: seq<Event>, i: nat, j: nat) returns (g: nat)
    requires st in {BEFORE_CAUSTIC, BEFORE_ACID, BEFORE_HOT_WATER, BEFORE_DISINFECTION}
    requires IsTrace(ls, es) && i < j < |ls| && On(st, ls[i].step) && !On(st, ls[j].step)
    requires Unbroken(ls, es, i, j, st.first, st.last)
    ensures i < g <= j
    ensures ls[g].step ==
      if st.first == 22 then 28 else if st.first == 42 then 48 else if st.first == 61 then 66 else 77
  {
    hide Resets, Apply, Sound;
    g := PassesGate(st, ls, es, i, j);
  }

  predicate WashesCaustic(step: int) { 22 <= step <= 29 }

  predicate WashesAcid(step: int) { 42 <= step <= 49 }

  /** The steps occur in this order strictly between two moments of a run. */
  ghost predicate OccurBetween(ls: seq<LineView>, i: nat, j: nat, s1: int, s2: int, s3: int)
    requires j < |ls|
  {
    exists a: nat, b: nat, c: nat | i < a < b < c < j ::
      ls[a].step == s1 && ls[b].step == s2 && ls[c].step == s3
  }

  /**
    * In every run, over any number of programs: if no reset breaks the route
    * from a caustic step before a later acid step, the line is rinsed between.
    */
  lemma RinsedAfterCaustic(ls: seq<LineView>, es: seq<Event>, i: nat, j: nat)
    requires IsTrace(ls, es) && i < j < |ls|
    requires WashesCaustic(ls[i].step) && WashesAcid(ls[j].step)
    requires Unbroken(ls, es, i, j, 22, 35)
    ensures OccurBetween(ls, i, j, 33, 35, 37)
  {
    hide Apply, Resets, Sound;
    var a := PassesGate(AFTER_CAUSTIC, ls, es, i, j);
    var b := PassesGate(CAUSTIC_RINSE, ls, es, a, j);
    var c := PassesGate(CAUSTIC_FLUSH, ls, es, b, j);
  }

  lemma RinsedAfterAcid(ls: seq<LineView>, es: seq<Event>, i: nat, j: nat)
    requires IsTrace(ls, es) && i < j < |ls|
    requires WashesAcid(ls[i].step) && WashesCaustic(ls[j].step)
    requires Unbroken(ls, es, i, j, 42, 55)
    ensures OccurBetween(ls, i, j, 53, 55, 57)
  {
    hide Apply, Resets, Sound;
    var a := PassesGate(AFTER_ACID, ls, es, i, j);
    var b := PassesGate(ACID_RINSE, ls, es, a, j);
    var c := PassesGate(ACID_FLUSH, ls, es, b, j);
  }

  // ---- Exactly when the rinse is missed ----

  predicate Washes(acid: bool, step: int) {
    if acid then WashesAcid(step) else WashesCaustic(step)
  }

  /** The steps after a wash, up to the given one. */
  predicate Tail(acid: bool, upTo: int, step: int) {
    if acid then 49 < step <= upTo else 29 < step <= upTo
  }

  predicate TailEnd(acid: bool, upTo: int) {
    if acid then upTo == 56 || upTo == 60 else upTo == 36 || upTo == 41
  }

  lemma TailPredecessor(acid: bool, upTo: int, at: Place, param: int, program: nat, c: Choice)
    requires TailEnd(acid, upTo) && OnTrack(at) && at.step != STEP_END
    requires Tail(acid, upTo, GoToStep(at, param, program, c).step)
    ensures Tail(acid, upTo, at.step) || Washes(acid, at.step)
  {
  }

  lemma StartIsNoTail(acid: bool, upTo: int, prg: int, program: nat, c: Choice)
    requires TailEnd(acid, upTo)
    ensures !Tail(acid, upTo, LoadProgram(prg, program, c).step)
    ensures !Tail(acid, upTo, STEP_START) && !Tail(acid, upTo, STEP_END)
  {
  }

  lemma MoveEntersTail(acid: bool, upTo: int, l: LineView, param: int, s: Sense)
    requires TailEnd(acid, upTo) && OnTrack(Place(l.step, l.prg)) && l.step != STEP_END
    requires !Tail(acid, upTo, l.step) && !Washes(acid, l.step)
    ensures !Tail(acid, upTo, GoTo(l, param, s).step)
  {
    hide GoToStep, TailEnd, Tail, Washes, OnTrack;
    if Tail(acid, upTo, GoTo(l, param, s).step) {
      TailPredecessor(acid, upTo, Place(l.step, l.prg), param, l.program, s.o.choice);
    }
  }

  /** The steps after a wash are entered from the wash or from one another. */
  lemma EventEntersTail(acid: bool, upTo: int, l: LineView, e: Event)
    requires TailEnd(acid, upTo) && Sound(l)
    requires !Tail(acid, upTo, l.step) && !Washes(acid, l.step)
    ensures !Tail(acid, upTo, Apply(l, e).step)
  {
    hide GoTo, InitStep, DoStep, EvalPids, OnTrack, TailEnd, Tail, Washes, LoadProgram;
    match e
    case TickOf(cmd, start, s) =>
      StartIsNoTail(acid, upTo, l.prg, l.program, s.o.choice);
      if l.step != STEP_END {
        MoveEntersTail(acid, upTo, l, 0, s);
        var q := Block(l, cmd);
        var r := DoStep(EvalPids(q.rig, s), q.step, q.program, s);
        MoveEntersTail(acid, upTo, q.(rig := r.rig), r.result, s);
      }
    case _ =>
  }

  lemma {:induction false} StaysOutside(acid: bool, upTo: int, ls: seq<LineView>, es: seq<Event>, i: nat, j: nat)
    requires TailEnd(acid, upTo) && IsTrace(ls, es) && i <= j < |ls|
    requires !Tail(acid, upTo, ls[i].step) && forall m | i <= m < j :: !Washes(acid, ls[m].step)
    ensures !Tail(acid, upTo, ls[j].step)
    decreases j
  {
    hide TailEnd, Tail, Washes, Apply, Sound;
    if i < j {
      StaysOutside(acid, upTo, ls, es, i, j - 1);
      TraceIsSound(ls, es, j - 1);
      EventEntersTail(acid, upTo, ls[j - 1], es[j - 1]);
    }
  }

  /**
    * After the last wash, a reset on the way to the end of the rinse means
    * that this end is not reached before the next wash with the same medium.
    */
  lemma ResetMissesEnd(acid: bool, ls: seq<LineView>, es: seq<Event>, i: nat, j: nat, k: nat, c: nat)
    requires IsTrace(ls, es) && i <= k < j < |ls| && i < c < j
    requires forall m | i < m < j :: !Washes(acid, ls[m].step)
    requires Resets(ls[k], es[k])
    requires Washes(acid, ls[k].step) || Tail(acid, if acid then 56 else 36, ls[k].step)
    ensures ls[c].step != if acid then 57 else 37
  {
    hide Apply, Resets, Sound;
    var half, whole := if acid then 56 else 36, if acid then 60 else 41;
    if c > k {
      TraceIsSound(ls, es, k);
      ResetEnds(ls[k], es[k]);
      assert ls[k + 1] == Apply(ls[k], es[k]);
      StaysOutside(acid, whole, ls, es, k + 1, c);
    } else if c < k && !Tail(acid, half, ls[c].step) {
      StaysOutside(acid, half, ls, es, c, k);
    }
  }

  /**
    * From the last caustic step before an acid step: the line is rinsed in
    * between if and only if no reset reaches it at the steps 22 to 35.
    */
  lemma RinsedAfterCausticExactly(ls: seq<LineView>, es: seq<Event>, i: nat, j: nat)
    requires IsTrace(ls, es) && i < j < |ls|
    requires WashesCaustic(ls[i].step) && WashesAcid(ls[j].step)
    requires forall m | i < m < j :: !WashesCaustic(ls[m].step)
    ensures OccurBetween(ls, i, j, 33, 35, 37) <==> Unbroken(ls, es, i, j, 22, 35)
  {
    hide Apply, Resets, Sound;
    if Unbroken(ls, es, i, j, 22, 35) {
      RinsedAfterCaustic(ls, es, i, j);
    } else {
      var k :| i <= k < j && 22 <= ls[k].step <= 35 && Resets(ls[k], es[k]);
      forall c: nat | i < c < j ensures ls[c].step != 37 {
        ResetMissesEnd(false, ls, es, i, j, k, c);
      }
    }
  }

  lemma RinsedAfterAcidExactly(ls: seq<LineView>, es: seq<Event>, i: nat, j: nat)
    requires IsTrace(ls, es) && i < j < |ls|
    requires WashesAcid(ls[i].step) && WashesCaustic(ls[j].step)
    requires forall m | i < m < j :: !WashesAcid(ls[m].step)
    ensures OccurBetween(ls, i, j, 53, 55, 57) <==> Unbroken(ls, es, i, j, 42, 55)
  {
    hide Apply, Resets, Sound;
    if Unbroken(ls, es, i, j, 42, 55) {
      RinsedAfterAcid(ls, es, i, j);
    } else {
      var k :| i <= k < j && 42 <= ls[k].step <= 55 && Resets(ls[k], es[k]);
      forall c: nat | i < c < j ensures ls[c].step != 57 {
        ResetMissesEnd(true, ls, es, i, j, k, c);
      }
    }
  }

  // ---- Both sides happen ----

  /**
    * The operator starts a line at rest with the chosen program and skips its
    * first step: the line stands at the first step of the highest phase.
    */
  lemma StartAndSkip(l: LineView, s: Sense)
    requires l.step == STEP_START && l.prg == NO_PHASE && l.state == 0 && !l.blocked && !l.carWash
    requires l.recipe >= 0 && l.program > 0
    ensures var q := Apply(l, TickOf(Evaluate, Go, s));
      && q.step == STEP_START && q.state == 1 && q.prg == NO_PHASE && !q.blocked && q.program == l.program
      && Apply(q, TickOf(Next, NotNow, s)).step == LoadProgram(NO_PHASE, l.program, s.o.choice).step
      && Apply(q, TickOf(Next, NotNow, s)).state == 1 && !Apply(q, TickOf(Next, NotNow, s)).blocked
      && !Apply(q, TickOf(Next, NotNow, s)).carWash
  {
    hide InitStep, LoadProgram, GoToStep;
    StartLoadsProgram(NO_PHASE, l.program, s.o.choice);
  }

  /** A washing line is reset and ends: it is at rest again. */
  lemma ResetAndEnd(l: LineView, s: Sense)
    requires l.state == 1 && !l.blocked && !l.carWash && s.endOk
    ensures var q := Apply(l, TickOf(Reset, NotNow, s));
      && q.step == STEP_END
      && var r := Apply(q, TickOf(NoCommand, NotNow, s));
      && r.step == STEP_START && r.prg == NO_PHASE && r.state == 0 && !r.blocked && !r.carWash
  {
    hide InitStep, EvalPids, StopDev;
  }

  /** One medium, a reset, the other one: no step of the rinse is ever entered. */
  lemma ResetSkipsRinse(acid: bool, s: Sense) returns (ls: seq<LineView>, es: seq<Event>)
    requires s.endOk
    ensures IsTrace(ls, es) && |es| == 8
    ensures ls[0] == Ready(if acid then 16 else 8, false) && Washes(acid, ls[2].step) && Washes(!acid, ls[8].step)
    ensures forall k | 0 <= k < |ls| :: !Tail(acid, if acid then 60 else 41, ls[k].step)
  {
    hide Apply, LoadProgram, Sound;
    var program, other := if acid then 16 else 8, if acid then 8 else 16;
    var l0 := Ready(program, false);
    var begin, skip := TickOf(Evaluate, Go, s), TickOf(Next, NotNow, s);
    var reset, end := TickOf(Reset, NotNow, s), TickOf(NoCommand, NotNow, s);
    ProgramStarts(s.o.choice);
    StartAndSkip(l0, s);
    var l1 := Apply(l0, begin);
    var l2 := Apply(l1, skip);
    ResetAndEnd(l2, s);
    var l3 := Apply(l2, reset);
    var l4 := Apply(l3, end);
    var l5 := Apply(l4, ChooseProgram(other));
    var l6 := Apply(l5, ChooseRecipe(0));
    Choosing(l4, other, 0);
    StartAndSkip(l6, s);
    var l7 := Apply(l6, begin);
    var l8 := Apply(l7, skip);
    ReadyIsSound(program, false);
    var last := if acid then 60 else 41;
    assert !Tail(acid, last, STEP_START) && !Tail(acid, last, STEP_END) && !Tail(acid, last, l2.step);
    assert Washes(acid, l2.step) && Washes(!acid, l8.step) && !Tail(acid, last, l8.step);
    hide Tail, Washes;
    ls := [l0, l1, l2, l3, l4, l5, l6, l7, l8];
    es := [begin, skip, reset, end, ChooseProgram(other), ChooseRecipe(0), begin, skip];
  }

  lemma Choosing(l: LineView, program: nat, recipe: int)
    ensures Apply(Apply(l, ChooseProgram(program)), ChooseRecipe(recipe)) == l.(program := program, recipe := recipe)
    ensures Apply(l, ChooseProgram(program)) == l.(program := program)
  {
  }

  lemma ProgramStarts(c: Choice)
    ensures LoadProgram(NO_PHASE, 8, c).step == 22 && LoadProgram(NO_PHASE, 16, c).step == 42
  {
    assert Pow2(3) == 8 && Pow2(4) == 16;
    LonePower(3, 16);
    LonePower(4, 16);
    hide HighestBelow, Pow2;
  }

  lemma {:induction false} LonePower(k: nat, n: nat)
    requires k < n
    ensures HighestBelow(Pow2(k), n) == k && Pow2(k) < Pow2(n)
  {
    hide Pow2;
    PowerDoubles(n - 1);
    if k < n - 1 {
      LonePower(k, n - 1);
      QuotientZero(Pow2(k), Pow2(n - 1));
    } else {
      QuotientOne(Pow2(k));
    }
  }

  lemma PowerDoubles(n: nat)
    ensures Pow2(n + 1) == 2 * Pow2(n)
  {
  }

  lemma QuotientOne(p: nat)
    requires p >= 1
    ensures p / p == 1
  {
  }
}

/**
  * Whole wash runs as the scheduler drives them: every run ends, it enters
  * exactly the phases of its program, and it never reaches an unknown step.
  */
module CipSchedule {
  import opened CipProgram

  /**
    * One completed step: the positive result its routine reported (zero for
    * an operator's skip) and the route choices in force at that moment.
    */
  datatype Completion = Completion(result: int, choice: Choice)

  const START := Place(STEP_START, NO_PHASE)

  function After(at: Place, cs: seq<Completion>, program: nat): Place
    decreases |cs|
  {
    if cs == [] || at.step == STEP_END then at
    else After(GoToStep(at, cs[0].result, program, cs[0].choice), cs[1..], program)
  }

  /**
    * A concentration check that did not succeed sends the preparation round
    * its loop once more.
    */
  predicate FailedCheck(at: Place, c: Completion) {
    at.step in {108, 118} && c.result != 1
  }

  function Failures(at: Place, cs: seq<Completion>, program: nat): nat
    decreases |cs|
  {
    if cs == [] || at.step == STEP_END then 0
    else (if FailedCheck(at, cs[0]) then 1 else 0)
         + Failures(GoToStep(at, cs[0].result, program, cs[0].choice), cs[1..], program)
  }

  /** The phases whose first step the run enters, in order. */
  function Entered(at: Place, cs: seq<Completion>, program: nat): seq<int>
    decreases |cs|
  {
    if cs == [] || at.step == STEP_END then []
    else
      var next := GoToStep(at, cs[0].result, program, cs[0].choice);
      (if LoadsProgram(at.step, program) && next.step != STEP_END then [next.prg] else [])
      + Entered(next, cs[1..], program)
  }

  predicate InPhase(step: int, prg: int) {
    match prg
    case 7 => step in {5, 7, 8, 9, 16}
    case 6 => 10 <= step <= 15
    case 5 => Caustic(step)
    case 3 => Caustic(step)
    case 4 => step in {42, 43, 44, 46, 48, 49, 53, 54, 55, 57, 59, 60}
    case 2 => 61 <= step <= 67
    case 1 => 71 <= step <= 79
    case 0 => step in {81, 83, 84, 85, 86, 91}
    case 9 => step in {105, 106, 108, 109, 111}
    case 8 => step in {115, 116, 118, 119, 121}
    case 11 => 151 <= step <= 188 && step !in {158, 159, 165, 166, 171, 172, 177, 178}
    case 10 => step == 300
    case _ => false
  }

  predicate Caustic(step: int) {
    step in {22, 23, 24, 26, 28, 29, 31, 33, 34, 35, 37, 39, 40}
  }

  /** Places a run can stand at. */
  predicate OnTrack(at: Place) {
    at == START || at.step == STEP_END || InPhase(at.step, at.prg)
  }

  lemma GoToStepStaysOnTrack(at: Place, param: int, program: nat, c: Choice)
    requires OnTrack(at) && at.step != STEP_END
    ensures OnTrack(GoToStep(at, param, program, c))
    ensures GoToStep(at, param, program, c).step != ERR_UNKNOWN_STEP
  {
    if LoadsProgram(at.step, program) {
      LoadStaysOnTrack(at.prg, program, c);
    } else {
      SuccessorStaysOnTrack(at, param, program, c);
    }
  }

  lemma LoadStaysOnTrack(prg: int, program: nat, c: Choice)
    requires prg == NO_PHASE || 0 <= prg
    ensures OnTrack(LoadProgram(prg, program, c)) && LoadProgram(prg, program, c).step != ERR_UNKNOWN_STEP
  {
  }

  lemma SuccessorStaysOnTrack(at: Place, param: int, program: nat, c: Choice)
    requires OnTrack(at) && at.step != STEP_END && !LoadsProgram(at.step, program)
    ensures var s := Successor(at.step, param, program, c); OnTrack(Place(s, at.prg)) && s != ERR_UNKNOWN_STEP
  {
  }

  /** Phases still to come are numbered from Level down. */
  function Level(at: Place): (r: nat)
    requires OnTrack(at)
    ensures r <= 17
  {
    if at.step == STEP_END then 0
    else if at.step == STEP_START then 17
    else at.prg + 1
  }

  /**
    * Steps of one phase, ordered by the route through it. Steps 9, 109 and
    * 119 have numbers that do not follow that order.
    */
  function Rank(step: int): (r: nat)
    ensures r <= 800
  {
    if step == 9 then 767
    else if step == 109 then 589
    else if step == 119 then 569
    else if 0 <= step <= 300 then 2 * (400 - step)
    else 0
  }

  function Measure(at: Place, failures: nat): nat
    requires OnTrack(at)
  {
    if at.step == STEP_END then 0
    else 1000 * (Level(at) + failures) + Rank(at.step)
  }

  lemma StepDecreasesMeasure(at: Place, c: Completion, program: nat, failures: nat)
    requires OnTrack(at) && at.step != STEP_END
    requires FailedCheck(at, c) ==> failures > 0
    ensures OnTrack(GoToStep(at, c.result, program, c.choice))
    ensures Measure(GoToStep(at, c.result, program, c.choice), if FailedCheck(at, c) then failures - 1 else failures)
         < Measure(at, failures)
  {
    GoToStepStaysOnTrack(at, c.result, program, c.choice);
    hide OnTrack;
  }

  /**
    * However the choices change on the way, a run that has seen that many
    * completions is over: only failed checks can lengthen it.
    */
  lemma {:induction false} RunEnds(at: Place, cs: seq<Completion>, program: nat)
    requires OnTrack(at)
    requires |cs| >= Measure(at, Failures(at, cs, program))
    ensures After(at, cs, program).step == STEP_END
    decreases |cs|
  {
    if at.step != STEP_END {
      var next := GoToStep(at, cs[0].result, program, cs[0].choice);
      StepDecreasesMeasure(at, cs[0], program, Failures(at, cs, program));
      RunEnds(next, cs[1..], program);
    }
  }

  lemma {:induction false} RunNeverLost(at: Place, cs: seq<Completion>, program: nat)
    requires OnTrack(at)
    ensures OnTrack(After(at, cs, program))
    decreases |cs|
  {
    if cs != [] && at.step != STEP_END {
      GoToStepStaysOnTrack(at, cs[0].result, program, cs[0].choice);
      RunNeverLost(GoToStep(at, cs[0].result, program, cs[0].choice), cs[1..], program);
    }
  }

  /** The loop of a preparation, caustic or acid. */
  predicate InLoop(prg: int, at: Place) {
    at.prg == prg &&
    ((prg == PRG_NAVS && at.step in {105, 106, 108, 109}) || (prg == PRG_NAVK && at.step in {115, 116, 118, 119}))
  }

  /** Every concentration check along the run fails. */
  predicate ChecksFail(at: Place, cs: seq<Completion>, program: nat)
    decreases |cs|
  {
    cs != [] && at.step != STEP_END ==>
      (at.step in {108, 118} ==> FailedCheck(at, cs[0]))
      && ChecksFail(GoToStep(at, cs[0].result, program, cs[0].choice), cs[1..], program)
  }

  /**
    * Past the loop: at the last step of the preparation, in a later phase or
    * at the end.
    */
  predicate PastLoop(prg: int, at: Place) {
    OnTrack(at) && at.step != STEP_START
    && (at.step == STEP_END || at.prg < prg || (at.prg == prg && at.step == if prg == PRG_NAVS then 111 else 121))
  }

  lemma LoopStep(prg: int, at: Place, c: Completion, program: nat)
    requires InLoop(prg, at)
    ensures var next := GoToStep(at, c.result, program, c.choice);
      if at.step in {108, 118} && !FailedCheck(at, c) then PastLoop(prg, next) else InLoop(prg, next)
  {
  }

  lemma PastLoopStep(prg: int, at: Place, c: Completion, program: nat)
    requires (prg == PRG_NAVS || prg == PRG_NAVK) && PastLoop(prg, at) && at.step != STEP_END
    ensures PastLoop(prg, GoToStep(at, c.result, program, c.choice))
  {
    hide OnTrack, Successor;
    GoToStepStaysOnTrack(at, c.result, program, c.choice);
    LaterPhase(at, c, program);
  }

  /** The phase changes only to a lower one, and no run comes back to its start. */
  lemma LaterPhase(at: Place, c: Completion, program: nat)
    requires OnTrack(at) && at.step != STEP_END && at.step != STEP_START
    ensures var next := GoToStep(at, c.result, program, c.choice);
      next.step != STEP_START
      && (next.step == STEP_END || (if LoadsProgram(at.step, program) then next.prg < at.prg else next.prg == at.prg))
  {
  }

  lemma {:induction false} NeverBackInLoop(prg: int, at: Place, cs: seq<Completion>, program: nat)
    requires (prg == PRG_NAVS || prg == PRG_NAVK) && PastLoop(prg, at)
    ensures PastLoop(prg, After(at, cs, program))
    decreases |cs|
  {
    hide GoToStep, PastLoop;
    if cs != [] && at.step != STEP_END {
      PastLoopStep(prg, at, cs[0], program);
      NeverBackInLoop(prg, GoToStep(at, cs[0].result, program, cs[0].choice), cs[1..], program);
    }
  }

  lemma PastIsNotIn(prg: int, at: Place)
    requires PastLoop(prg, at)
    ensures !InLoop(prg, at)
  {
  }

  /**
    * A preparation stays in its loop exactly as long as all its checks fail,
    * whatever the other steps report: this is why RunEnds counts the failures.
    */
  lemma {:induction false} FailingPreparationLoops(prg: int, at: Place, cs: seq<Completion>, program: nat)
    requires InLoop(prg, at)
    ensures InLoop(prg, After(at, cs, program)) <==> ChecksFail(at, cs, program)
    decreases |cs|
  {
    hide GoToStep, PastLoop;
    if cs != [] {
      var next := GoToStep(at, cs[0].result, program, cs[0].choice);
      LoopStep(prg, at, cs[0], program);
      if InLoop(prg, next) {
        FailingPreparationLoops(prg, next, cs[1..], program);
        if PastLoop(prg, next) { PastIsNotIn(prg, next); }
      } else {
        NeverBackInLoop(prg, next, cs[1..], program);
        PastIsNotIn(prg, After(next, cs[1..], program));
      }
    }
  }

  /** The set bits of a program below n, largest first. */
  function BitsDown(p: nat, n: nat): seq<int> {
    if n == 0 then []
    else (if Bit(p, n - 1) then [n - 1] else []) + BitsDown(p, n - 1)
  }

  lemma {:induction false} BitsDownFromHighest(p: nat, n: nat)
    ensures var h := HighestBelow(p, n);
      BitsDown(p, n) == if h < 0 then [] else [h] + BitsDown(p, h)
  {
    if n > 0 && !Bit(p, n - 1) {
      BitsDownFromHighest(p, n - 1);
    }
  }

  /** What a line at this place still has to wash. */
  function ToCome(at: Place, program: nat): seq<int> {
    if at.step == STEP_END || at.prg >= 16 then []
    else BitsDown(program, if at.prg < 0 then 16 else at.prg)
  }

  predicate OnlyKnownPhases(program: nat) {
    forall i: nat | 12 <= i < 16 :: !Bit(program, i)
  }

  lemma StepConsumesPhase(at: Place, c: Completion, program: nat)
    requires OnTrack(at) && at.step != STEP_END
    requires OnlyKnownPhases(program)
    ensures var next := GoToStep(at, c.result, program, c.choice);
      ToCome(at, program)
      == (if LoadsProgram(at.step, program) && next.step != STEP_END then [next.prg] else [])
         + ToCome(next, program)
  {
    hide BitsDown, Bit, HighestBelow;
    if LoadsProgram(at.step, program) {
      BitsDownFromHighest(program, if at.prg < 0 then 16 else at.prg);
    }
  }

  lemma {:induction false} EnteredThenToCome(at: Place, cs: seq<Completion>, program: nat)
    requires OnTrack(at) && OnlyKnownPhases(program)
    ensures Entered(at, cs, program) + ToCome(After(at, cs, program), program) == ToCome(at, program)
    decreases |cs|
  {
    hide GoToStep, ToCome, OnTrack;
    if cs != [] && at.step != STEP_END {
      var next := GoToStep(at, cs[0].result, program, cs[0].choice);
      StepConsumesPhase(at, cs[0], program);
      GoToStepStaysOnTrack(at, cs[0].result, program, cs[0].choice);
      EnteredThenToCome(next, cs[1..], program);
    }
  }

  /**
    * A finished run has washed exactly the phases of its program, largest bit
    * first, if and only if the program has none of the four unknown bits.
    */
  lemma FinishedRunWashesItsProgram(cs: seq<Completion>, program: nat)
    requires After(START, cs, program).step == STEP_END
    ensures Entered(START, cs, program) == BitsDown(program, 16) <==> OnlyKnownPhases(program)
  {
    assert cs != [];
    if OnlyKnownPhases(program) {
      EnteredThenToCome(START, cs, program);
    } else {
      UnknownBitEndsAtOnce(cs, program);
      BitsDownFromHighest(program, 16);
    }
  }

  lemma UnknownBitEndsAtOnce(cs: seq<Completion>, program: nat)
    requires !OnlyKnownPhases(program) && cs != []
    ensures GoToStep(START, cs[0].result, program, cs[0].choice).step == STEP_END
    ensures Entered(START, cs, program) == []
    ensures HighestBelow(program, 16) >= 12
  {
    var next := GoToStep(START, cs[0].result, program, cs[0].choice);
    assert next.step == STEP_END;
    assert Entered(next, cs[1..], program) == [];
  }

  /** The programs an operator can select are all below 4096. */
  lemma SmallProgramsAreKnown(program: nat)
    requires program < 4096
    ensures OnlyKnownPhases(program)
  {
    forall i: nat | 12 <= i < 16 ensures !Bit(program, i) {
      HighPower(i);
      QuotientZero(program, Pow2(i));
    }
  }

  lemma HighPower(i: nat)
    requires 12 <= i < 16
    ensures Pow2(i) >= 4096
  {
    assert Pow2(4) == 16;
    assert Pow2(8) == 256 by { assert Pow2(6) == 64; }
    assert Pow2(12) == 4096 by { assert Pow2(10) == 1024; }
    assert Pow2(14) == 4 * Pow2(12);
  }

  lemma QuotientZero(p: nat, q: nat)
    requires p < q
    ensures p / q == 0
  {
  }
}

/**
  * The route through each phase, step by step, and that a finished program
  * has been to the step that washes in every phase it was given.
  */
module CipRoute {
  import opened CipProgram
  import opened CipSchedule

  /** The steps of a phase in their order, while its concentration check succeeds at once. */
  function Route(prg: int, program: nat, c: Choice): seq<int> {
    match prg
    case 7 => if program == 128 then [5, 7, 8, 16, 9] else [5, 7, 8, 16]
    case 6 => [10, 11, 12, 13, 14, 15]
    case 5 => CausticRoute(c.circTankS)
    case 3 => CausticRoute(c.circTankS)
    case 4 => if c.circTankK then [42, 43, 44, 48, 49, 53, 54, 55, 57, 59, 60]
              else [42, 43, 44, 46, 48, 49, 53, 54, 55, 57, 59, 60]
    case 2 => if Bit(program, 5) || Bit(program, 4) || Bit(program, 3) then [61, 66, 67]
              else [61, 62, 63, 64, 65, 66, 67]
    case 1 => [71, 72, 73, 74, 75, 76, 77, 78, 79]
    case 0 => if c.noFinalRinse then [91] else if program == 1 then [83, 84, 85, 86, 91] else [81, 83, 84, 85, 86, 91]
    case 9 => [105, 106, 108, 111]
    case 8 => [115, 116, 118, 121]
    case 11 => TankRoute(c)
    case 10 => [300]
    case _ => [STEP_END]
  }

  function CausticRoute(viaTank: bool): seq<int> {
    if viaTank then [22, 23, 24, 28, 29, 31, 33, 34, 35, 37, 39, 40]
    else [22, 23, 24, 26, 28, 29, 31, 33, 34, 35, 37, 39, 40]
  }

  /** Self-cleaning: an intermediate rinse replaces nothing, it only comes in between. */
  function TankRoute(c: Choice): seq<int> {
    TankRoute1(c.promS) + TankRoute2(c.promK) + TankRoute3(c.promW) + TankRoute4(c.promS)
  }

  function TankRoute1(prom: bool): seq<int> {
    if prom then [151, 152, 153, 154, 155, 156, 157, 160] else [151, 152, 153, 154, 155, 156, 157]
  }

  function TankRoute2(prom: bool): seq<int> {
    if prom then [161, 162, 163, 164, 167] else [161, 162, 163, 164]
  }

  function TankRoute3(prom: bool): seq<int> { if prom then [168, 169, 170, 173] else [168, 169, 170] }

  function TankRoute4(prom: bool): seq<int> {
    if prom then [174, 175, 176, 179, 180, 181, 182, 183, 184, 185, 186, 187, 188]
    else [174, 175, 176, 180, 181, 182, 183, 184, 185, 186, 187, 188]
  }

  /** Completing step i of the route leads to step i + 1, and only the last step looks for another phase. */
  predicate Leads(route: seq<int>, i: nat, prg: int, program: nat, c: Choice, result: int)
    requires i + 1 < |route|
  {
    route[i] != STEP_END && !LoadsProgram(route[i], program)
    && GoToStep(Place(route[i], prg), result, program, c) == Place(route[i + 1], prg)
  }

  lemma RouteLeads(prg: int, program: nat, c: Choice, result: int, i: nat)
    requires 0 <= prg < 12 && i + 1 < |Route(prg, program, c)|
    requires Route(prg, program, c)[i] in {108, 118} ==> result == 1
    ensures Leads(Route(prg, program, c), i, prg, program, c, result)
  {
    hide LoadProgram, Bit;
    if prg == PRG_SELFCLEAN {
      TankRouteLeads(program, c, result, i);
    } else if prg == PRG_S || prg == PRG_S1 {
      CausticRouteLeads(prg, program, c, result, i);
    } else if prg == PRG_K {
      AcidRouteLeads(program, c, result, i);
    } else {
      OtherRouteLeads(prg, program, c, result, i);
    }
  }

  lemma CausticRouteLeads(prg: int, program: nat, c: Choice, result: int, i: nat)
    requires prg == PRG_S || prg == PRG_S1
    requires i + 1 < |CausticRoute(c.circTankS)|
    ensures Leads(CausticRoute(c.circTankS), i, prg, program, c, result)
  {
  }

  lemma AcidRouteLeads(program: nat, c: Choice, result: int, i: nat)
    requires i + 1 < |Route(PRG_K, program, c)|
    ensures Leads(Route(PRG_K, program, c), i, PRG_K, program, c, result)
  {
    hide Bit;
  }

  lemma OtherRouteLeads(prg: int, program: nat, c: Choice, result: int, i: nat)
    requires prg in {0, 1, 2, 6, 7, 8, 9, 10} && i + 1 < |Route(prg, program, c)|
    requires Route(prg, program, c)[i] in {108, 118} ==> result == 1
    ensures Leads(Route(prg, program, c), i, prg, program, c, result)
  {
    hide Bit;
  }

  function TankNext(step: int, c: Choice): int {
    if step == 157 && !c.promS then 161
    else if step == 164 && !c.promK then 168
    else if step == 170 && !c.promW then 174
    else if step == 176 then if c.promS then 179 else 180
    else if step == 157 then 160
    else if step == 164 then 167
    else if step == 170 then 173
    else step + 1
  }

  lemma TankSteps(program: nat, c: Choice, result: int, step: int)
    requires InPhase(step, PRG_SELFCLEAN) && step != 188
    ensures step != STEP_END && !LoadsProgram(step, program)
    ensures GoToStep(Place(step, PRG_SELFCLEAN), result, program, c) == Place(TankNext(step, c), PRG_SELFCLEAN)
  {
  }

  /** Each step is followed by its successor in a part of the route. */
  predicate Chained(r: seq<int>, c: Choice) {
    r != [] && r[0] != 188
    && (forall i :: 0 <= i < |r| ==> InPhase(r[i], PRG_SELFCLEAN))
    && forall i :: 0 <= i < |r| - 1 ==> r[i] != 188 && r[i + 1] == TankNext(r[i], c)
  }

  lemma ChainsJoin(a: seq<int>, b: seq<int>, c: Choice)
    requires Chained(a, c) && Chained(b, c) && a[|a| - 1] != 188 && b[0] == TankNext(a[|a| - 1], c)
    ensures Chained(a + b, c)
  {
    hide TankNext, InPhase;
  }

  lemma TankRouteNext(c: Choice, i: nat)
    requires i + 1 < |TankRoute(c)|
    ensures var r := TankRoute(c); InPhase(r[i], PRG_SELFCLEAN) && r[i] != 188 && r[i + 1] == TankNext(r[i], c)
  {
    var a, b, d, e := TankRoute1(c.promS), TankRoute2(c.promK), TankRoute3(c.promW), TankRoute4(c.promS);
    TankPartsChain(c);
    assert Chained(TankRoute(c), c) by {
      hide Chained;
      ChainsJoin(a, b, c);
      ChainsJoin(a + b, d, c);
      ChainsJoin(a + b + d, e, c);
    }
  }

  lemma TankPartsChain(c: Choice)
    ensures Chained(TankRoute1(c.promS), c) && Chained(TankRoute2(c.promK), c)
    ensures Chained(TankRoute3(c.promW), c) && Chained(TankRoute4(c.promS), c)
  {
    hide Chained, TankRoute1, TankRoute4;
    FirstTankPart(c);
    LastTankPart(c);
    assert Chained(TankRoute2(c.promK), c) && Chained(TankRoute3(c.promW), c) by { MiddleTankParts(c); }
  }

  lemma FirstTankPart(c: Choice)
    ensures Chained(TankRoute1(c.promS), c)
  {
  }

  lemma MiddleTankParts(c: Choice)
    ensures Chained(TankRoute2(c.promK), c) && Chained(TankRoute3(c.promW), c)
  {
  }

  lemma LastTankPart(c: Choice)
    ensures Chained(TankRoute4(c.promS), c)
  {
    var a := if c.promS then [174, 175, 176, 179] else [174, 175, 176];
    var b := [180, 181, 182, 183, 184, 185, 186, 187, 188];
    assert TankRoute4(c.promS) == a + b;
    assert Chained(a, c);
    assert Chained(b, c) by { LastSteps(c); }
    ChainsJoin(a, b, c);
  }

  lemma LastSteps(c: Choice)
    ensures Chained([180, 181, 182, 183, 184, 185, 186, 187, 188], c)
  {
    var b := [180, 181, 182, 183, 184, 185, 186, 187, 188];
    assert forall i :: 0 <= i < |b| ==> b[i] == 180 + i;
  }

  lemma TankRouteLeads(program: nat, c: Choice, result: int, i: nat)
    requires i + 1 < |TankRoute(c)|
    ensures Leads(TankRoute(c), i, PRG_SELFCLEAN, program, c, result)
  {
    hide TankRoute, GoToStep, InPhase, TankNext, LoadsProgram;
    TankRouteNext(c, i);
    TankSteps(program, c, result, TankRoute(c)[i]);
  }

  /** A route begins at the first step of its phase, and after its last step the next phase is looked for. */
  lemma RouteEnds(prg: int, program: nat, c: Choice)
    requires 0 <= prg < 12
    ensures var r := Route(prg, program, c);
      r != [] && r[0] == PhaseStart(prg, program, c) && LoadsProgram(r[|r| - 1], program)
  {
    hide Bit;
  }

  // ---- Runs of a phase ----

  /** The steps that a run stands at, one after the other. */
  function StepsOf(at: Place, cs: seq<Completion>, program: nat): seq<int>
    decreases |cs|
  {
    if cs == [] || at.step == STEP_END then [at.step]
    else [at.step] + StepsOf(GoToStep(at, cs[0].result, program, cs[0].choice), cs[1..], program)
  }

  lemma {:induction false} RouteFrom(prg: int, program: nat, c: Choice, cs: seq<Completion>, i: nat)
    requires 0 <= prg < 12 && i + |cs| + 1 == |Route(prg, program, c)|
    requires forall k :: 0 <= k < |cs| ==> cs[k].choice == c
    requires Failures(Place(Route(prg, program, c)[i], prg), cs, program) == 0
    ensures var r := Route(prg, program, c);
      && StepsOf(Place(r[i], prg), cs, program) == r[i..]
      && After(Place(r[i], prg), cs, program) == Place(r[|r| - 1], prg)
    decreases |cs|
  {
    hide Route, GoToStep, LoadsProgram;
    var r := Route(prg, program, c);
    if cs != [] {
      RouteLeads(prg, program, c, cs[0].result, i);
      RouteFrom(prg, program, c, cs[1..], i + 1);
      assert r[i..] == [r[i]] + r[i + 1..];
    } else {
      assert r[i..] == [r[i]];
    }
  }

  /**
    * From its first step on, a phase goes through exactly the steps of its
    * route and then looks for the next phase, whatever the steps report but
    * for a failed concentration check.
    */
  lemma PhaseIsItsRoute(prg: int, program: nat, c: Choice, cs: seq<Completion>)
    requires 0 <= prg < 12 && |cs| + 1 == |Route(prg, program, c)|
    requires forall k :: 0 <= k < |cs| ==> cs[k].choice == c
    requires Failures(Place(PhaseStart(prg, program, c), prg), cs, program) == 0
    ensures var at := Place(PhaseStart(prg, program, c), prg);
      && StepsOf(at, cs, program) == Route(prg, program, c)
      && LoadsProgram(After(at, cs, program).step, program)
  {
    hide Route, PhaseStart, LoadsProgram;
    RouteEnds(prg, program, c);
    RouteFrom(prg, program, c, cs, 0);
  }

  /** A failed check sends a preparation through dosing and circulation to the next check. */
  lemma FailedCheckDosesAgain(program: nat, caustic: Completion, acid: Completion, c: Choice, result: int)
    requires caustic.result != 1 && acid.result != 1
    ensures var dose, again := Completion(result, c), Completion(result, c);
      && StepsOf(Place(108, PRG_NAVS), [caustic, dose, again], program) == [108, 109, 106, 108]
      && StepsOf(Place(118, PRG_NAVK), [acid, dose, again], program) == [118, 119, 116, 118]
  {
    hide LoadProgram;
    var dose := Completion(result, c);
    assert [caustic, dose, dose][1..] == [dose, dose] && [dose, dose][1..] == [dose] && [dose][1..] == [];
    assert [acid, dose, dose][1..] == [dose, dose];
    assert StepsOf(Place(106, PRG_NAVS), [dose], program) == [106] + StepsOf(Place(108, PRG_NAVS), [], program);
    assert StepsOf(Place(109, PRG_NAVS), [dose, dose], program)
        == [109] + StepsOf(Place(106, PRG_NAVS), [dose], program);
    assert StepsOf(Place(116, PRG_NAVK), [dose], program) == [116] + StepsOf(Place(118, PRG_NAVK), [], program);
    assert StepsOf(Place(119, PRG_NAVK), [dose, dose], program)
        == [119] + StepsOf(Place(116, PRG_NAVK), [dose], program);
  }

  // ---- Whole programs ----

  /** The step that does what a phase is for. */
  function WashStep(prg: int): int {
    match prg
    case 5 => 28
    case 3 => 28
    case 4 => 48
    case 2 => 66
    case 1 => 77
    case 6 => 11
    case 7 => 8
    case 9 => 108
    case 8 => 118
    case _ => STEP_END
  }

  predicate BeforeWash(prg: int, step: int) {
    match prg
    case 5 => 22 <= step <= 28
    case 3 => 22 <= step <= 28
    case 4 => 42 <= step <= 48
    case 2 => 61 <= step <= 66
    case 1 => 71 <= step <= 77
    case 6 => 10 <= step <= 11
    case 7 => 5 <= step <= 8
    case 9 => step in {105, 106, 108, 109}
    case 8 => step in {115, 116, 118, 119}
    case _ => false
  }

  predicate Visits(at: Place, cs: seq<Completion>, program: nat, target: Place)
    decreases |cs|
  {
    at == target ||
    (cs != [] && at.step != STEP_END
     && Visits(GoToStep(at, cs[0].result, program, cs[0].choice), cs[1..], program, target))
  }

  /** The wash of a phase is still to come. */
  predicate Ahead(at: Place, prg: int, program: nat) {
    (at.prg == prg && at.step != STEP_END && BeforeWash(prg, at.step)) || prg in ToCome(at, program)
  }

  lemma StartIsBeforeWash(prg: int, program: nat, c: Choice)
    requires 1 <= prg <= 9
    ensures BeforeWash(prg, PhaseStart(prg, program, c))
  {
  }

  lemma WashIsNext(at: Place, prg: int, program: nat, c: Completion)
    requires OnTrack(at) && 1 <= prg <= 9 && at.prg == prg && BeforeWash(prg, at.step) && at.step != WashStep(prg)
    ensures var next := GoToStep(at, c.result, program, c.choice); next.prg == prg && BeforeWash(prg, next.step)
  {
    hide LoadProgram, Bit;
  }

  lemma StaysAhead(at: Place, prg: int, program: nat, c: Completion)
    requires OnTrack(at) && at.step != STEP_END && OnlyKnownPhases(program)
    requires 1 <= prg <= 9 && Ahead(at, prg, program) && at != Place(WashStep(prg), prg)
    ensures Ahead(GoToStep(at, c.result, program, c.choice), prg, program)
  {
    hide ToCome, OnTrack, GoToStep, LoadsProgram, OnlyKnownPhases, WashStep;
    var next := GoToStep(at, c.result, program, c.choice);
    if at.prg == prg && BeforeWash(prg, at.step) {
      WashIsNext(at, prg, program, c);
      WashedIsNotOver(prg, next.step);
    } else {
      StepConsumesPhase(at, c, program);
      if prg !in ToCome(next, program) {
        assert next.prg == prg && LoadsProgram(at.step, program) && next.step != STEP_END;
        LoadedStep(at, c, program);
        StartIsBeforeWash(prg, program, c.choice);
      }
    }
  }

  lemma WashedIsNotOver(prg: int, step: int)
    requires BeforeWash(prg, step)
    ensures step != STEP_END
  {
  }

  lemma LoadedStep(at: Place, c: Completion, program: nat)
    requires LoadsProgram(at.step, program)
    ensures var next := GoToStep(at, c.result, program, c.choice); next.step == PhaseStart(next.prg, program, c.choice)
  {
    hide PhaseStart, NextPhase;
  }

  lemma {:induction false} AheadIsVisited(at: Place, prg: int, program: nat, cs: seq<Completion>)
    requires OnTrack(at) && OnlyKnownPhases(program) && 1 <= prg <= 9 && Ahead(at, prg, program)
    requires After(at, cs, program).step == STEP_END
    ensures Visits(at, cs, program, Place(WashStep(prg), prg))
    decreases |cs|
  {
    hide OnTrack, GoToStep, Ahead, OnlyKnownPhases, WashStep;
    if at != Place(WashStep(prg), prg) {
      EndIsNotAhead(at, prg, program);
      StaysAhead(at, prg, program, cs[0]);
      GoToStepStaysOnTrack(at, cs[0].result, program, cs[0].choice);
      AheadIsVisited(GoToStep(at, cs[0].result, program, cs[0].choice), prg, program, cs[1..]);
    }
  }

  lemma EndIsNotAhead(at: Place, prg: int, program: nat)
    requires Ahead(at, prg, program)
    ensures at.step != STEP_END
  {
  }

  lemma {:induction false} SetBitIsToCome(p: nat, n: nat, k: nat)
    requires k < n && Bit(p, k)
    ensures k in BitsDown(p, n)
  {
    hide Bit;
    if k < n - 1 { SetBitIsToCome(p, n - 1, k); }
  }

  /**
    * A finished run of a program has been to the washing step of every phase
    * of the program: 28 for both caustic phases, 48 for acid, 66 for hot
    * water, 77 for the disinfectant, 11 for circulation, 8 for the rinse,
    * and the checks 108 and 118 of the preparations. The options of the
    * route may change at any time.
    */
  lemma FinishedRunHasWashed(cs: seq<Completion>, program: nat, prg: int)
    requires After(START, cs, program).step == STEP_END && OnlyKnownPhases(program)
    requires 1 <= prg <= 9 && Bit(program, prg)
    ensures Visits(START, cs, program, Place(WashStep(prg), prg))
  {
    SetBitIsToCome(program, 16, prg);
    assert Ahead(START, prg, program);
    AheadIsVisited(START, prg, program, cs);
  }
}

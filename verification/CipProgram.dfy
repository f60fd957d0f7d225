/**
  * The wash program of a CIP line: a bit mask of phases, the search for the
  * next phase, and the successor of every step inside a phase.
  */
module CipProgram {

  /** Phase numbers, which are also bit positions in the program mask. */
  const PRG_SELFCLEAN := 11
  const PRG_ASO := 10
  const PRG_NAVS := 9
  const PRG_NAVK := 8
  const PRG_PRO := 7
  const PRG_CIRC := 6
  const PRG_S := 5
  const PRG_K := 4
  const PRG_S1 := 3
  const PRG_D := 2
  const PRG_SANITIZER := 1
  const PRG_OKO := 0
  const NO_PHASE := -1

  /** Whole programs the step table compares with. */
  const SPROG_RINSING_CLEAN: nat := 1
  const SPROG_RINSING: nat := 128
  const SPROG_ACID_PREPARATION: nat := 256
  const SPROG_CAUSTIC_PREPARATION: nat := 512
  const SPROG_SELF_CLEAN: nat := 2048

  const STEP_START := 0
  const STEP_END := 555
  const ERR_UNKNOWN_STEP := -2

  function Pow2(n: nat): (r: nat)
    ensures r >= 1
  {
    if n == 0 then 1 else 2 * Pow2(n - 1)
  }

  predicate Bit(p: nat, i: nat) {
    (p / Pow2(i)) % 2 == 1
  }

  /** The largest phase below n whose bit is set, or NO_PHASE. */
  function HighestBelow(p: nat, n: nat): (r: int)
    ensures NO_PHASE <= r < n
    ensures r >= 0 ==> Bit(p, r)
    ensures forall i: nat | r < i < n :: !Bit(p, i)
  {
    if n == 0 then NO_PHASE
    else if Bit(p, n - 1) then n - 1
    else HighestBelow(p, n - 1)
  }

  function NextPhase(cur: int, p: nat): int {
    if cur < 0 then HighestBelow(p, 16)
    else if cur <= 16 then HighestBelow(p, cur)
    else NO_PHASE
  }

  /**
    * The search loop itself. The contract says which phase it finds without
    * mentioning the order in which the bits are tried.
    */
  method GetNexpPrg(cur: int, prg: nat) returns (r: int)
    ensures r == NO_PHASE || (0 <= r < 16 && (cur < 0 || r < cur) && Bit(prg, r))
    ensures cur <= 16 ==> forall i: nat | i < 16 && (cur < 0 || i < cur) && Bit(prg, i) :: i <= r
    ensures r == NextPhase(cur, prg)
  {
    var tmp := if cur < 0 then 15 else cur - 1;
    if 0 <= tmp < 16 {
      var i := tmp;
      while i >= 0
        invariant -1 <= i <= tmp
        invariant HighestBelow(prg, i + 1) == HighestBelow(prg, tmp + 1)
      {
        if (prg / Pow2(i)) % 2 == 1 {
          return i;
        }
        i := i - 1;
      }
      return NO_PHASE;
    }
    return NO_PHASE;
  }

  /**
    * What the recipe, the self-clean parameters and the operator decide
    * about the route through a phase.
    */
  datatype Choice = Choice(
    circTankS: bool,     // circulate caustic through its tank
    circTankK: bool,     // circulate acid through its tank
    promS: bool,         // intermediate rinse volume of the caustic tank is positive
    promK: bool,
    promW: bool,
    noFinalRinse: bool)

  /** Where a line stands in its program. */
  datatype Place = Place(step: int, prg: int)

  function PhaseStart(prg: int, program: nat, c: Choice): int {
    match prg
    case 7 => 5
    case 6 => 10
    case 5 => 22
    case 4 => 42
    case 3 => 22
    case 2 => 61
    case 1 => 71
    case 0 =>
      if c.noFinalRinse then 91
      else if program == SPROG_RINSING_CLEAN then 83
      else 81
    case 9 => 105
    case 8 => 115
    case 11 => 151
    case 10 => 300
    case _ => STEP_END
  }

  function LoadProgram(prg: int, program: nat, c: Choice): Place {
    var next := NextPhase(prg, program);
    Place(PhaseStart(next, program, c), next)
  }

  /** The steps after which the scheduler looks for the next phase. */
  predicate LoadsProgram(step: int, program: nat) {
    step in {0, 9, 15, 40, 60, 67, 79, 91, 111, 121, 188, 300}
    || (step == 16 && program != SPROG_RINSING)
  }

  /** True when the program washes with caustic or acid (KS_MASK). */
  predicate WashesWithMedium(program: nat) {
    Bit(program, PRG_S) || Bit(program, PRG_K) || Bit(program, PRG_S1)
  }

  /** The successor of a step that does not end its phase. */
  function Successor(step: int, param: int, program: nat, c: Choice): int {
    match step
    case 5 => 7
    case 8 => 16
    case 16 => 9
    case 24 => if c.circTankS then 28 else 26
    case 26 => 28
    case 29 => 31
    case 31 => 33
    case 35 => 37
    case 37 => 39
    case 44 => if c.circTankK then 48 else 46
    case 46 => 48
    case 49 => 53
    case 55 => 57
    case 57 => 59
    case 61 => if WashesWithMedium(program) then 66 else 62
    case 81 => 83
    case 86 => 91
    case 106 => 108
    case 108 => if param == 1 then 111 else 109
    case 109 => 106
    case 116 => 118
    case 118 => if param == 1 then 121 else 119
    case 119 => 116
    case 157 => if c.promS then 160 else 161
    case 164 => if c.promK then 167 else 168
    case 170 => if c.promW then 173 else 174
    case 176 => if c.promS then 179 else 180
    case _ =>
      if step in {6, 7, 22, 23, 28, 33, 34, 39, 42, 43, 48, 53, 54, 59, 83, 84, 85, 105, 115}
         || 10 <= step <= 14 || 62 <= step <= 66 || 71 <= step <= 78 || 151 <= step <= 187
      then step + 1
      else ERR_UNKNOWN_STEP
  }

  function GoToStep(at: Place, param: int, program: nat, c: Choice): Place {
    if LoadsProgram(at.step, program) then LoadProgram(at.prg, program, c)
    else Place(Successor(at.step, param, program, c), at.prg)
  }
}

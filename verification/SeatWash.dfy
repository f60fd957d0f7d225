/**
  * The rotation of valve-seat washing (PAC/common/operation_mngr.cpp, class open_seat_action): groups of upper and
  * lower seats take turns, with a wait before each turn. A group is kept as one flag: its valves are being seat-washed.
  */
module SeatWash {
  datatype Phase = Waiting | OpenUpper | OpenLower

  datatype Seats = Seats(phase: Phase, nextPhase: Phase, group: nat, wait: nat, start: int,
                         upper: seq<bool>, lower: seq<bool>)

  datatype Times = Times(upper: nat, lower: nat)

  function Count(s: Seats): nat {
    |s.upper| + |s.lower|
  }

  function Longest(t: Times): nat {
    if t.upper > t.lower then t.upper else t.lower
  }

  // ---- waiting times -----------------------------------------------------------------------------------------------

  const UINT32 := 0x1_0000_0000

  /** A machine word for sizes is 32 or 64 bits wide. */
  predicate Word(word: nat) {
    word == UINT32 || word == UINT32 * UINT32
  }

  /** Unsigned arithmetic in the size type, truncated to 32 bits when stored. */
  function WaitTime(period: nat, flip: nat, groups: nat, word: nat): nat
    requires Word(word)
  {
    ((period - flip * groups) % word / (groups + 1)) % UINT32
  }

  lemma TimesAtLeast(d: nat, q: nat)
    requires d > 0
    ensures d * q >= q
  {
  }

  lemma QuotientBounds(a: nat, d: nat)
    requires d > 0
    ensures d * (a / d) <= a < d * (a / d) + d && 0 <= a / d <= a
  {
    var q, r := a / d, a % d;
    assert a == d * q + r && 0 <= r < d;
    TimesAtLeast(d, q);
  }

  /**
    * All the washes and the waits around them fit into the period if and only if the washes alone do, and then less
    * than one unit per wait is left over. When the washes alone do not fit, the subtraction wraps around.
    */
  lemma WaitsFit(period: nat, flip: nat, groups: nat, word: nat)
    requires Word(word) && period < UINT32
    ensures var wait := WaitTime(period, flip, groups, word);
            && (groups * flip + (groups + 1) * wait <= period <==> groups * flip <= period)
            && (groups * flip <= period ==> period < groups * flip + (groups + 1) * wait + (groups + 1))
  {
    var wait := WaitTime(period, flip, groups, word);
    if groups * flip <= period {
      var rest := period - flip * groups;
      assert 0 <= flip * groups;
      assert rest % word == rest;
      QuotientBounds(rest, groups + 1);
      assert wait == rest / (groups + 1);
    } else {
      assert (groups + 1) * wait >= 0;
    }
  }

  // ---- one call ----------------------------------------------------------------------------------------------------

  function Init(s: Seats, t: Times, period: nat, now: int, word: nat): Seats
    requires Word(word)
  {
    if Count(s) == 0 then s
    else s.(start := now, phase := Waiting, nextPhase := OpenUpper, group := 0,
            wait := WaitTime(period, Longest(t), Count(s), word))
  }

  predicate InRange(s: Seats) {
    && (s.phase == OpenUpper && s.upper != [] ==> s.group < |s.upper|)
    && (s.phase == OpenLower && s.lower != [] ==> s.group < |s.lower|)
  }

  function Finalize(s: Seats): (r: Seats)
    requires InRange(s)
  {
    if s.phase == OpenUpper && s.upper != [] then s.(upper := s.upper[s.group := false])
    else if s.phase == OpenLower && s.lower != [] then s.(lower := s.lower[s.group := false])
    else s
  }

  /** The turn is over: the group closes, and after the next wait comes the next group of the row or the other row. */
  function TurnOver(s: Seats, now: int): Seats
    requires InRange(s) && s.phase != Waiting
  {
    var row := if s.phase == OpenUpper then |s.upper| else |s.lower|;
    var other := if s.phase == OpenUpper then OpenLower else OpenUpper;
    var r := Finalize(s).(phase := Waiting, start := now);
    if s.group + 1 >= row then r.(group := 0, nextPhase := other) else r.(group := s.group + 1)
  }

  function Evaluate(s: Seats, t: Times, now: int): Seats
    requires InRange(s)
  {
    if Count(s) == 0 then s
    else match s.phase
      case Waiting => if now - s.start > s.wait then s.(phase := s.nextPhase, start := now) else s
      case OpenUpper =>
        if s.upper == [] then s.(phase := OpenLower, nextPhase := OpenLower)
        else if now - s.start < t.upper then s.(upper := s.upper[s.group := true])
        else TurnOver(s, now)
      case OpenLower =>
        if s.lower == [] then s.(phase := OpenUpper, nextPhase := OpenUpper)
        else if now - s.start < t.lower then s.(lower := s.lower[s.group := true])
        else TurnOver(s, now)
  }

  // ---- the rotation ------------------------------------------------------------------------------------------------

  /** The row whose turn it is, or is next. */
  function Row(s: Seats): Phase {
    if s.phase == Waiting then s.nextPhase else s.phase
  }

  /** The number of the group whose turn it is, counting the upper groups first. A row without groups is passed over. */
  function Turn(s: Seats): nat {
    if Row(s) == OpenLower then if s.lower == [] then 0 else |s.upper| + s.group
    else if s.upper == [] then 0 else s.group
  }

  function Group(s: Seats, k: nat): bool
    requires k < Count(s)
  {
    if k < |s.upper| then s.upper[k] else s.lower[k - |s.upper|]
  }

  /** The index is in range for its row, and only the group whose turn it is may be open, and not while waiting. */
  ghost predicate Rotating(s: Seats) {
    && s.nextPhase != Waiting && Count(s) > 0
    && (s.phase != Waiting ==> s.phase == s.nextPhase)
    && (Row(s) == OpenUpper ==> if s.upper == [] then s.group == 0 else s.group < |s.upper|)
    && (Row(s) == OpenLower ==> if s.lower == [] then s.group == 0 else s.group < |s.lower|)
    && forall k :: 0 <= k < Count(s) && Group(s, k) ==> s.phase != Waiting && k == Turn(s)
  }

  ghost predicate Closed(s: Seats) {
    forall k :: 0 <= k < Count(s) ==> !Group(s, k)
  }

  datatype Call = Working(times: Times) | Ending

  datatype Event = Event(call: Call, at: int)

  function Apply(s: Seats, e: Event): Seats
    requires InRange(s)
  {
    match e.call
    case Working(t) => Evaluate(s, t, e.at)
    case Ending => Finalize(s)
  }

  /** Does the call end a turn? */
  predicate EndsTurn(s: Seats, e: Event) {
    && e.call.Working? && Count(s) > 0
    && match s.phase
       case Waiting => false
       case OpenUpper => s.upper != [] && !(e.at - s.start < e.call.times.upper)
       case OpenLower => s.lower != [] && !(e.at - s.start < e.call.times.lower)
  }

  lemma CallKeepsRotating(s: Seats, e: Event)
    requires Rotating(s)
    ensures var r := Apply(s, e);
            && Rotating(r) && |r.upper| == |s.upper| && |r.lower| == |s.lower|
            && Turn(r) == if EndsTurn(s, e) then (if Turn(s) + 1 == Count(s) then 0 else Turn(s) + 1) else Turn(s)
  {
    var r := Apply(s, e);
    if e.call.Ending? || s.phase == Waiting {
      assert forall k :: 0 <= k < Count(s) && Group(r, k) ==> Group(s, k);
    } else if EndsTurn(s, e) {
      assert forall k :: 0 <= k < Count(s) && Group(r, k) ==> Group(s, k) && k != Turn(s);
    } else {
      assert forall k :: 0 <= k < Count(s) && Group(r, k) ==> Group(s, k) || k == Turn(s);
    }
  }

  /** How long a turn lasts: the time of its row. */
  function TurnTime(s: Seats, t: Times): nat {
    if s.phase == OpenUpper then t.upper else t.lower
  }

  /**
    * While its turn lasts the group whose turn it is is open after every evaluation; when its time has passed it is
    * shut and the wait before the next turn begins.
    */
  lemma TurnIsWashed(s: Seats, t: Times, now: int)
    requires Rotating(s) && s.phase != Waiting
    requires if s.phase == OpenUpper then s.upper != [] else s.lower != []
    ensures var r := Evaluate(s, t, now);
            && (Group(r, Turn(s)) <==> now - s.start < TurnTime(s, t))
            && (r.phase == s.phase <==> now - s.start < TurnTime(s, t))
            && (r.phase != s.phase ==> r.phase == Waiting && r.start == now)
            && (forall k :: 0 <= k < Count(s) && k != Turn(s) ==> !Group(r, k))
  {
    var r := Evaluate(s, t, now);
    assert forall k :: 0 <= k < Count(s) && Group(r, k) ==> Group(s, k) || k == Turn(s);
  }

  /** A wait lasts for more than the time computed at the start, and then the turn begins. */
  lemma WaitIsKept(s: Seats, t: Times, now: int)
    requires Rotating(s) && s.phase == Waiting
    ensures var r := Evaluate(s, t, now);
            if now - s.start > s.wait then r == s.(phase := s.nextPhase, start := now) else r == s
  {
  }

  /** The action starts with a wait, before the first upper group. */
  lemma StartWaits(s: Seats, t: Times, period: nat, now: int, word: nat)
    requires Word(word) && Count(s) > 0
    ensures var r := Init(s, t, period, now, word);
            && r.phase == Waiting && r.nextPhase == OpenUpper && r.group == 0 && r.start == now
            && r.upper == s.upper && r.lower == s.lower
            && r.wait == WaitTime(period, if t.upper > t.lower then t.upper else t.lower, |s.upper| + |s.lower|, word)
  {
  }

  function After(s: Seats, es: seq<Event>): Seats
    requires Rotating(s)
    decreases |es|
  {
    if es == [] then s
    else
      CallKeepsRotating(s, es[0]);
      After(Apply(s, es[0]), es[1..])
  }

  /** The groups whose turns ended, in the order in which they ended. */
  ghost function Log(s: Seats, es: seq<Event>): seq<nat>
    requires Rotating(s)
    decreases |es|
  {
    if es == [] then []
    else
      CallKeepsRotating(s, es[0]);
      (if EndsTurn(s, es[0]) then [Turn(s)] else []) + Log(Apply(s, es[0]), es[1..])
  }

  lemma NextModulo(k: nat, n: nat)
    requires n > 0
    ensures (k + 1) % n == if k % n + 1 == n then 0 else k % n + 1
  {
    var q := k / n;
    assert k == n * q + k % n;
    if k % n + 1 == n {
      assert k + 1 == n * (q + 1);
      ModuloIs(k + 1, n, q + 1, 0);
    } else {
      ModuloIs(k + 1, n, q, k % n + 1);
    }
  }

  lemma TimesApart(n: nat, a: int, b: int)
    requires a < b
    ensures n * a + n <= n * b
  {
    assert n * b == n * a + n * (b - a);
    TimesAtLeastOne(n, b - a);
  }

  lemma TimesAtLeastOne(n: nat, d: int)
    requires d >= 1
    ensures n * d >= n
  {
  }

  lemma ModuloIs(k: nat, n: nat, q: nat, r: nat)
    requires n > 0 && r < n && k == n * q + r
    ensures k % n == r
  {
    var q1, r1 := k / n, k % n;
    assert k == n * q1 + r1 && 0 <= r1 < n;
    if q1 < q {
      TimesApart(n, q1, q);
    } else if q1 > q {
      TimesApart(n, q, q1);
    }
  }

  /**
    * Over any run of evaluations and endings, however long, the turns come in strict rotation: starting from group
    * first, the k-th turn to end is that of group first + k, counted round through all upper and then all lower groups.
    */
  lemma {:induction false} TurnsRotate(s: Seats, es: seq<Event>, first: nat)
    requires Rotating(s) && Turn(s) == first % Count(s)
    ensures forall k :: 0 <= k < |Log(s, es)| ==> Log(s, es)[k] == (first + k) % Count(s)
    decreases |es|
  {
    if es != [] {
      var r := Apply(s, es[0]);
      CallKeepsRotating(s, es[0]);
      NextModulo(first, Count(s));
      var next := if EndsTurn(s, es[0]) then first + 1 else first;
      TurnsRotate(r, es[1..], next);
      var log, rest := Log(s, es), Log(r, es[1..]);
      forall k | 0 <= k < |log| ensures log[k] == (first + k) % Count(s) {
        if EndsTurn(s, es[0]) && k > 0 { assert log[k] == rest[k - 1] == (next + (k - 1)) % Count(r); }
      }
    }
  }

  lemma {:induction false} RunKeepsRotating(s: Seats, es: seq<Event>)
    requires Rotating(s)
    ensures Rotating(After(s, es)) && Count(After(s, es)) == Count(s)
    decreases |es|
  {
    if es != [] {
      CallKeepsRotating(s, es[0]);
      RunKeepsRotating(Apply(s, es[0]), es[1..]);
    }
  }

  /** Starting the action puts it in rotation from the first group if and only if no group was left open. */
  lemma InitRotates(s: Seats, t: Times, period: nat, now: int, word: nat)
    requires Word(word) && Count(s) > 0
    ensures Rotating(Init(s, t, period, now, word)) <==> Closed(s)
    ensures Turn(Init(s, t, period, now, word)) == 0
  {
    var r := Init(s, t, period, now, word);
    if Rotating(r) {
      forall k | 0 <= k < Count(s) ensures !Group(s, k) { assert !Group(r, k); }
    } else if Closed(s) {
      forall k | 0 <= k < Count(r) ensures !Group(r, k) { assert !Group(s, k); }
    }
  }

  /**
    * From the start of the action with all groups closed: the k-th turn belongs to group k modulo the number of groups,
    * the index never leaves its row, and at any moment at most one group is open, the one whose turn it is.
    */
  lemma WashingRotates(s: Seats, t: Times, period: nat, now: int, word: nat, es: seq<Event>)
    requires Word(word) && Count(s) > 0 && Closed(s)
    ensures var s0 := Init(s, t, period, now, word);
            && Rotating(s0)
            && (forall k :: 0 <= k < |Log(s0, es)| ==> Log(s0, es)[k] == k % Count(s0))
            && var r := After(s0, es);
            && InRange(r) && Count(r) == Count(s)
            && forall j, k :: 0 <= j < k < Count(r) ==> !(Group(r, j) && Group(r, k))
  {
    InitRotates(s, t, period, now, word);
    var s0 := Init(s, t, period, now, word);
    assert 0 % Count(s0) == 0;
    TurnsRotate(s0, es, 0);
    RunKeepsRotating(s0, es);
  }

  // ---- the object --------------------------------------------------------------------------------------------------

  class OpenSeatAction {
    var seats: Seats

    constructor (upper: nat, lower: nat)
      ensures Closed(seats) && |seats.upper| == upper && |seats.lower| == lower && InRange(seats)
    {
      seats := Seats(Waiting, OpenUpper, 0, 60000, 0, seq(upper, i => false), seq(lower, i => false));
    }

    method Start(t: Times, period: nat, now: int, word: nat)
      requires Word(word)
      modifies this
      ensures seats == Init(old(seats), t, period, now, word)
    {
      if seats.upper == [] && seats.lower == [] {
        return;
      }
      var groups := |seats.upper| + |seats.lower|;
      var flip := if t.upper > t.lower then t.upper else t.lower;
      var wait := ((period - flip * groups) % word / (groups + 1)) % UINT32;
      seats := seats.(start := now, phase := Waiting, nextPhase := OpenUpper, group := 0, wait := wait);
    }

    method End()
      requires InRange(seats)
      modifies this
      ensures seats == Finalize(old(seats))
    {
      match seats.phase {
        case Waiting =>
        case OpenUpper => if seats.upper != [] { seats := seats.(upper := seats.upper[seats.group := false]); }
        case OpenLower => if seats.lower != [] { seats := seats.(lower := seats.lower[seats.group := false]); }
      }
    }

    method Work(t: Times, now: int)
      requires InRange(seats)
      modifies this
      ensures seats == Evaluate(old(seats), t, now)
    {
      if seats.upper == [] && seats.lower == [] {
        return;
      }
      match seats.phase {
        case Waiting =>
          if now - seats.start > seats.wait {
            seats := seats.(phase := seats.nextPhase, start := now);
          }
        case OpenUpper =>
          if seats.upper == [] {
            seats := seats.(phase := OpenLower, nextPhase := OpenLower);
          } else if now - seats.start < t.upper {
            seats := seats.(upper := seats.upper[seats.group := true]);
          } else {
            End();
            seats := seats.(phase := Waiting, start := now, group := seats.group + 1);
            if seats.group >= |seats.upper| {
              seats := seats.(group := 0, nextPhase := OpenLower);
            }
          }
        case OpenLower =>
          if seats.lower == [] {
            seats := seats.(phase := OpenUpper, nextPhase := OpenUpper);
          } else if now - seats.start < t.lower {
            seats := seats.(lower := seats.lower[seats.group := true]);
          } else {
            End();
            seats := seats.(phase := Waiting, start := now, group := seats.group + 1);
            if seats.group >= |seats.lower| {
              seats := seats.(group := 0, nextPhase := OpenUpper);
            }
          }
      }
    }
  }
}

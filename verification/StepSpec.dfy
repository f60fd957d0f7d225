/**
  * One state of an operation (PAC/common/operation_mngr.cpp, class operation_state): an operation step that runs all
  * the time, at most one main step, and an ordered list of extra steps. Steps are numbered from one by callers; the
  * main step is kept as an index from zero, with -1 for none.
  */
module StepSpec {
  datatype Step = Step(active: bool, start: int, dx: int)

  /** What is configured once: which steps have a set time, which step follows, and whether there is nothing to do. */
  datatype Plan = Plan(timed: seq<bool>, next: seq<int>, empty: bool)

  /** What one call reads of the parameters and the devices, by index of the step. */
  datatype Signals = Signals(duration: int -> nat, linked: int -> bool, raised: int -> bool, drop: int -> bool,
                             jump: int -> int, passes: int -> bool)

  datatype Body = Body(mode: Step, steps: seq<Step>, main: int, allotted: int, next: int, extras: seq<int>,
                       saved: seq<int>, start: int, dx: int)

  /** A step number a caller may pass to the extra-step calls: zero would index before the first step. */
  type StepNumber = n: int | n != 0 witness 1

  predicate Numbers(list: seq<int>, count: nat) {
    forall k :: 0 <= k < |list| ==> 1 <= list[k] <= count
  }

  predicate Valid(p: Plan, b: Body) {
    && |p.timed| == |b.steps| && |p.next| == |b.steps|
    && -1 <= b.main < |b.steps|
    && Numbers(b.extras, |b.steps|) && Numbers(b.saved, |b.steps|)
  }

  function Begun(s: Step, now: int): Step {
    Step(true, now, s.dx)
  }

  function Ended(s: Step): Step {
    Step(false, s.start, 0)
  }

  function StepTime(s: Step, now: int): int {
    now - s.start + s.dx
  }

  function MainTime(b: Body, now: int): int
    requires -1 <= b.main < |b.steps|
  {
    if b.main >= 0 then StepTime(b.steps[b.main], now) else 0
  }

  /** The position of a number in the list, or the length of the list. */
  function Find(list: seq<int>, n: int): (k: nat)
    ensures k <= |list| && n !in list[..k]
    ensures k < |list| ==> list[k] == n
    ensures k == |list| <==> n !in list
  {
    if list == [] then 0
    else if list[0] == n then 0
    else
      assert list == [list[0]] + list[1..];
      var k := Find(list[1..], n);
      assert list[..k + 1] == [list[0]] + list[1..][..k];
      k + 1
  }

  function Without(list: seq<int>, n: int): seq<int> {
    var k := Find(list, n);
    if k < |list| then list[..k] + list[k + 1..] else list
  }

  function BegunAll(steps: seq<Step>, list: seq<int>, now: int): (r: seq<Step>)
    ensures |r| == |steps|
  {
    seq(|steps|, i requires 0 <= i < |steps| => if i + 1 in list then Begun(steps[i], now) else steps[i])
  }

  function EndedAll(steps: seq<Step>, list: seq<int>): (r: seq<Step>)
    ensures |r| == |steps|
  {
    seq(|steps|, i requires 0 <= i < |steps| => if i + 1 in list then Ended(steps[i]) else steps[i])
  }

  function WithoutMain(b: Body): (r: seq<Step>)
    requires -1 <= b.main < |b.steps|
    ensures |r| == |b.steps|
  {
    if b.main >= 0 then b.steps[b.main := Ended(b.steps[b.main])] else b.steps
  }

  predicate Exists(b: Body, n: int) {
    1 <= n <= |b.steps|
  }

  /** A step whose set time is zero is skipped: it becomes the main step but is not started. */
  predicate Starts(p: Plan, m: nat, sig: Signals)
    requires m < |p.timed|
  {
    !p.timed[m] || sig.duration(m) > 0
  }

  function To(p: Plan, b: Body, n: int, now: int, sig: Signals): (r: Body)
    requires Valid(p, b)
    ensures Valid(p, r)
  {
    if !Exists(b, n) then b
    else
      var m := n - 1;
      var rest := WithoutMain(b);
      b.(steps := if Starts(p, m, sig) then rest[m := Begun(rest[m], now)] else rest,
         main := m,
         allotted := if p.timed[m] then sig.duration(m) else 0,
         next := p.next[m])
  }

  function ToNext(p: Plan, b: Body, now: int, sig: Signals): (r: Body)
    requires Valid(p, b)
    ensures Valid(p, r)
  {
    if b.main < 0 then b
    else if p.next[b.main] == -1 then To(p, b, b.main + 2, now, sig)
    else To(p, b, p.next[b.main], now, sig)
  }

  function TurnOff(b: Body): Body
    requires -1 <= b.main < |b.steps|
  {
    if b.main >= 0 then b.(steps := WithoutMain(b), main := -1) else b
  }

  function Init(p: Plan, b: Body, n: int, now: int, sig: Signals): (r: Body)
    requires Valid(p, b)
    ensures Valid(p, r)
  {
    var b1 := b.(mode := Begun(b.mode, now), start := now, main := -1);
    if |b.steps| == 0 then b1
    else
      var b2 := To(p, b1, n, now, sig);
      b2.(steps := BegunAll(b2.steps, b2.extras, now))
  }

  function Finalize(b: Body, now: int): Body
    requires -1 <= b.main < |b.steps|
  {
    b.(mode := Ended(b.mode), start := now,
       dx := if b.main >= 0 then MainTime(b, now) else b.dx,
       steps := EndedAll(WithoutMain(b), b.extras),
       main := -1, extras := [])
  }

  function OnExtra(p: Plan, b: Body, n: StepNumber, now: int, passes: bool): (r: Body)
    requires Valid(p, b)
    ensures Valid(p, r)
  {
    if !Exists(b, n) || n == b.main + 1 || n in b.extras then b
    else b.(extras := b.extras + [n], steps := if passes then b.steps[n - 1 := Begun(b.steps[n - 1], now)] else b.steps)
  }

  lemma WithoutNumbers(list: seq<int>, n: int, count: nat)
    requires Numbers(list, count)
    ensures Numbers(Without(list, n), count)
  {
  }

  function OffExtra(p: Plan, b: Body, n: int): (r: Body)
    requires Valid(p, b)
    ensures Valid(p, r)
  {
    if n in b.extras then
      WithoutNumbers(b.extras, n, |b.steps|);
      b.(steps := b.steps[n - 1 := Ended(b.steps[n - 1])], extras := Without(b.extras, n))
    else b
  }

  function SwitchExtra(p: Plan, b: Body, off: int, on: StepNumber, now: int): (r: Body)
    requires Valid(p, b)
    ensures Valid(p, r)
  {
    if !Exists(b, on) || on == b.main + 1 || off !in b.extras then b
    else
      var ended := b.steps[off - 1 := Ended(b.steps[off - 1])];
      b.(steps := ended[on - 1 := Begun(ended[on - 1], now)], extras := b.extras[Find(b.extras, off) := on])
  }

  /** Extra steps whose signals went away are dropped; the walk moves on by one place even after dropping one. */
  function Dropped(p: Plan, b: Body, k: nat, sig: Signals): (r: Body)
    requires Valid(p, b)
    ensures Valid(p, r)
    decreases |b.extras| - k
  {
    if k >= |b.extras| then b
    else
      var m := b.extras[k] - 1;
      if sig.linked(m) && !sig.raised(m) && sig.drop(m) then Dropped(p, OffExtra(p, b, m + 1), k + 1, sig)
      else Dropped(p, b, k + 1, sig)
  }

  /** Steps whose signals are present are added to the extra steps, from index k on. */
  function Raised(p: Plan, b: Body, k: nat, now: int, sig: Signals): (r: Body)
    requires Valid(p, b)
    ensures Valid(p, r)
    decreases |b.steps| - k
  {
    if k >= |b.steps| then b
    else
      var comes := k + 1 !in b.extras && sig.linked(k) && sig.raised(k);
      var b1 := if comes then OnExtra(p, b, k + 1, now, sig.passes(k)) else b;
      Raised(p, b1, k + 1, now, sig)
  }

  function Signalled(p: Plan, b: Body, now: int, sig: Signals): (r: Body)
    requires Valid(p, b)
    ensures Valid(p, r)
  {
    Raised(p, Dropped(p, b, 0, sig), 0, now, sig)
  }

  predicate TimeIsUp(p: Plan, b: Body, now: int, sig: Signals)
    requires Valid(p, b) && b.main >= 0
  {
    p.timed[b.main] && (sig.duration(b.main) == 0 || MainTime(b, now) > sig.duration(b.main))
  }

  /** The number of the step that follows now, zero for none. */
  function Following(p: Plan, b: Body, now: int, sig: Signals): (n: int)
    requires Valid(p, b)
    ensures n == 0 || Exists(b, n)
  {
    if b.main < 0 then 0
    else
      var n := if TimeIsUp(p, b, now, sig) then b.next else sig.jump(b.main);
      if Exists(b, n) then n else 0
  }

  /** The last step ran out of time with nothing to follow: the operation has to be switched off. */
  predicate RunsOut(p: Plan, b: Body, now: int, sig: Signals)
    requires Valid(p, b)
  {
    b.main >= 0 && TimeIsUp(p, b, now, sig) && b.next == -1
  }

  function Clocked(p: Plan, b: Body, sig: Signals): (r: Body)
    requires Valid(p, b)
    ensures Valid(p, r)
  {
    if b.main >= 0 && p.timed[b.main] then b.(allotted := sig.duration(b.main)) else b
  }

  function Evaluate(p: Plan, b: Body, now: int, sig: Signals): (r: Body)
    requires Valid(p, b)
    ensures Valid(p, r)
  {
    var b1 := Signalled(p, b, now, sig);
    To(p, Clocked(p, b1, sig), Following(p, b1, now, sig), now, sig)
  }
}

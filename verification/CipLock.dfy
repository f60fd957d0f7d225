/**
  * Who holds the lock of the self-cleaning, and that it is given back: an
  * observer who only watches lines start and end always knows the holder.
  */
module CipLock {
  import opened CipProgram
  import opened CipRouting
  import opened CipSpec
  import opened CipControl
  import opened CipSafety
  import opened CipStationSpec
  import opened CipSharing

  /** The operator starts the self-cleaning of a line at rest, and nobody else is in the way. */
  ghost predicate Takes(c: Config, lines: seq<LineView>, owner: nat, k: nat, cmd: Command)
    requires k < |lines|
  {
    && c.scEnabled && cmd == Evaluate
    && lines[k].state == 0 && !lines[k].blocked && lines[k].program == 2048
    && (owner == k + 1 || (owner == 0 && forall j: nat | j < |lines| && j != k :: lines[j].state == 0))
  }

  /** The final delay of a line that hears no command is over. */
  predicate Completes(l: LineView, cmd: Command, s: Sense) {
    cmd == NoCommand && !l.blocked && l.state > 0 && l.step == 555 && s.endOk
  }

  lemma CompletesIsEnds(l: LineView, cmd: Command, s: Sense)
    ensures Ends(l, cmd, s) <==> Completes(l, cmd, s)
  {
  }

  /** The holder of the lock, counted from one, as the observer has it. */
  ghost function Owner(c: Config, st: Station, hs: seq<Happening>, owner: nat): nat
    requires Consistent(c, st)
    requires forall h | h in hs :: Possible(c, h)
    decreases |hs|
  {
    if hs == [] then owner
    else
      HappenKeepsConsistent(c, st, hs[0]);
      var h := hs[0];
      var next :=
        if !h.LineTick? then owner
        else if Takes(c, st.lines, owner, h.line, h.cmd) then h.line + 1
        else if c.scEnabled && owner == h.line + 1 && Completes(st.lines[h.line], h.cmd, h.s) then 0
        else owner;
      Owner(c, Happen(c, st, h), hs[1..], next)
  }

  lemma TakesTheLock(c: Config, st: Station, k: nat, cmd: Command)
    requires Consistent(c, st) && k < |st.lines|
    ensures Takes(c, st.lines, st.scLine, k, cmd) <==> TakesLock(c, st, k, cmd)
  {
  }

  lemma OneHappeningTells(c: Config, st: Station, h: Happening)
    requires Consistent(c, st) && Possible(c, h)
    ensures Happen(c, st, h).scLine ==
      if !h.LineTick? then st.scLine
      else if Takes(c, st.lines, st.scLine, h.line, h.cmd) then h.line + 1
      else if c.scEnabled && st.scLine == h.line + 1 && Completes(st.lines[h.line], h.cmd, h.s) then 0
      else st.scLine
  {
    hide Tick, OpenAfter, StartOf, Takes, TakesLock, Completes, Ends;
    if h.LineTick? {
      TakesTheLock(c, st, h.line, h.cmd);
      CompletesIsEnds(st.lines[h.line], h.cmd, h.s);
    }
  }

  /**
    * In every interleaving the lock is held by the line that took it last,
    * until that line has ended its program, and by nobody after that.
    */
  lemma {:induction false} ObserverKnowsHolder(c: Config, st: Station, hs: seq<Happening>)
    requires Consistent(c, st)
    requires forall h | h in hs :: Possible(c, h)
    ensures After(c, st, hs).scLine == Owner(c, st, hs, st.scLine)
    decreases |hs|
  {
    hide Happen, Takes, Completes;
    if hs != [] {
      HappenKeepsConsistent(c, st, hs[0]);
      OneHappeningTells(c, st, hs[0]);
      ObserverKnowsHolder(c, Happen(c, st, hs[0]), hs[1..]);
    }
  }

  // ---- Starting a line ----

  /** A started line with a recipe clashes with this one; without a recipe the check may say anything. */
  ghost predicate Conflicting(c: Config, st: Station, k: nat, ask: Ask)
    requires Consistent(c, st) && k < |st.lines|
  {
    if st.lines[k].recipe < 0 then ask.junkConflict
    else exists j: nat | j < |st.lines| && j != k && st.lines[j].state != 0 && st.lines[j].recipe >= 0 ::
      Clash(c.recipes[k][st.lines[k].recipe], c.recipes[j][st.lines[j].recipe])
  }

  lemma ConflictingIsFound(c: Config, st: Station, k: nat, ask: Ask)
    requires Consistent(c, st) && k < |st.lines|
    ensures Conflicting(c, st, k, ask) <==> ConflictsAtStart(c, st, k, ask)
  {
    hide Clash;
    if st.lines[k].recipe >= 0 {
      forall j: nat | j < |st.lines| && st.lines[j].state != 0 && st.lines[j].recipe >= 0
        ensures RecipeOf(c, st, j) == c.recipes[j][st.lines[j].recipe] && Counts(st, j) {}
    }
  }

  /** Two recipes clash over a valve that one opens and the other uses; only the numbers below 1000 are looked at. */
  lemma ClashIsBelowThousand(a: Recipe, b: Recipe)
    ensures Clash(a, b) <==>
      exists n :: n != 0 && n < 1000 && ((n in a.on && (n in b.on || n in b.off)) || (n in a.off && n in b.on))
  {
    if Clash(a, b) {
      var n :| ClashAt(a, b, n);
      assert n != 0 && n < 1000;
    }
    forall n | n != 0 && n < 1000 && ((n in a.on && (n in b.on || n in b.off)) || (n in a.off && n in b.on))
      ensures ClashAt(a, b, n) {}
  }

  /** What else stands in the way of a line: switches, another started line, devices, an acid wash that is due. */
  ghost predicate Fit(c: Config, st: Station, k: nat, ask: Ask, s: Sense)
    requires Consistent(c, st) && k < |st.lines|
  {
    var l := st.lines[k];
    && (l.carWash && !ask.switches ==> l.program in {256, 512, 2048})
    && !Conflicting(c, st, k, ask) && !s.devicesBad
    && !(ask.acidDue && Bit(l.program, 5) && !Bit(l.program, 4))
  }

  ghost predicate Free(c: Config, st: Station, k: nat)
    requires k < |st.lines|
  {
    c.scEnabled ==>
      st.scLine == k + 1
      || (st.scLine == 0 && (st.lines[k].program == 2048 ==>
           forall j: nat | j < |st.lines| && j != k :: st.lines[j].state == 0))
  }

  /**
    * A line at rest with a recipe or a large program starts if and only if
    * the lock is free for it and nothing else stands in the way; and if it
    * does not start, why: it stays at rest, or shows its error.
    */
  lemma StartsExactly(c: Config, st: Station, k: nat, ask: Ask, s: Sense)
    requires Consistent(c, st) && k < |st.lines|
    requires var l := st.lines[k]; l.state == 0 && !l.blocked && l.program > 0 && (l.recipe >= 0 || l.program >= 256)
    ensures var q := Happen(c, st, LineTick(k, Evaluate, ask, s)).lines[k];
      && (q.state == 1 <==> Free(c, st, k) && Fit(c, st, k, ask, s))
      && (q.state == 0 <==> !Free(c, st, k) || !SwitchesAllow(st.lines[k], ask))
      && (q.state in {-32, -31, -30, 0, 1}) && (q.state == -31 ==> Conflicting(c, st, k, ask))
      && (q.state == -30 ==> s.devicesBad) && (q.state == -32 ==> ask.acidDue)
  {
    hide ConflictsAtStart, Conflicting, InitStep, LoadProgram, OpenAfter, LockAfter, Bit;
    ConflictingIsFound(c, st, k, ask);
  }

  /** While another line holds the lock nothing starts. */
  lemma HeldLockRefuses(c: Config, st: Station, k: nat, ask: Ask, s: Sense)
    requires Consistent(c, st) && k < |st.lines| && c.scEnabled && st.scLine != 0 && st.scLine != k + 1
    requires var l := st.lines[k]; l.state == 0 && !l.blocked && l.program > 0 && (l.recipe >= 0 || l.program >= 256)
    ensures Happen(c, st, LineTick(k, Evaluate, ask, s)).lines[k].state == 0
  {
    hide Happen, Fit;
    StartsExactly(c, st, k, ask, s);
  }

  /**
    * The end of the holder gives the lock back, and from then on any other
    * line at rest that is fit starts, whatever it washes but the tanks.
    */
  lemma EndFreesOthers(c: Config, st: Station, k: nat, end: Sense, ask: Ask, j: nat, start: Ask, s: Sense)
    requires Consistent(c, st) && k < |st.lines| && j < |st.lines| && j != k
    requires c.scEnabled && st.scLine == k + 1 && Completes(st.lines[k], NoCommand, end)
    requires var l := st.lines[j];
      l.state == 0 && !l.blocked && l.program > 0 && l.program != 2048 && (l.recipe >= 0 || l.program >= 256)
    ensures Possible(c, LineTick(k, NoCommand, ask, end)) && Possible(c, LineTick(j, Evaluate, start, s))
    ensures var ended := Happen(c, st, LineTick(k, NoCommand, ask, end));
      && Consistent(c, ended) && ended.scLine == 0
      && var started := Happen(c, ended, LineTick(j, Evaluate, start, s));
      && started.scLine == 0
      && (started.lines[j].state == 1 <==> Fit(c, ended, j, start, s))
  {
    hide Tick, OpenAfter, StartOf, Completes, Fit, ConflictsAtStart;
    HappenKeepsConsistent(c, st, LineTick(k, NoCommand, ask, end));
    OneHappeningTells(c, st, LineTick(k, NoCommand, ask, end));
    var ended := Happen(c, st, LineTick(k, NoCommand, ask, end));
    assert ended.lines[j] == st.lines[j];
    StartsExactly(c, ended, j, start, s);
    OneHappeningTells(c, ended, LineTick(j, Evaluate, start, s));
  }

  /**
    * The lock can stay with a line at rest: its self-cleaning is started,
    * locked and unlocked at its first step, and is forgotten, but the lock
    * is not.
    */
  lemma ForgottenWashKeepsLock(c: Config, st: Station, k: nat, ask: Ask, s: Sense)
    requires Consistent(c, st) && k < |st.lines| && Takes(c, st.lines, st.scLine, k, Evaluate)
    requires st.lines[k].step == STEP_START && !st.lines[k].carWash && Fit(c, st, k, ask, s)
    ensures Possible(c, LineTick(k, Evaluate, ask, s)) && Possible(c, LineTick(k, Lock, ask, s))
    ensures Possible(c, LineTick(k, Unlock, ask, s))
    ensures var begun := Happen(c, st, LineTick(k, Evaluate, ask, s));
      Consistent(c, begun)
      && var locked := Happen(c, begun, LineTick(k, Lock, ask, s));
      Consistent(c, locked)
      && var unlocked := Happen(c, locked, LineTick(k, Unlock, ask, s));
      unlocked.scLine == k + 1 && unlocked.lines[k].state == 0 && !unlocked.lines[k].blocked
  {
    assert st.lines[k].state == 0;
    hide Tick, OpenAfter, StartOf, Takes, Completes, Fit;
    HappenKeepsConsistent(c, st, LineTick(k, Evaluate, ask, s));
    OneHappeningTells(c, st, LineTick(k, Evaluate, ask, s));
    var begun := Happen(c, st, LineTick(k, Evaluate, ask, s));
    HappenKeepsConsistent(c, begun, LineTick(k, Lock, ask, s));
    OneHappeningTells(c, begun, LineTick(k, Lock, ask, s));
    var locked := Happen(c, begun, LineTick(k, Lock, ask, s));
    OneHappeningTells(c, locked, LineTick(k, Unlock, ask, s));
    NoLockHeard(c, begun, k);
    NoLockHeard(c, locked, k);
    assert begun.lines[k].step == STEP_START by { StartStaysAtStart(c, st, k, ask, s); }
    LockTicks(c, begun, k, Lock, ask, s);
    LockTicks(c, locked, k, Unlock, ask, s);
    LockForgets(begun.lines[k], s);
  }

  lemma LockTicks(c: Config, st: Station, k: nat, cmd: Command, ask: Ask, s: Sense)
    requires Consistent(c, st) && k < |st.lines| && cmd != Evaluate
    ensures Happen(c, st, LineTick(k, cmd, ask, s)).lines[k] == Tick(st.lines[k], cmd, NotNow, s)
  {
    hide Tick, OpenAfter, LockAfter;
  }

  lemma NoLockHeard(c: Config, st: Station, k: nat)
    requires k < |st.lines|
    ensures !Takes(c, st.lines, st.scLine, k, Lock) && !Takes(c, st.lines, st.scLine, k, Unlock)
    ensures forall s: Sense :: !Completes(st.lines[k], Lock, s) && !Completes(st.lines[k], Unlock, s)
  {
  }

  lemma StartStaysAtStart(c: Config, st: Station, k: nat, ask: Ask, s: Sense)
    requires Consistent(c, st) && k < |st.lines| && st.lines[k].step == STEP_START && !st.lines[k].carWash
    requires st.lines[k].state == 0
    ensures Happen(c, st, LineTick(k, Evaluate, ask, s)).lines[k].step == STEP_START
  {
    hide StartOf, OpenAfter, LockAfter, InitStep;
  }

  lemma LockForgets(l: LineView, s: Sense)
    requires l.step == STEP_START
    ensures var q := Tick(Tick(l, Lock, NotNow, s), Unlock, NotNow, s); q.state == 0 && !q.blocked
  {
    hide StopDev, EvalPids;
  }

  // ---- The devices of a recipe ----

  /** One of these numbers means the device, for line k. */
  predicate Means(c: Config, k: nat, ns: seq<int>, d: Device) {
    exists n :: n in ns && n > 0
      && if (k, n) in c.own then d == Own(k, n) else n in c.known && d == Shared(n)
  }

  predicate OwnDrain(k: nat, d: Device) { d.Own? && d.line == k && 1001 <= d.n <= 1099 }

  lemma MeansDevices(c: Config, k: nat, ns: seq<int>, d: Device)
    ensures d in Devices(c, k, ns) <==> Means(c, k, ns, d)
  {
  }

  /**
    * A line that starts opens what its recipe opens and shuts what it shuts,
    * and its own valves 1001 to 1099 that it does not open; its end shuts
    * what the recipe opened and these. Every other call, and every other
    * device, is left as it is.
    */
  lemma RecipeIsApplied(c: Config, st: Station, k: nat, cmd: Command, ask: Ask, s: Sense, d: Device)
    requires Consistent(c, st) && k < |st.lines| && st.lines[k].recipe >= 0
    requires cmd == Evaluate ==>
      var l := st.lines[k]; l.state == 0 && !l.blocked && l.program > 0
    ensures var l := st.lines[k];
      var r := c.recipes[k][l.recipe];
      d in Happen(c, st, LineTick(k, cmd, ask, s)).open <==>
        if cmd == Evaluate && Free(c, st, k) && Fit(c, st, k, ask, s) then
          !Means(c, k, r.off, d) && (Means(c, k, r.on, d) || (d in st.open && !OwnDrain(k, d)))
        else if Completes(l, cmd, s) && !l.conflict then d in st.open && !Means(c, k, r.on, d) && !OwnDrain(k, d)
        else d in st.open
  {
    hide Tick, Clash, Means, Devices, LockAfter, ConflictsAtStart, Fit, Free, Ends, Completes, Bit;
    var r := c.recipes[k][st.lines[k].recipe];
    MeansDevices(c, k, r.on, d);
    MeansDevices(c, k, r.off, d);
    CompletesIsEnds(st.lines[k], cmd, s);
    if cmd == Evaluate { GoesExactly(c, st, k, ask, s); }
  }

  lemma GoesExactly(c: Config, st: Station, k: nat, ask: Ask, s: Sense)
    requires Consistent(c, st) && k < |st.lines|
    requires var l := st.lines[k]; l.state == 0 && !l.blocked && l.program > 0 && (l.recipe >= 0 || l.program >= 256)
    ensures StartOf(c, st, k, Evaluate, ask, s) == Go <==> Free(c, st, k) && Fit(c, st, k, ask, s)
  {
    hide ConflictsAtStart, Conflicting, Bit;
    ConflictingIsFound(c, st, k, ask);
  }
}

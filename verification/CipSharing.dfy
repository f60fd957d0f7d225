/**
  * Safety of a whole station over all interleavings of its lines: the
  * self-clean lock excludes, and lines do not disturb each other's valves.
  */
module CipSharing {
  import opened Wrappers
  import opened CipProgram
  import opened CipSchedule
  import opened CipRouting
  import opened CipSpec
  import opened CipControl
  import opened CipSafety
  import opened CipStationSpec

  ghost predicate AllSound(st: Station) {
    forall k: nat | k < |st.lines| :: Sound(st.lines[k])
  }

  /** Not washing: at the first step, idle or locked there. */
  predicate Resting(l: LineView) {
    l.step == STEP_START && (l.state == 0 || (l.blocked && l.state == STATE_BLOCKED))
  }

  /** While one line cleans the tanks, every other line rests. */
  ghost predicate Exclusive(c: Config, st: Station) {
    c.scEnabled && st.scLine != NO_LINE ==>
      forall m: nat | m < |st.lines| && m + 1 != st.scLine :: Resting(st.lines[m])
  }

  lemma RestingStays(l: LineView, cmd: Command, s: Sense)
    requires Sound(l) && Resting(l)
    ensures Resting(Tick(l, cmd, NotNow, s))
    ensures Tick(l, cmd, NotNow, s).blocked ==> Tick(l, cmd, NotNow, s).state == STATE_BLOCKED
  {
    hide InitStep, DoStep, GoToStep, LoadProgram, EvalPids, OnTrack;
  }

  lemma IdleIsResting(l: LineView)
    requires Sound(l) && l.state == 0
    ensures Resting(l)
  {
  }

  lemma LineTickKeepsSound(c: Config, st: Station, h: Happening)
    requires Consistent(c, st) && Possible(c, h) && AllSound(st)
    ensures AllSound(Happen(c, st, h))
  {
    hide Sound, Tick, OpenAfter, LockAfter, StartOf;
    match h
    case LineTick(k, cmd, ask, s) =>
      TickKeepsSound(st.lines[k], cmd, StartOf(c, st, k, cmd, ask, s), s);
    case SelectProgram(k, p) => EventKeepsSound(st.lines[k], ChooseProgram(p));
    case SelectRecipe(k, r) => EventKeepsSound(st.lines[k], ChooseRecipe(r));
  }

  lemma HappenKeepsExclusive(c: Config, st: Station, h: Happening)
    requires Consistent(c, st) && Possible(c, h) && AllSound(st) && Exclusive(c, st)
    ensures Exclusive(c, Happen(c, st, h))
  {
    hide Sound, Tick, OpenAfter;
    match h
    case LineTick(k, cmd, ask, s) =>
      var next := Happen(c, st, h);
      if c.scEnabled && next.scLine != NO_LINE {
        forall m: nat | m < |st.lines| && m + 1 != next.scLine
          ensures Resting(next.lines[m])
        {
          if TakesLock(c, st, k, cmd) {
            if st.scLine == NO_LINE { IdleIsResting(st.lines[m]); }
          } else if m == k {
            RestingStays(st.lines[m], cmd, s);
          }
        }
      }
    case _ =>
  }

  ghost function After(c: Config, st: Station, hs: seq<Happening>): Station
    requires Consistent(c, st)
    requires forall h | h in hs :: Possible(c, h)
    decreases |hs|
  {
    if hs == [] then st
    else
      HappenKeepsConsistent(c, st, hs[0]);
      After(c, Happen(c, st, hs[0]), hs[1..])
  }

  /** Kept by every command and tick of every line, in any order. */
  lemma {:induction false} SelfCleanExcludes(c: Config, st: Station, hs: seq<Happening>)
    requires Consistent(c, st) && AllSound(st) && Exclusive(c, st)
    requires forall h | h in hs :: Possible(c, h)
    ensures AllSound(After(c, st, hs)) && Exclusive(c, After(c, st, hs))
    decreases |hs|
  {
    hide Happen, Exclusive, AllSound, Consistent;
    if hs != [] {
      HappenKeepsConsistent(c, st, hs[0]);
      LineTickKeepsSound(c, st, hs[0]);
      HappenKeepsExclusive(c, st, hs[0]);
      SelfCleanExcludes(c, Happen(c, st, hs[0]), hs[1..]);
    }
  }

  // ---- Shared valves ----

  /**
    * A station together with the lines that passed the conflict check of
    * their last start (admitted) and those whose recipe was then applied and
    * is still the chosen one (held).
    */
  datatype Watched = Watched(st: Station, admitted: set<nat>, held: set<nat>)

  ghost function Watch(c: Config, w: Watched, h: Happening): Watched
    requires Consistent(c, w.st) && Possible(c, h)
  {
    var next := Happen(c, w.st, h);
    var start := if h.LineTick? then StartOf(c, w.st, h.line, h.cmd, h.ask, h.s) else NotNow;
    var idle := next.lines[h.line].state == 0;
    var now := {h.line};
    Watched(next,
            if idle then w.admitted - now
            else if start in {BadDevices, AcidWash, Go} then w.admitted + now else w.admitted,
            if idle || (h.SelectRecipe? && h.recipe != w.st.lines[h.line].recipe) then w.held - now
            else if start == Go then w.held + now else w.held)
  }

  /**
    * A started line was admitted, or was found in conflict. Locking a line
    * at rest also makes its state nonzero.
    */
  predicate Explained(l: LineView, admitted: bool) {
    (l.state != 0 && !(l.blocked && l.step == STEP_START) && !l.conflict ==> admitted)
    && (admitted ==> l.state != 0)
  }

  ghost predicate AllExplained(w: Watched) {
    (forall k: nat | k < |w.st.lines| :: Explained(w.st.lines[k], k in w.admitted))
    && (forall k | k in w.held :: k in w.admitted)
    && (forall k | k in w.admitted :: k < |w.st.lines|)
  }

  /**
    * When line j ends with recipe q, it shuts a valve that recipe r of line k
    * holds open.
    */
  predicate SpoilsAt(c: Config, j: nat, q: Recipe, k: nat, r: Recipe, n: int) {
    n in q.on && n in r.on && n !in r.off && n < EXEMPT
    && DeviceOf(c, j, n) == Some(Shared(n)) && DeviceOf(c, k, n) == Some(Shared(n))
  }

  ghost predicate Spoils(c: Config, j: nat, q: Recipe, k: nat, r: Recipe) {
    exists n :: SpoilsAt(c, j, q, k, r, n)
  }

  lemma ClearDoesNotSpoil(c: Config, j: nat, q: Recipe, k: nat, r: Recipe)
    requires !Clash(q, r)
    ensures !Spoils(c, j, q, k, r)
  {
    forall n ensures !SpoilsAt(c, j, q, k, r, n) { assert !ClashAt(q, r, n); }
  }

  ghost predicate EndsSpoilNothing(c: Config, w: Watched)
    requires Consistent(c, w.st)
  {
    forall a: nat, b: nat | a in w.held && b in w.admitted && a != b
        && a < |w.st.lines| && b < |w.st.lines|
        && w.st.lines[a].recipe >= 0 && w.st.lines[b].recipe >= 0 ::
      !Spoils(c, b, RecipeOf(c, w.st, b), a, RecipeOf(c, w.st, a))
  }

  /**
    * The shared valves of line k's recipe are where the recipe put them:
    * those it opens are open, unless it also shuts them, and those it shuts
    * are shut.
    */
  predicate InPosition(c: Config, k: nat, open: set<Device>, r: Recipe) {
    (forall n | n in r.on && DeviceOf(c, k, n) == Some(Shared(n)) && n < EXEMPT && n !in r.off :: Shared(n) in open)
    && (forall n | n in r.off && DeviceOf(c, k, n) == Some(Shared(n)) && n < EXEMPT :: Shared(n) !in open)
  }

  ghost predicate AllInPosition(c: Config, w: Watched)
    requires Consistent(c, w.st)
  {
    forall k: nat | k in w.held && k < |w.st.lines| && w.st.lines[k].recipe >= 0 ::
      InPosition(c, k, w.st.open, RecipeOf(c, w.st, k))
  }

  /**
    * A recipe that is chosen for a started line opens no valve that another
    * applied recipe holds open. For a line at rest any recipe may be chosen.
    */
  ghost predicate Harmless(c: Config, w: Watched, h: Happening)
    requires Consistent(c, w.st) && Possible(c, h)
  {
    h.SelectRecipe? && h.recipe >= 0 && h.line in w.admitted ==>
      forall a: nat | a in w.held && a != h.line && a < |w.st.lines| && w.st.lines[a].recipe >= 0 ::
        !Spoils(c, h.line, c.recipes[h.line][h.recipe], a, RecipeOf(c, w.st, a))
  }

  lemma RestingChoiceIsHarmless(c: Config, w: Watched, h: Happening)
    requires Consistent(c, w.st) && Possible(c, h) && AllExplained(w)
    requires h.SelectRecipe? && w.st.lines[h.line].state == 0
    ensures Harmless(c, w, h)
  {
    assert Explained(w.st.lines[h.line], h.line in w.admitted);
  }

  lemma TickExplained(l: LineView, cmd: Command, start: Start, s: Sense, admitted: bool)
    requires Sound(l) && Explained(l, admitted)
    requires start != NotNow ==> cmd == Evaluate && !l.blocked && MayStart(l)
    ensures var q := Tick(l, cmd, start, s);
      Explained(q, q.state != 0 && (admitted || start in {BadDevices, AcidWash, Go}))
    ensures var q := Tick(l, cmd, start, s);
      start in {BadDevices, AcidWash, Go} ==> q.state != 0 && !q.conflict
    ensures var q := Tick(l, cmd, start, s);
      q.state != 0 ==> q.recipe == l.recipe
  {
    hide InitStep, DoStep, GoToStep, LoadProgram, EvalPids;
  }

  lemma WatchKeepsExplained(c: Config, w: Watched, h: Happening)
    requires Consistent(c, w.st) && Possible(c, h) && AllSound(w.st) && AllExplained(w)
    ensures AllExplained(Watch(c, w, h))
  {
    hide Tick, Sound, OpenAfter, LockAfter, Decision, Explained;
    var next := Watch(c, w, h);
    var l := w.st.lines[h.line];
    match h
    case LineTick(k, cmd, ask, s) =>
      TickExplained(l, cmd, StartOf(c, w.st, k, cmd, ask, s), s, k in w.admitted);
      SettledExplanation(next.st.lines[k], k in next.admitted);
    case SelectProgram(k, p) => ChoiceExplained(l, l.(program := p), k in w.admitted);
    case SelectRecipe(k, r) => ChoiceExplained(l, l.(recipe := r), k in w.admitted);
  }

  lemma SettledExplanation(l: LineView, admitted: bool)
    ensures Explained(l, l.state != 0 && admitted) ==> (l.state == 0 ==> Explained(l, false))
  {
  }

  lemma ChoiceExplained(l: LineView, q: LineView, admitted: bool)
    requires Explained(l, admitted)
    requires q.state == l.state && q.blocked == l.blocked && q.step == l.step && q.conflict == l.conflict
    ensures Explained(q, q.state != 0 && admitted) && Explained(q, admitted)
  {
  }

  /** A line admitted now clashes with no line admitted before. */
  lemma AdmissionIsClear(c: Config, w: Watched, k: nat, cmd: Command, ask: Ask, s: Sense, b: nat)
    requires Consistent(c, w.st) && k < |w.st.lines| && b < |w.st.lines| && b != k && AllExplained(w)
    requires StartOf(c, w.st, k, cmd, ask, s) in {BadDevices, AcidWash, Go}
    requires b in w.admitted && w.st.lines[k].recipe >= 0 && w.st.lines[b].recipe >= 0
    ensures !Clash(RecipeOf(c, w.st, k), RecipeOf(c, w.st, b))
  {
    hide LockAllows, SwitchesAllow, MayStart, Clash;
    assert Explained(w.st.lines[b], true);
    assert Counts(w.st, b);
  }

  lemma WatchKeepsEnds(c: Config, w: Watched, h: Happening)
    requires Consistent(c, w.st) && Possible(c, h) && AllSound(w.st) && AllExplained(w)
    requires EndsSpoilNothing(c, w) && Harmless(c, w, h)
    ensures Consistent(c, Watch(c, w, h).st) && EndsSpoilNothing(c, Watch(c, w, h))
  {
    hide Tick, Sound, OpenAfter, LockAfter, StartOf, Clash, Spoils;
    HappenKeepsConsistent(c, w.st, h);
    var next := Watch(c, w, h);
    forall a: nat, b: nat | a in next.held && b in next.admitted && a != b
        && a < |next.st.lines| && b < |next.st.lines|
        && next.st.lines[a].recipe >= 0 && next.st.lines[b].recipe >= 0
      ensures !Spoils(c, b, RecipeOf(c, next.st, b), a, RecipeOf(c, next.st, a))
    {
      HeldIsAdmitted(c, w, h, a);
      RecipeStays(c, w, h, a);
      if !(h.SelectRecipe? && b == h.line) { RecipeStays(c, w, h, b); }
      if a !in w.held {
        AdmissionIsClear(c, w, a, h.cmd, h.ask, h.s, b);
        ClashIsMutual(RecipeOf(c, w.st, a), RecipeOf(c, w.st, b));
        ClearDoesNotSpoil(c, b, RecipeOf(c, w.st, b), a, RecipeOf(c, w.st, a));
      } else if b !in w.admitted {
        AdmissionIsClear(c, w, b, h.cmd, h.ask, h.s, a);
        ClearDoesNotSpoil(c, b, RecipeOf(c, w.st, b), a, RecipeOf(c, w.st, a));
      }
    }
  }

  lemma HeldIsAdmitted(c: Config, w: Watched, h: Happening, k: nat)
    requires Consistent(c, w.st) && Possible(c, h) && AllExplained(w) && k in Watch(c, w, h).held
    ensures k in Watch(c, w, h).admitted
    ensures h.SelectRecipe? && k == h.line ==> h.recipe == w.st.lines[k].recipe
  {
    hide Tick, OpenAfter, LockAfter, Decision, Explained;
  }

  /**
    * A line that is still admitted has the recipe it had, unless another one
    * was just chosen for it.
    */
  lemma RecipeStays(c: Config, w: Watched, h: Happening, k: nat)
    requires Consistent(c, w.st) && Possible(c, h) && AllSound(w.st) && AllExplained(w)
    requires h.SelectRecipe? && k == h.line ==> h.recipe == w.st.lines[k].recipe
    requires k < |w.st.lines| && k in Watch(c, w, h).admitted
    ensures Happen(c, w.st, h).lines[k].recipe == w.st.lines[k].recipe
  {
    hide Tick, Sound, OpenAfter, LockAfter, Decision;
    if k == h.line && h.LineTick? {
      TickExplained(w.st.lines[k], h.cmd, StartOf(c, w.st, k, h.cmd, h.ask, h.s), h.s, k in w.admitted);
    }
  }

  lemma DeviceInDevices(c: Config, k: nat, ns: seq<int>, n: int)
    ensures Shared(n) in Devices(c, k, ns) <==> n in ns && DeviceOf(c, k, n) == Some(Shared(n))
  {
    if n in ns && DeviceOf(c, k, n) == Some(Shared(n)) {
      assert DeviceOf(c, k, n).Some? && DeviceOf(c, k, n).value == Shared(n);
    }
  }

  /** Another line's start leaves the valves of a clear recipe alone. */
  lemma OthersKeepPosition(c: Config, k: nat, r: Recipe, j: nat, q: Recipe, open: set<Device>)
    requires InPosition(c, k, open, r) && !Clash(q, r)
    ensures InPosition(c, k, open + Devices(c, j, q.on) - Devices(c, j, q.off), r)
  {
    forall n
      ensures Shared(n) in Devices(c, j, q.on) <==> n in q.on && DeviceOf(c, j, n) == Some(Shared(n))
      ensures Shared(n) in Devices(c, j, q.off) <==> n in q.off && DeviceOf(c, j, n) == Some(Shared(n))
      ensures !ClashAt(q, r, n)
    {
      DeviceInDevices(c, j, q.on, n);
      DeviceInDevices(c, j, q.off, n);
    }
  }

  /** Another line's end does, too, and exactly if it shuts none of them. */
  lemma EndKeepsPosition(c: Config, k: nat, r: Recipe, j: nat, q: Recipe, open: set<Device>)
    requires InPosition(c, k, open, r)
    ensures InPosition(c, k, open - Devices(c, j, q.on), r) <==> !Spoils(c, j, q, k, r)
  {
    forall n ensures Shared(n) in Devices(c, j, q.on) <==> n in q.on && DeviceOf(c, j, n) == Some(Shared(n)) {
      DeviceInDevices(c, j, q.on, n);
    }
    if Spoils(c, j, q, k, r) {
      var n :| SpoilsAt(c, j, q, k, r, n);
      assert Shared(n) !in open - Devices(c, j, q.on);
    } else {
      forall n | n in r.on && DeviceOf(c, k, n) == Some(Shared(n)) && n < EXEMPT && n !in r.off
        ensures Shared(n) in open - Devices(c, j, q.on)
      {
        assert !SpoilsAt(c, j, q, k, r, n);
      }
    }
  }

  lemma OwnRangeKeepsPosition(c: Config, k: nat, r: Recipe, j: nat, open: set<Device>)
    requires InPosition(c, k, open, r)
    ensures InPosition(c, k, open - OwnRange(j), r)
  {
  }

  lemma StartPutsInPosition(c: Config, k: nat, r: Recipe, open: set<Device>)
    ensures InPosition(c, k, open + Devices(c, k, r.on) - Devices(c, k, r.off), r)
  {
    forall n
      ensures Shared(n) in Devices(c, k, r.on) <==> n in r.on && DeviceOf(c, k, n) == Some(Shared(n))
      ensures Shared(n) in Devices(c, k, r.off) <==> n in r.off && DeviceOf(c, k, n) == Some(Shared(n))
    {
      DeviceInDevices(c, k, r.on, n);
      DeviceInDevices(c, k, r.off, n);
    }
  }

  /** Only a line that was admitted, or found in conflict, can end its program. */
  lemma EndingLineWasAdmitted(l: LineView, cmd: Command, s: Sense, admitted: bool)
    requires Explained(l, admitted) && Ends(l, cmd, s) && !l.conflict
    ensures admitted
  {
  }

  lemma WatchKeepsPosition(c: Config, w: Watched, h: Happening)
    requires Consistent(c, w.st) && Possible(c, h) && AllSound(w.st) && AllExplained(w)
    requires EndsSpoilNothing(c, w) && AllInPosition(c, w) && Harmless(c, w, h)
    ensures Consistent(c, Watch(c, w, h).st) && AllInPosition(c, Watch(c, w, h))
  {
    hide Tick, Sound, LockAfter, StartOf, Clash, Spoils, InPosition, Devices, Ends, OwnRange;
    HappenKeepsConsistent(c, w.st, h);
    WatchKeepsExplained(c, w, h);
    var next := Watch(c, w, h);
    forall k: nat | k in next.held && k < |next.st.lines| && next.st.lines[k].recipe >= 0
      ensures InPosition(c, k, next.st.open, RecipeOf(c, next.st, k))
    {
      HeldIsAdmitted(c, w, h, k);
      RecipeStays(c, w, h, k);
      if h.LineTick? {
        TickKeepsPosition(c, w, h, k);
      }
    }
  }

  lemma TickKeepsPosition(c: Config, w: Watched, h: Happening, k: nat)
    requires Consistent(c, w.st) && Possible(c, h) && AllSound(w.st) && AllExplained(w)
    requires EndsSpoilNothing(c, w) && AllInPosition(c, w) && h.LineTick?
    requires k < |w.st.lines| && w.st.lines[k].recipe >= 0 && k in Watch(c, w, h).held
    ensures InPosition(c, k, OpenAfter(c, w.st, h.line, h.cmd, h.ask, h.s), RecipeOf(c, w.st, k))
  {
    hide Tick, Sound, LockAfter, Decision, Clash, Spoils, InPosition, Devices, OwnRange;
    var j := h.line;
    var r := RecipeOf(c, w.st, k);
    var l := w.st.lines[j];
    var start := StartOf(c, w.st, j, h.cmd, h.ask, h.s);
    if start == Go {
      if j == k {
        StartPutsInPosition(c, k, r, w.st.open - OwnRange(k));
      } else {
        OwnRangeKeepsPosition(c, k, r, j, w.st.open);
        if l.recipe >= 0 {
          AdmissionIsClear(c, w, j, h.cmd, h.ask, h.s, k);
          OthersKeepPosition(c, k, r, j, RecipeOf(c, w.st, j), w.st.open - OwnRange(j));
        }
      }
    } else if Ends(l, h.cmd, h.s) && !l.conflict {
      EndingLineWasAdmitted(l, h.cmd, h.s, j in w.admitted);
      EndingLineIsIdle(l, h.cmd, start, h.s);
      assert j != k;
      if l.recipe >= 0 {
        EndKeepsPosition(c, k, r, j, RecipeOf(c, w.st, j), w.st.open);
      }
      OwnRangeKeepsPosition(c, k, r, j, RecipeOff(c, w.st.open, j, l.recipe));
    }
  }

  lemma EndingLineIsIdle(l: LineView, cmd: Command, start: Start, s: Sense)
    requires Ends(l, cmd, s)
    ensures Tick(l, cmd, start, s).state == 0
  {
  }

  ghost predicate Undisturbed(c: Config, w: Watched) {
    Consistent(c, w.st) && AllSound(w.st) && AllExplained(w) && EndsSpoilNothing(c, w) && AllInPosition(c, w)
  }

  /** A run in which every choice of a recipe is harmless when it is made. */
  ghost predicate HarmlessRun(c: Config, w: Watched, hs: seq<Happening>)
    decreases |hs|
  {
    hs == [] ||
    (Consistent(c, w.st) && Possible(c, hs[0]) && Harmless(c, w, hs[0]) && HarmlessRun(c, Watch(c, w, hs[0]), hs[1..]))
  }

  ghost function WatchAll(c: Config, w: Watched, hs: seq<Happening>): Watched
    requires HarmlessRun(c, w, hs)
    decreases |hs|
  {
    if hs == [] then w else WatchAll(c, Watch(c, w, hs[0]), hs[1..])
  }

  /**
    * A station whose lines are all at rest, as after power-up, is a place to
    * begin every one of these runs.
    */
  lemma RestingStationIsUndisturbed(c: Config, st: Station)
    requires Consistent(c, st) && st.scLine == NO_LINE
    requires forall k: nat | k < |st.lines| ::
      st.lines[k].step == STEP_START && st.lines[k].prg == NO_PHASE && st.lines[k].state == 0 && !st.lines[k].blocked
    ensures Exclusive(c, st) && Undisturbed(c, Watched(st, {}, {}))
  {
    forall k: nat | k < |st.lines| ensures Sound(st.lines[k]) {
      EndsAreOnTrack(NO_PHASE);
    }
  }

  /**
    * In every interleaving of starts, resets, commands and errors, the valves
    * of each line whose recipe was applied stay where that recipe put them,
    * although only the line that starts checks for conflicts.
    */
  lemma {:induction false} LinesDoNotInterfere(c: Config, w: Watched, hs: seq<Happening>)
    requires Undisturbed(c, w) && HarmlessRun(c, w, hs)
    ensures Undisturbed(c, WatchAll(c, w, hs))
    decreases |hs|
  {
    hide AllExplained, EndsSpoilNothing, AllInPosition, AllSound;
    if hs != [] {
      var h := hs[0];
      WatchKeepsExplained(c, w, h);
      WatchKeepsEnds(c, w, h);
      WatchKeepsPosition(c, w, h);
      LineTickKeepsSound(c, w.st, h);
      LinesDoNotInterfere(c, Watch(c, w, h), hs[1..]);
    }
  }

  /**
    * A choice that is not harmless breaks this from every started state of an
    * unlocked line that was not found in conflict: the operator resets the
    * line, and at its end it shuts a valve that it never checked.
    */
  lemma HarmfulChoiceDisturbs(c: Config, st: Station, a: nat, b: nat, r: int, ask: Ask, s: Sense)
    requires Consistent(c, st) && a < |st.lines| && b < |st.lines| && a != b
    requires st.lines[a].recipe >= 0 && InPosition(c, a, st.open, RecipeOf(c, st, a))
    requires var l := st.lines[b]; l.state != 0 && !l.blocked && !l.conflict
    requires 0 <= r < |c.recipes[b]| && s.endOk
    ensures var choose, reset, end := SelectRecipe(b, r), LineTick(b, Reset, ask, s), LineTick(b, NoCommand, ask, s);
      && Possible(c, choose) && Possible(c, reset) && Possible(c, end)
      && var chosen := Happen(c, st, choose);
      Consistent(c, chosen)
      && var stopped := Happen(c, chosen, reset);
      Consistent(c, stopped)
      && var after := Happen(c, stopped, end);
      Consistent(c, after) && after.lines[a].recipe == st.lines[a].recipe
      && (InPosition(c, a, after.open, RecipeOf(c, after, a)) <==>
            !Spoils(c, b, c.recipes[b][r], a, RecipeOf(c, st, a)))
  {
    hide Tick, Devices, InPosition, Spoils, OwnRange;
    var choose, reset, end := SelectRecipe(b, r), LineTick(b, Reset, ask, s), LineTick(b, NoCommand, ask, s);
    HappenKeepsConsistent(c, st, choose);
    var chosen := Happen(c, st, choose);
    HappenKeepsConsistent(c, chosen, reset);
    var stopped := Happen(c, chosen, reset);
    ResetLeadsToEnd(chosen.lines[b], NotNow, s);
    assert stopped.lines[b] == Tick(chosen.lines[b], Reset, NotNow, s);
    assert stopped.open == st.open;
    HappenKeepsConsistent(c, stopped, end);
    var q := c.recipes[b][r];
    EndKeepsPosition(c, a, RecipeOf(c, st, a), b, q, st.open);
    OwnRangeIsForeign(c, a, RecipeOf(c, st, a), b, st.open - Devices(c, b, q.on));
  }

  lemma ResetLeadsToEnd(l: LineView, start: Start, s: Sense)
    requires l.state != 0 && !l.blocked && !l.conflict && s.endOk
    ensures var q := Tick(l, Reset, start, s);
      q.step == STEP_END && q.state == 1 && !q.blocked && !q.conflict && q.recipe == l.recipe
      && Ends(q, NoCommand, s) && !Ends(l, Reset, s)
  {
    hide InitStep, StopDev;
  }

  /** The own valves of another line are none of a recipe's shared ones. */
  lemma OwnRangeIsForeign(c: Config, k: nat, r: Recipe, j: nat, open: set<Device>)
    ensures InPosition(c, k, open - OwnRange(j), r) <==> InPosition(c, k, open, r)
  {
    assert forall n :: Shared(n) in open - OwnRange(j) <==> Shared(n) in open;
  }
}

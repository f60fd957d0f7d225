/** A washing station: several lines share valves and one self-clean lock. */
module CipStationSpec {
  import opened Wrappers
  import opened CipProgram
  import opened CipSchedule
  import opened CipRouting
  import opened CipSpec
  import opened CipControl
  import opened CipSafety

  /** The shared valves a recipe opens and the ones it holds shut. */
  datatype Recipe = Recipe(on: seq<int>, off: seq<int>)

  /** A recipe's valve number means the line's own valve where it has one. */
  datatype Device = Own(line: nat, n: int) | Shared(n: int)

  datatype Config = Config(
    scEnabled: bool,                 // self-cleaning is available
    recipes: seq<seq<Recipe>>,       // the recipe table of each line
    own: set<(nat, int)>,            // valves that belong to one line
    known: set<int>)                 // valves of the whole station

  datatype Station = Station(lines: seq<LineView>, scLine: nat, open: set<Device>)

  /** What the start of a line asks besides the sensors. */
  datatype Ask = Ask(
    switches: bool,       // some switch of a car wash is set
    acidDue: bool,        // too many caustic washes since the last acid one
    junkConflict: bool)   // what the check reads when no recipe is loaded

  const NO_LINE: nat := 0
  const EXEMPT := 1000

  predicate Consistent(c: Config, st: Station) {
    |st.lines| == |c.recipes| && st.scLine <= |st.lines|
    && forall k | 0 <= k < |st.lines| :: st.lines[k].recipe < |c.recipes[k]|
  }

  /**
    * Both recipes use a valve, and at least one of them opens it. Numbers of
    * 1000 and above are exempt.
    */
  predicate ClashAt(a: Recipe, b: Recipe, n: int) {
    n != 0 && n < EXEMPT
    && ((n in a.on && (n in b.on || n in b.off)) || (n in a.off && n in b.on))
  }

  ghost predicate Clash(a: Recipe, b: Recipe) {
    exists n :: ClashAt(a, b, n)
  }

  lemma ClashIsMutual(a: Recipe, b: Recipe)
    ensures Clash(a, b) <==> Clash(b, a)
  {
    forall n ensures ClashAt(a, b, n) == ClashAt(b, a, n) { }
    if Clash(a, b) { var n :| ClashAt(a, b, n); assert ClashAt(b, a, n); }
    if Clash(b, a) { var n :| ClashAt(b, a, n); assert ClashAt(a, b, n); }
  }

  function RecipeOf(c: Config, st: Station, k: nat): Recipe
    requires Consistent(c, st) && k < |st.lines| && st.lines[k].recipe >= 0
  {
    c.recipes[k][st.lines[k].recipe]
  }

  /** A line whose recipe counts when another line wants to start. */
  predicate Counts(st: Station, j: nat)
    requires j < |st.lines|
  {
    st.lines[j].state != 0 && st.lines[j].recipe >= 0
  }

  ghost predicate ConflictsAtStart(c: Config, st: Station, k: nat, ask: Ask)
    requires Consistent(c, st) && k < |st.lines|
  {
    if st.lines[k].recipe < 0 then ask.junkConflict
    else exists j: nat | j < |st.lines| && j != k && Counts(st, j) ::
      Clash(RecipeOf(c, st, k), RecipeOf(c, st, j))
  }

  function DeviceOf(c: Config, k: nat, n: int): Option<Device> {
    if n <= 0 then None
    else if (k, n) in c.own then Some(Own(k, n))
    else if n in c.known then Some(Shared(n))
    else None
  }

  function Devices(c: Config, k: nat, ns: seq<int>): set<Device> {
    set n | n in ns && DeviceOf(c, k, n).Some? :: DeviceOf(c, k, n).value
  }

  /** The line's own valves 1001 to 1099 are shut around every run. */
  function OwnRange(k: nat): set<Device> {
    set n | 1001 <= n <= 1099 :: Own(k, n)
  }

  function RecipeOn(c: Config, open: set<Device>, k: nat, recipe: int): set<Device>
    requires k < |c.recipes| && recipe < |c.recipes[k]|
  {
    if recipe < 0 then open
    else open + Devices(c, k, c.recipes[k][recipe].on) - Devices(c, k, c.recipes[k][recipe].off)
  }

  function RecipeOff(c: Config, open: set<Device>, k: nat, recipe: int): set<Device>
    requires k < |c.recipes| && recipe < |c.recipes[k]|
  {
    if recipe < 0 then open else open - Devices(c, k, c.recipes[k][recipe].on)
  }

  // ---- Starting ----

  predicate AsksToStart(st: Station, k: nat, cmd: Command)
    requires k < |st.lines|
  {
    cmd == Evaluate && !st.lines[k].blocked && MayStart(st.lines[k])
  }

  ghost predicate OthersIdle(st: Station, k: nat) {
    forall j: nat | j < |st.lines| && j != k :: st.lines[j].state == 0
  }

  /**
    * While the tanks are being cleaned no other line may start, and cleaning
    * may start only when all other lines are at rest.
    */
  ghost predicate LockAllows(c: Config, st: Station, k: nat)
    requires k < |st.lines|
  {
    c.scEnabled ==>
      (st.scLine == NO_LINE || st.scLine == k + 1)
      && (st.scLine == NO_LINE && st.lines[k].program == SPROG_SELF_CLEAN ==> OthersIdle(st, k))
  }

  predicate SwitchesAllow(l: LineView, ask: Ask) {
    l.carWash && !ask.switches ==>
      l.program in {SPROG_ACID_PREPARATION, SPROG_CAUSTIC_PREPARATION, SPROG_SELF_CLEAN}
  }

  ghost function Decision(c: Config, st: Station, k: nat, ask: Ask, s: Sense): Start
    requires Consistent(c, st) && k < |st.lines|
  {
    var l := st.lines[k];
    if !LockAllows(c, st, k) || !SwitchesAllow(l, ask) then NotNow
    else if ConflictsAtStart(c, st, k, ask) then Conflict
    else if s.devicesBad then BadDevices
    else if ask.acidDue && !Bit(l.program, PRG_K) && Bit(l.program, PRG_S) then AcidWash
    else Go
  }

  ghost function StartOf(c: Config, st: Station, k: nat, cmd: Command, ask: Ask, s: Sense): Start
    requires Consistent(c, st) && k < |st.lines|
  {
    if AsksToStart(st, k, cmd) then Decision(c, st, k, ask, s) else NotNow
  }

  ghost predicate TakesLock(c: Config, st: Station, k: nat, cmd: Command)
    requires k < |st.lines|
  {
    AsksToStart(st, k, cmd) && c.scEnabled && LockAllows(c, st, k) && st.lines[k].program == SPROG_SELF_CLEAN
  }

  /** The tick in which a line finishes its program and is reset. */
  predicate Ends(l: LineView, cmd: Command, s: Sense) {
    cmd in {NoCommand, Lock, Unlock} && !Block(l, cmd).blocked && Block(l, cmd).state > 0 && Finishes(l, s)
  }

  ghost function OpenAfter(c: Config, st: Station, k: nat, cmd: Command, ask: Ask, s: Sense): set<Device>
    requires Consistent(c, st) && k < |st.lines|
  {
    var l := st.lines[k];
    if StartOf(c, st, k, cmd, ask, s) == Go then RecipeOn(c, st.open - OwnRange(k), k, l.recipe)
    else if Ends(l, cmd, s) && !l.conflict then RecipeOff(c, st.open, k, l.recipe) - OwnRange(k)
    else st.open
  }

  ghost function LockAfter(c: Config, st: Station, k: nat, cmd: Command, s: Sense): nat
    requires k < |st.lines|
  {
    if TakesLock(c, st, k, cmd) then k + 1
    else if Ends(st.lines[k], cmd, s) && c.scEnabled && st.scLine == k + 1 then NO_LINE
    else st.scLine
  }

  /** One call of evaluate() for line k. */
  ghost function TickStation(c: Config, st: Station, k: nat, cmd: Command, ask: Ask, s: Sense): Station
    requires Consistent(c, st) && k < |st.lines|
  {
    Station(st.lines[k := Tick(st.lines[k], cmd, StartOf(c, st, k, cmd, ask, s), s)],
            LockAfter(c, st, k, cmd, s), OpenAfter(c, st, k, cmd, ask, s))
  }

  /** What happens at a station, in any order and on any line. */
  datatype Happening =
    | LineTick(line: nat, cmd: Command, ask: Ask, s: Sense)
    | SelectProgram(line: nat, program: nat)
    | SelectRecipe(line: nat, recipe: int)

  predicate Possible(c: Config, h: Happening) {
    h.line < |c.recipes| && (h.SelectRecipe? ==> h.recipe < |c.recipes[h.line]|)
  }

  ghost function Happen(c: Config, st: Station, h: Happening): Station
    requires Consistent(c, st) && Possible(c, h)
  {
    match h
    case LineTick(k, cmd, ask, s) => TickStation(c, st, k, cmd, ask, s)
    case SelectProgram(k, p) => st.(lines := st.lines[k := st.lines[k].(program := p)])
    case SelectRecipe(k, r) => st.(lines := st.lines[k := st.lines[k].(recipe := r)])
  }

  lemma TickKeepsRecipe(l: LineView, cmd: Command, start: Start, s: Sense)
    ensures Tick(l, cmd, start, s).recipe in {l.recipe, NO_RECIPE}
  {
    hide InitStep, DoStep, GoToStep, LoadProgram, EvalPids;
  }

  lemma HappenKeepsConsistent(c: Config, st: Station, h: Happening)
    requires Consistent(c, st) && Possible(c, h)
    ensures Consistent(c, Happen(c, st, h)) && |Happen(c, st, h).lines| == |st.lines|
  {
    hide Tick, Ends, OpenAfter;
    if h.LineTick? {
      TickKeepsRecipe(st.lines[h.line], h.cmd, StartOf(c, st, h.line, h.cmd, h.ask, h.s), h.s);
    }
  }
}

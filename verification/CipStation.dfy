/**
  * The station as an object: the lines, the self-clean lock and the shared
  * valves, with the loops over recipes and lines.
  */
module CipStation {
  import opened Wrappers
  import opened CipProgram
  import opened CipRouting
  import opened CipSpec
  import opened CipControl
  import opened CipStationSpec
  import CipTech

  class Plant {
    const cfg: Config
    const mdls: seq<CipTech.Line>
    var scline: nat
    var open: set<Device>

    ghost predicate Valid()
      reads this
    {
      |mdls| == |cfg.recipes| && forall i, j | 0 <= i < j < |mdls| :: mdls[i] != mdls[j]
    }

    /** The object is in the given state of the specification. */
    ghost predicate Shows(st: Station)
      reads this, mdls
    {
      && |mdls| == |st.lines|
      && (forall i | 0 <= i < |mdls| :: mdls[i].View() == st.lines[i])
      && scline == st.scLine && open == st.open
    }

    constructor (cfg: Config, mdls: seq<CipTech.Line>)
      requires |mdls| == |cfg.recipes| && forall i, j | 0 <= i < j < |mdls| :: mdls[i] != mdls[j]
      ensures Valid() && this.cfg == cfg && this.mdls == mdls && scline == NO_LINE && open == {}
    {
      this.cfg := cfg;
      this.mdls := mdls;
      scline := NO_LINE;
      open := {};
    }

    /**
      * Does another line's recipe use the valve? A valve held shut only
      * matters to a line that opens it.
      */
    method ValveUsedBy(r: Recipe, n: int, opens: bool) returns (used: bool)
      ensures used == (n in r.on || (opens && n in r.off))
    {
      var all := if opens then r.on + r.off else r.on;
      var k := 0;
      while k < |all|
        invariant 0 <= k <= |all|
        invariant n !in all[..k]
      {
        if all[k] == n { return true; }
        k := k + 1;
      }
      assert all[..|all|] == all;
      return false;
    }

    /** Does a started line other than k use the valve? */
    method ValveConflicts(k: nat, n: int, opens: bool, ghost st: Station) returns (conflict: bool)
      requires Valid() && Shows(st) && Consistent(cfg, st) && k < |mdls|
      ensures conflict <==> n < EXEMPT && exists j: nat | j < |mdls| && j != k && Counts(st, j) ::
        UsesValve(RecipeOf(cfg, st, j), n, opens)
    {
      var j := 0;
      while j < |mdls|
        invariant 0 <= j <= |mdls|
        invariant n < EXEMPT ==> forall i: nat | i < j && i != k && Counts(st, i) ::
          !UsesValve(RecipeOf(cfg, st, i), n, opens)
      {
        if j != k && mdls[j].state != 0 && mdls[j].loadedRecipe >= 0 {
          assert Counts(st, j);
          var used := ValveUsedBy(cfg.recipes[j][mdls[j].loadedRecipe], n, opens);
          if used && n < EXEMPT { return true; }
        }
        j := j + 1;
      }
      return false;
    }

    /**
      * getValvesConflict(): every used entry of the recipe against every
      * started line. The contract does not mention entries or their order.
      */
    method GetValvesConflict(k: nat, ghost st: Station) returns (conflict: bool)
      requires Valid() && Shows(st) && Consistent(cfg, st) && k < |mdls| && st.lines[k].recipe >= 0
      ensures conflict <==> exists j: nat | j < |mdls| && j != k && Counts(st, j) ::
        Clash(RecipeOf(cfg, st, k), RecipeOf(cfg, st, j))
    {
      var mine := cfg.recipes[k][mdls[k].loadedRecipe];
      var all := mine.on + mine.off;
      var i := 0;
      while i < |all|
        invariant 0 <= i <= |all|
        invariant forall e: nat, j: nat | e < i && j < |mdls| && j != k && Counts(st, j) ::
          !EntryClashes(mine, e, RecipeOf(cfg, st, j))
      {
        if all[i] != 0 {
          conflict := ValveConflicts(k, all[i], i < |mine.on|, st);
          if conflict {
            ghost var j: nat :| j < |mdls| && j != k && Counts(st, j)
                && UsesValve(RecipeOf(cfg, st, j), all[i], i < |mine.on|);
            assert EntryClashes(mine, i, RecipeOf(cfg, st, j));
            EntryClashIsClash(mine, i, RecipeOf(cfg, st, j));
            return true;
          }
        }
        i := i + 1;
      }
      forall j: nat | j < |mdls| && j != k && Counts(st, j) ensures !Clash(mine, RecipeOf(cfg, st, j)) {
        if Clash(mine, RecipeOf(cfg, st, j)) {
          var e := ClashHasEntry(mine, RecipeOf(cfg, st, j));
        }
      }
      return false;
    }

    /** Switches the devices of some recipe entries. */
    method Switch(k: nat, ns: seq<int>, on: bool)
      modifies `open
      ensures open == if on then old(open) + Devices(cfg, k, ns) else old(open) - Devices(cfg, k, ns)
    {
      var i := 0;
      while i < |ns|
        invariant 0 <= i <= |ns|
        invariant open == if on then old(open) + Devices(cfg, k, ns[..i]) else old(open) - Devices(cfg, k, ns[..i])
      {
        DevicesOneMore(cfg, k, ns, i);
        var d := DeviceOf(cfg, k, ns[i]);
        if d.Some? {
          if on { open := open + {d.value}; } else { open := open - {d.value}; }
        }
        i := i + 1;
      }
      assert ns[..|ns|] == ns;
    }

    method OnRecipeDevices(k: nat, recipe: int)
      requires k < |cfg.recipes| && recipe < |cfg.recipes[k]|
      modifies `open
      ensures open == RecipeOn(cfg, old(open), k, recipe)
    {
      if recipe < 0 { return; }
      Switch(k, cfg.recipes[k][recipe].on, true);
      Switch(k, cfg.recipes[k][recipe].off, false);
    }

    method OffRecipeDevices(k: nat, recipe: int)
      requires k < |cfg.recipes| && recipe < |cfg.recipes[k]|
      modifies `open
      ensures open == RecipeOff(cfg, old(open), k, recipe)
    {
      if recipe < 0 { return; }
      Switch(k, cfg.recipes[k][recipe].on, false);
    }

    method CloseLineValves(k: nat)
      modifies `open
      ensures open == old(open) - OwnRange(k)
    {
      var i := 1001;
      while i <= 1099
        invariant 1001 <= i <= 1100
        invariant open == old(open) - (set n | 1001 <= n < i :: Own(k, n))
      {
        open := open - {Own(k, i)};
        i := i + 1;
      }
    }

    method OthersAtRest(k: nat, ghost st: Station) returns (idle: bool)
      requires Valid() && Shows(st) && k < |mdls|
      ensures idle == OthersIdle(st, k)
    {
      var j := 0;
      while j < |mdls|
        invariant 0 <= j <= |mdls|
        invariant forall i: nat | i < j && i != k :: st.lines[i].state == 0
      {
        if mdls[j].state != 0 && j != k {
          assert st.lines[j].state != 0;
          return false;
        }
        j := j + 1;
      }
      return true;
    }

    /** The lock and the switches decide whether the line may start at all. */
    method MayBegin(k: nat, ask: Ask, ghost st: Station) returns (may: bool)
      requires Valid() && Shows(st) && k < |mdls|
      modifies `scline
      ensures may == (LockAllows(cfg, st, k) && SwitchesAllow(st.lines[k], ask))
      ensures scline == if cfg.scEnabled && LockAllows(cfg, st, k) && st.lines[k].program == SPROG_SELF_CLEAN then k + 1
                        else old(scline)
    {
      var l := mdls[k];
      if cfg.scEnabled {
        if scline != NO_LINE && scline != k + 1 { return false; }
        if scline == NO_LINE && l.program == SPROG_SELF_CLEAN {
          var idle := OthersAtRest(k, st);
          if !idle { return false; }
        }
        if l.program == SPROG_SELF_CLEAN {
          scline := k + 1;
        }
      }
      if l.carWash && !ask.switches && l.program != SPROG_ACID_PREPARATION
         && l.program != SPROG_CAUSTIC_PREPARATION && l.program != SPROG_SELF_CLEAN {
        return false;
      }
      return true;
    }

    method DecideStart(k: nat, ask: Ask, s: Sense, ghost st: Station) returns (start: Start)
      requires Valid() && Shows(st) && Consistent(cfg, st) && k < |mdls|
      modifies `scline
      ensures start == Decision(cfg, st, k, ask, s)
      ensures scline == if cfg.scEnabled && LockAllows(cfg, st, k) && st.lines[k].program == SPROG_SELF_CLEAN then k + 1
                        else old(scline)
    {
      hide Clash, LockAllows, SwitchesAllow;
      var conflict := ask.junkConflict;
      if mdls[k].loadedRecipe >= 0 {
        conflict := GetValvesConflict(k, st);
      }
      var may := MayBegin(k, ask, st);
      if !may { return NotNow; }
      if conflict { return Conflict; }
      if s.devicesBad { return BadDevices; }
      if ask.acidDue && !Bit(mdls[k].program, PRG_K) && Bit(mdls[k].program, PRG_S) { return AcidWash; }
      return Go;
    }

    /** evaluate() of line k. */
    method EvaluateLine(k: nat, cmd: Command, ask: Ask, s: Sense, ghost st: Station)
      requires Valid() && Shows(st) && Consistent(cfg, st) && k < |mdls|
      modifies `scline, `open, mdls[k]
      ensures Valid() && Shows(TickStation(cfg, st, k, cmd, ask, s))
    {
      hide Tick, Decision, LockAllows, RecipeOn, RecipeOff, OwnRange, MayStart;
      var l := mdls[k];
      var start := NotNow;
      var recipe, conflict := l.loadedRecipe, l.valvesAreInConflict;
      if cmd == Evaluate && !l.blocked && MayStart(l.View()) {
        start := DecideStart(k, ask, s, st);
        if start == Go {
          CloseLineValves(k);
          OnRecipeDevices(k, recipe);
        }
      }
      var ends := Ends(l.View(), cmd, s);
      l.TickLine(cmd, start, s);
      if ends {
        if !conflict {
          OffRecipeDevices(k, recipe);
          CloseLineValves(k);
        }
        if cfg.scEnabled && scline == k + 1 {
          scline := NO_LINE;
        }
      }
    }
  }

  /**
    * Is the valve among those of a recipe that concern a line opening it, or
    * holding it shut?
    */
  predicate UsesValve(r: Recipe, n: int, opens: bool) {
    n in r.on || (opens && n in r.off)
  }

  /** Entry e of recipe a clashes with recipe b. */
  predicate EntryClashes(a: Recipe, e: nat, b: Recipe) {
    e < |a.on + a.off| && (a.on + a.off)[e] != 0 && (a.on + a.off)[e] < EXEMPT
    && UsesValve(b, (a.on + a.off)[e], e < |a.on|)
  }

  lemma EntryClashIsClash(a: Recipe, e: nat, b: Recipe)
    requires EntryClashes(a, e, b)
    ensures Clash(a, b)
  {
    var n := (a.on + a.off)[e];
    assert if e < |a.on| then n in a.on else n in a.off;
    assert ClashAt(a, b, n);
  }

  lemma ClashHasEntry(a: Recipe, b: Recipe) returns (e: nat)
    requires Clash(a, b)
    ensures EntryClashes(a, e, b)
  {
    var n :| ClashAt(a, b, n);
    if n in a.on && (n in b.on || n in b.off) {
      e :| 0 <= e < |a.on| && a.on[e] == n;
    } else {
      var f :| 0 <= f < |a.off| && a.off[f] == n;
      e := |a.on| + f;
      assert (a.on + a.off)[e] == n;
    }
  }

  lemma DevicesOneMore(c: Config, k: nat, ns: seq<int>, i: nat)
    requires i < |ns|
    ensures Devices(c, k, ns[..i + 1])
         == Devices(c, k, ns[..i]) + (if DeviceOf(c, k, ns[i]).Some? then {DeviceOf(c, k, ns[i]).value} else {})
  {
    assert ns[..i + 1] == ns[..i] + [ns[i]];
  }
}

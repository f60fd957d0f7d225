/**
  * The text file of parameter recipes (PAC/common/params_recipe_manager.cpp, ParamsRecipeStorage): its sizes, and for
  * each recipe a line with its name and a line with its values. A value is kept as the text that is printed for it.
  */
module RecipeFile {
  import opened Wrappers
  import opened StatsFormat

  datatype Recipe = Recipe(name: string, params: seq<string>)

  datatype Storage = Storage(count: nat, width: nat, recipes: seq<Recipe>)

  /** What a new parameter holds, and what fills up a recipe that was written with fewer. */
  const ZERO := "0"

  predicate Sized(s: Storage) {
    |s.recipes| == s.count && forall i :: 0 <= i < s.count ==> |s.recipes[i].params| == s.width
  }

  predicate Line(name: string) {
    '\n' !in name
  }

  predicate Token(t: string) {
    t != [] && forall k :: 0 <= k < |t| ==> !Space(t[k])
  }

  predicate Proper(r: Recipe) {
    Line(r.name) && forall j :: 0 <= j < |r.params| ==> Token(r.params[j])
  }

  predicate Writable(s: Storage) {
    Sized(s) && forall i :: 0 <= i < s.count ==> Proper(s.recipes[i])
  }

  // ---- writing -----------------------------------------------------------------------------------------------------

  function ParamsText(ps: seq<string>): string {
    if ps == [] then "" else ps[0] + " " + ParamsText(ps[1..])
  }

  function RecipeText(r: Recipe): string {
    r.name + "\n" + ParamsText(r.params) + "\n"
  }

  function RecipesText(rs: seq<Recipe>): string {
    if rs == [] then "" else RecipeText(rs[0]) + RecipesText(rs[1..])
  }

  function Text(s: Storage): string {
    Number(s.count) + " " + Number(s.width) + "\n" + RecipesText(s.recipes)
  }

  /** What the format looks like: the sizes, and for each recipe a line with its name and one with its values. */
  lemma SampleText(a: Recipe, b: Recipe)
    requires a.params == ["1", "2.5"]
    ensures RecipeText(a) == a.name + "\n" + "1 2.5 " + "\n"
    ensures Text(Storage(2, 2, [a, b])) == "2 2\n" + RecipeText(a) + RecipeText(b)
  {
    assert ["1", "2.5"][1..] == ["2.5"] && ["2.5"][1..] == [];
    assert ParamsText(["2.5"]) == "2.5 ";
    assert ParamsText(["1", "2.5"]) == "1 2.5 ";
    SampleTable(a, b);
    hide ParamsText;
  }

  lemma SampleTable(a: Recipe, b: Recipe)
    ensures Text(Storage(2, 2, [a, b])) == "2 2\n" + RecipeText(a) + RecipeText(b)
  {
    SampleNumbers();
    hide Number, RecipeText;
    assert [a, b][1..] == [b] && [b][1..] == [];
    assert RecipesText([b]) == RecipeText(b);
  }

  // ---- reading -----------------------------------------------------------------------------------------------------

  /** Drops one character, if there is one. */
  function Ignore(t: string): string {
    if t == [] then t else t[1..]
  }

  function LineEnd(t: string): (k: nat)
    ensures k <= |t| && '\n' !in t[..k] && (k < |t| ==> t[k] == '\n')
  {
    if t == [] || t[0] == '\n' then 0
    else
      var k := LineEnd(t[1..]);
      assert t[..k + 1] == [t[0]] + t[1..][..k];
      k + 1
  }

  function GetLine(t: string): (string, string) {
    var k := LineEnd(t);
    (t[..k], t[if k < |t| then k + 1 else k..])
  }

  function TokenEnd(t: string): (k: nat)
    ensures k <= |t| && (forall i :: 0 <= i < k ==> !Space(t[i])) && (k < |t| ==> Space(t[k]))
  {
    if t == [] || Space(t[0]) then 0 else 1 + TokenEnd(t[1..])
  }

  function ReadToken(t: string): Option<(string, string)> {
    var s := SkipSpace(t);
    var k := TokenEnd(s);
    if k == 0 then None else Some((s[..k], s[k..]))
  }

  /** Reads the values from number j on; those that do not fit into the recipe are read and dropped. */
  function ReadParams(t: string, j: nat, pc: nat, ps: seq<string>): Option<(seq<string>, string)>
    decreases pc - j
  {
    if j >= pc then Some((ps, t))
    else
      match ReadToken(t)
      case None => None
      case Some((x, rest)) => ReadParams(rest, j + 1, pc, if j < |ps| then ps[j := x] else ps)
  }

  function ZeroParams(n: nat): (ps: seq<string>)
    ensures |ps| == n
  {
    seq(n, i => ZERO)
  }

  function ReadRecipe(t: string, pc: nat, width: nat): Option<(Recipe, string)> {
    var (name, t1) := GetLine(Ignore(t));
    match ReadParams(t1, 0, pc, ZeroParams(width))
    case None => None
    case Some((ps, t2)) => Some((Recipe(name, ps), Ignore(t2)))
  }

  function ReadRecipes(t: string, i: nat, rc: nat, pc: nat, s: Storage): Option<Storage>
    decreases rc - i
  {
    if i >= rc then Some(s)
    else
      match ReadRecipe(t, pc, s.width)
      case None => None
      case Some((r, rest)) =>
        ReadRecipes(rest, i + 1, rc, pc, if i < |s.recipes| then s.(recipes := s.recipes[i := r]) else s)
  }

  function Positive(n: int): nat {
    if n < 0 then 0 else n
  }

  function Read(t: string, s: Storage): Option<Storage> {
    match ReadInt(t)
    case None => None
    case Some((rc, t1)) =>
      match ReadInt(t1)
      case None => None
      case Some((pc, t2)) => ReadRecipes(t2, 0, Positive(rc), Positive(pc), s)
  }

  // ---- what should come back ----------------------------------------------------------------------------------------

  /** A recipe of the file in a storage of another width: its first values, then zeros. */
  function Fitted(r: Recipe, width: nat): Recipe {
    Recipe(r.name, seq(width, j requires 0 <= j < width => if j < |r.params| then r.params[j] else ZERO))
  }

  function Expected(from: Storage, to: Storage): Storage {
    to.(recipes := seq(|to.recipes|, i requires 0 <= i < |to.recipes| =>
                     if i < |from.recipes| then Fitted(from.recipes[i], to.width) else to.recipes[i]))
  }

  ghost predicate ComesBack(from: Storage, to: Storage) {
    Read(Text(from), to) == Some(Expected(from, to))
  }

  /** Files of this size are always read back as expected, into storages of any size. */
  ghost predicate AlwaysComesBack(rc: nat, pc: nat) {
    forall from: Storage, to: Storage ::
      from.count == rc && from.width == pc && Writable(from) && Sized(to) ==> ComesBack(from, to)
  }

  // ---- proofs -------------------------------------------------------------------------------------------------------

  lemma {:induction false} LineStops(name: string, t: string)
    requires Line(name)
    ensures LineEnd(name + "\n" + t) == |name|
  {
    var s := name + "\n" + t;
    if name != [] {
      assert s[1..] == name[1..] + "\n" + t;
      LineStops(name[1..], t);
    }
  }

  lemma GetLineBack(name: string, t: string)
    requires Line(name)
    ensures GetLine(name + "\n" + t) == (name, t)
  {
    LineStops(name, t);
    var s := name + "\n" + t;
    assert s[..|name|] == name && s[|name| + 1..] == t;
  }

  lemma {:induction false} TokenStops(x: string, t: string)
    requires (forall k :: 0 <= k < |x| ==> !Space(x[k])) && t != [] && Space(t[0])
    ensures TokenEnd(x + t) == |x|
  {
    if x == [] {
      assert x + t == t;
    } else {
      assert (x + t)[1..] == x[1..] + t;
      TokenStops(x[1..], t);
    }
  }

  lemma ReadTokenBack(x: string, t: string)
    requires Token(x)
    ensures ReadToken(x + (" " + t)) == Some((x, " " + t))
    ensures ReadToken(" " + (x + (" " + t))) == Some((x, " " + t))
  {
    var s := x + (" " + t);
    TokenStops(x, " " + t);
    assert s[0] == x[0];
    assert SkipSpace(s) == s;
    assert (" " + s)[1..] == s;
    assert SkipSpace(" " + s) == s;
    assert s[..|x|] == x && s[|x|..] == " " + t;
  }

  /** The values already read, put over the old ones. */
  function Over(ps: seq<string>, xs: seq<string>): (r: seq<string>)
    ensures |r| == |ps|
  {
    seq(|ps|, j requires 0 <= j < |ps| => if j < |xs| then xs[j] else ps[j])
  }

  /** Before the first value the text starts at once, before every later one there is a blank. */
  function Blank(j: nat): string {
    if j == 0 then "" else " "
  }

  lemma {:induction false} ReadParamsBack(xs: seq<string>, j: nat, ps: seq<string>, t: string)
    requires (forall k :: 0 <= k < |xs| ==> Token(xs[k])) && j <= |xs| && |xs| > 0
    ensures ReadParams(Blank(j) + RestText(xs, j, t), j, |xs|, Over(ps, xs[..j])) == Some((Over(ps, xs), " " + t))
    decreases |xs| - j
  {
    if j == |xs| {
      assert xs[..j] == xs;
    } else {
      hide ReadToken, Token;
      var next := Over(ps, xs[..j]);
      var rest := " " + RestText(xs, j + 1, t);
      assert Token(xs[j]);
      assert RestText(xs, j, t) == xs[j] + rest;
      ReadTokenBack(xs[j], RestText(xs, j + 1, t));
      assert Blank(j) + (xs[j] + rest) == if j == 0 then xs[j] + rest else " " + (xs[j] + rest);
      assert Over(ps, xs[..j + 1]) == if j < |next| then next[j := xs[j]] else next;
      ReadParamsBack(xs, j + 1, ps, t);
    }
  }

  /** What is left of the line of values from number j on, without the blank in front. */
  function RestText(xs: seq<string>, j: nat, t: string): string
    requires j <= |xs|
    decreases |xs| - j
  {
    if j == |xs| then t else xs[j] + (" " + RestText(xs, j + 1, t))
  }

  lemma {:induction false} RestIsParamsText(xs: seq<string>, j: nat, t: string)
    requires j <= |xs|
    ensures RestText(xs, j, t) == ParamsText(xs[j..]) + t
    decreases |xs| - j
  {
    if j < |xs| {
      RestIsParamsText(xs, j + 1, t);
      assert xs[j..][0] == xs[j] && xs[j..][1..] == xs[j + 1..];
    }
  }

  lemma FittedIsOver(r: Recipe, width: nat)
    ensures Fitted(r, width).params == Over(ZeroParams(width), r.params)
  {
  }

  /** A recipe with at least one value comes back, and leaves the reader just before the end of its line. */
  lemma ReadRecipeBack(r: Recipe, width: nat, t: string)
    requires Proper(r) && |r.params| > 0
    ensures ReadRecipe("\n" + RecipeText(r) + t, |r.params|, width) == Some((Fitted(r, width), "\n" + t))
  {
    hide ReadParams, Token, RestText, ParamsText;
    var after := "\n" + t;
    var values := ParamsText(r.params) + after;
    assert "\n" + RecipeText(r) + t == "\n" + (r.name + "\n" + values);
    assert Ignore("\n" + (r.name + "\n" + values)) == r.name + "\n" + values;
    GetLineBack(r.name, values);
    RestIsParamsText(r.params, 0, after);
    assert r.params[0..] == r.params && r.params[..0] == [];
    assert Blank(0) + RestText(r.params, 0, after) == values;
    ReadParamsBack(r.params, 0, ZeroParams(width), after);
    assert Over(ZeroParams(width), []) == ZeroParams(width);
    FittedIsOver(r, width);
    assert Ignore(" " + after) == after;
  }

  /** The storage after the first i recipes of the file. */
  function Partly(from: Storage, to: Storage, i: nat): (r: Storage)
    ensures |r.recipes| == |to.recipes|
  {
    to.(recipes := seq(|to.recipes|, k requires 0 <= k < |to.recipes| =>
                     if k < i && k < |from.recipes| then Fitted(from.recipes[k], to.width) else to.recipes[k]))
  }

  lemma {:induction false} ReadRecipesBack(from: Storage, to: Storage, i: nat)
    requires Writable(from) && from.width > 0 && i <= from.count
    ensures ReadRecipes("\n" + RecipesText(from.recipes[i..]), i, from.count, from.width, Partly(from, to, i)) ==
            Some(Expected(from, to))
    decreases from.count - i
  {
    hide RecipeText, Proper, ReadRecipe, Fitted;
    var rs := from.recipes;
    if i == from.count {
      assert Partly(from, to, i).recipes == Expected(from, to).recipes;
    } else {
      assert rs[i..][0] == rs[i] && rs[i..][1..] == rs[i + 1..];
      var rest := RecipesText(rs[i + 1..]);
      assert "\n" + RecipesText(rs[i..]) == "\n" + RecipeText(rs[i]) + rest;
      ReadRecipeBack(rs[i], to.width, rest);
      var now := Partly(from, to, i);
      var next := if i < |now.recipes| then now.(recipes := now.recipes[i := Fitted(rs[i], to.width)]) else now;
      assert next.recipes == Partly(from, to, i + 1).recipes;
      ReadRecipesBack(from, to, i + 1);
    }
  }

  lemma ReadHeader(from: Storage, to: Storage)
    ensures Read(Text(from), to) == ReadRecipes("\n" + RecipesText(from.recipes), 0, from.count, from.width, to)
  {
    hide Number, ReadInt, ReadRecipes;
    var t2 := "\n" + RecipesText(from.recipes);
    var t1 := " " + Number(from.width) + t2;
    assert Text(from) == Number(from.count) + t1;
    ReadIntBack(from.count, t1);
    ReadIntAfter(' ', from.width, t2);
  }

  lemma OneWithoutParams(from: Storage, to: Storage)
    requires Writable(from) && from.width == 0 && from.count <= 1
    ensures ComesBack(from, to)
  {
    hide ReadRecipe, Fitted, RecipesText;
    ReadHeader(from, to);
    if from.count == 1 {
      var r := from.recipes[0];
      assert from.recipes == [r];
      LoneRecipe(r, to.width);
      var next := if 0 < |to.recipes| then to.(recipes := to.recipes[0 := Fitted(r, to.width)]) else to;
      assert next.recipes == Expected(from, to).recipes;
    } else {
      assert Expected(from, to).recipes == to.recipes;
    }
  }

  lemma LoneRecipe(r: Recipe, width: nat)
    requires Line(r.name) && r.params == []
    ensures ReadRecipe("\n" + RecipesText([r]), 0, width) == Some((Fitted(r, width), ""))
  {
    assert [r][1..] == [];
    var t := "\n" + RecipesText([r]);
    assert ParamsText(r.params) == "" && RecipesText([r]) == RecipeText(r) + RecipesText([]);
    assert t == "\n" + (r.name + "\n" + "\n");
    assert Ignore(t) == r.name + "\n" + "\n";
    GetLineBack(r.name, "\n");
    assert Fitted(r, width).params == ZeroParams(width);
  }

  lemma {:induction false} EarlierStay(t: string, i: nat, rc: nat, pc: nat, s: Storage, k: nat)
    requires k < i && k < |s.recipes|
    ensures var r := ReadRecipes(t, i, rc, pc, s); r.Some? ==>
      |r.value.recipes| == |s.recipes| && r.value.recipes[k] == s.recipes[k]
    decreases rc - i
  {
    hide ReadRecipe;
    if i < rc && ReadRecipe(t, pc, s.width).Some? {
      var (r, rest) := ReadRecipe(t, pc, s.width).value;
      EarlierStay(rest, i + 1, rc, pc, if i < |s.recipes| then s.(recipes := s.recipes[i := r]) else s, k);
    }
  }

  /** A storage of recipes without parameters, each called by one letter. */
  function Lettered(rc: nat): (s: Storage)
    ensures Writable(s)
  {
    Storage(rc, 0, seq(rc, i => Recipe("a", [])))
  }

  /** Without parameters the reader drops a character too many: the name of the second recipe is lost. */
  lemma SecondNameLost(rc: nat)
    requires rc >= 2
    ensures !ComesBack(Lettered(rc), Lettered(rc))
  {
    hide ReadRecipe;
    var s := Lettered(rc);
    ReadHeader(s, s);
    var a := Recipe("a", []);
    var tail := LetteredText(rc);
    var t1 := "a\n\n" + tail;
    var t0 := "\n" + RecipesText(s.recipes);
    FirstReads(t1);
    SecondReadsEmpty(tail);
    var s1 := s.(recipes := s.recipes[0 := a]);
    var s2 := s1.(recipes := s1.recipes[1 := Recipe("", [])]);
    var rest := Ignore("\n" + tail);
    assert ReadRecipes(t0, 0, rc, 0, s) == ReadRecipes(t1, 1, rc, 0, s1);
    assert ReadRecipes(t1, 1, rc, 0, s1) == ReadRecipes(rest, 2, rc, 0, s2);
    EarlierStay(rest, 2, rc, 0, s2, 1);
    assert Expected(s, s).recipes[1] == Fitted(a, 0);
  }

  lemma LetteredText(rc: nat) returns (tail: string)
    requires rc >= 2
    ensures "\n" + RecipesText(Lettered(rc).recipes) == "\n" + ("a\n" + ("\n" + ("a\n\n" + tail)))
  {
    var rs := Lettered(rc).recipes;
    tail := RecipesText(rs[1..][1..]);
    assert RecipeText(Recipe("a", [])) == "a\n\n";
    assert rs[0] == Recipe("a", []) && rs[1..][0] == Recipe("a", []);
    assert RecipesText(rs) == "a\n\n" + ("a\n\n" + tail);
  }

  lemma FirstReads(t1: string)
    ensures ReadRecipe("\n" + ("a\n" + ("\n" + t1)), 0, 0) == Some((Recipe("a", []), t1))
  {
    var t0 := "\n" + ("a\n" + ("\n" + t1));
    assert Ignore(t0) == "a" + "\n" + ("\n" + t1);
    GetLineBack("a", "\n" + t1);
    assert Ignore("\n" + t1) == t1;
    assert ZeroParams(0) == [];
  }

  lemma SecondReadsEmpty(tail: string)
    ensures ReadRecipe("a\n\n" + tail, 0, 0) == Some((Recipe("", []), Ignore("\n" + tail)))
  {
    assert ZeroParams(0) == [];
    var t := "a\n\n" + tail;
    assert Ignore(t) == "" + "\n" + ("\n" + tail);
    GetLineBack("", "\n" + tail);
  }

  /**
    * Files of a size are always read back as expected - the names and the first values of the first recipes, zeros for
    * the values that the file does not have, the other recipes as they were - if and only if there is at least one
    * parameter or no more than one recipe.
    */
  lemma FileComesBackExactly(rc: nat, pc: nat)
    ensures AlwaysComesBack(rc, pc) <==> pc >= 1 || rc <= 1
  {
    if pc >= 1 || rc <= 1 {
      forall from: Storage, to: Storage | from.count == rc && from.width == pc && Writable(from) && Sized(to)
        ensures ComesBack(from, to)
      {
        if pc >= 1 {
          ReadHeader(from, to);
          assert from.recipes[0..] == from.recipes && Partly(from, to, 0).recipes == to.recipes;
          ReadRecipesBack(from, to, 0);
        } else {
          OneWithoutParams(from, to);
        }
      }
    } else {
      SecondNameLost(rc);
      var s := Lettered(rc);
      assert s.count == rc && s.width == pc && Writable(s) && Sized(s) && !ComesBack(s, s);
    }
  }

  /** With equal sizes, what was written comes back as it was, whatever the storage held before. */
  lemma SameSizeIsIdentity(from: Storage, to: Storage)
    requires Sized(from) && Sized(to) && from.count == to.count && from.width == to.width
    ensures Expected(from, to) == from
  {
    forall i | 0 <= i < from.count ensures Expected(from, to).recipes[i] == from.recipes[i] {
      assert Fitted(from.recipes[i], to.width).params == from.recipes[i].params;
    }
    assert Expected(from, to).recipes == from.recipes;
  }

  // ---- the storage object -------------------------------------------------------------------------------------------

  class ParamsRecipeStorage {
    const recipeCount: nat
    const recipeParamsCount: nat
    var recipes: seq<Recipe>
    var isChanged: bool

    ghost function View(): Storage
      reads this
    {
      Storage(recipeCount, recipeParamsCount, recipes)
    }

    ghost predicate Ok()
      reads this
    {
      Sized(View())
    }

    constructor (recipeCount: nat, recipeParamsCount: nat)
      ensures Ok() && this.recipeCount == recipeCount && this.recipeParamsCount == recipeParamsCount && !isChanged
      ensures recipes == seq(recipeCount, i => Recipe("none", ZeroParams(recipeParamsCount)))
    {
      this.recipeCount, this.recipeParamsCount, isChanged := recipeCount, recipeParamsCount, false;
      recipes := seq(recipeCount, i => Recipe("none", ZeroParams(recipeParamsCount)));
    }

    /** Numbers count from one; anything out of range is ignored, and only a different value counts as a change. */
    method SetRecPar(recNo: int, parNo: int, newValue: string)
      requires Ok()
      modifies this
      ensures Ok()
      ensures if 1 <= recNo <= recipeCount && 1 <= parNo <= recipeParamsCount then
                && recipes == old(recipes)[recNo - 1 :=
                     old(recipes)[recNo - 1].(params := old(recipes)[recNo - 1].params[parNo - 1 := newValue])]
                && isChanged == (old(isChanged) || old(recipes)[recNo - 1].params[parNo - 1] != newValue)
              else recipes == old(recipes) && isChanged == old(isChanged)
    {
      if recNo <= recipeCount && parNo <= recipeParamsCount && recNo > 0 && parNo > 0 {
        var r := recipes[recNo - 1];
        if r.params[parNo - 1] != newValue {
          isChanged := true;
          recipes := recipes[recNo - 1 := r.(params := r.params[parNo - 1 := newValue])];
        } else {
          assert r.params[parNo - 1 := newValue] == r.params;
          assert recipes[recNo - 1 := r] == recipes;
        }
      }
    }

    method Serialize() returns (text: string)
      requires Ok()
      ensures text == Text(View())
    {
      hide Number, RecipeText;
      text := Number(recipeCount) + " " + Number(recipeParamsCount) + "\n";
      ghost var head := text;
      var i := 0;
      assert recipes[..0] == [];
      while i < recipeCount
        invariant 0 <= i <= recipeCount && text == head + RecipesText(recipes[..i])
      {
        var values := WriteParams(i);
        text := text + (recipes[i].name + "\n" + values + "\n");
        RecipesTextLast(recipes, i);
        i := i + 1;
      }
      assert recipes[..i] == recipes;
    }

    method WriteParams(i: nat) returns (values: string)
      requires Ok() && i < recipeCount
      ensures recipes[i].name + "\n" + values + "\n" == RecipeText(recipes[i])
    {
      values := "";
      var j := 0;
      var ps := recipes[i].params;
      assert ps[..0] == [];
      while j < recipeParamsCount
        invariant 0 <= j <= recipeParamsCount && values == ParamsText(ps[..j])
      {
        values := values + ps[j] + " ";
        ParamsTextLast(ps, j);
        j := j + 1;
      }
      assert ps[..j] == ps;
    }

    /** The result is false if the text does not hold as many numbers as it says. */
    method Deserialize(text: string) returns (ok: bool)
      requires Ok()
      modifies this
      ensures match Read(text, old(View()))
              case None => !ok
              case Some(s) => ok && View() == s
    {
      hide ReadInt, ReadRecipe;
      ok := false;
      var rc := ReadInt(text);
      if rc == None { return; }
      var pc := ReadInt(rc.value.1);
      if pc == None { return; }
      var left := pc.value.1;
      ghost var start, before := left, View();
      ghost var n, m := Positive(rc.value.0), Positive(pc.value.0);
      var i := 0;
      while i < rc.value.0
        invariant 0 <= i <= n
        invariant ReadRecipes(left, i, n, m, View()) == ReadRecipes(start, 0, n, m, before)
        decreases rc.value.0 - i
      {
        var r := ReadOne(left, pc.value.0);
        if r == None { return; }
        if i < |recipes| {
          recipes := recipes[i := r.value.0];
        }
        left := r.value.1;
        i := i + 1;
      }
      ok := true;
    }

    method ReadOne(text: string, pc: int) returns (r: Option<(Recipe, string)>)
      ensures r == ReadRecipe(text, Positive(pc), recipeParamsCount)
    {
      hide ReadToken, GetLine;
      var (name, left) := GetLine(Ignore(text));
      var params := ZeroParams(recipeParamsCount);
      ghost var start := left;
      var j := 0;
      while j < pc
        invariant 0 <= j <= Positive(pc) && |params| == recipeParamsCount
        invariant ReadParams(left, j, Positive(pc), params)
          == ReadParams(start, 0, Positive(pc), ZeroParams(recipeParamsCount))
        decreases pc - j
      {
        var x := ReadToken(left);
        if x == None { return None; }
        if j < recipeParamsCount {
          params := params[j := x.value.0];
        }
        left := x.value.1;
        j := j + 1;
      }
      r := Some((Recipe(name, params), Ignore(left)));
    }
  }

  lemma {:induction false} RecipesTextLast(rs: seq<Recipe>, i: nat)
    requires i < |rs|
    ensures RecipesText(rs[..i + 1]) == RecipesText(rs[..i]) + RecipeText(rs[i])
  {
    hide RecipeText;
    if i == 0 {
      assert rs[..1] == [rs[0]] && rs[..0] == [] && [rs[0]][1..] == [];
    } else {
      RecipesTextLast(rs[1..], i - 1);
      assert rs[..i + 1][1..] == rs[1..][..i] && rs[..i][1..] == rs[1..][..i - 1];
    }
  }

  lemma {:induction false} ParamsTextLast(ps: seq<string>, j: nat)
    requires j < |ps|
    ensures ParamsText(ps[..j + 1]) == ParamsText(ps[..j]) + ps[j] + " "
  {
    if j == 0 {
      assert ps[..1] == [ps[0]] && ps[..0] == [] && [ps[0]][1..] == [];
    } else {
      ParamsTextLast(ps[1..], j - 1);
      assert ps[..j + 1][1..] == ps[1..][..j] && ps[..j][1..] == ps[1..][..j - 1];
    }
  }
}

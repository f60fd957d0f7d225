/**
  * The flat memory of washing recipes (PAC/common/mcaRec.cpp, TRecipeManager) and the table it stands for: 25 recipes
  * of four blocks of 128 bytes, each with a name of 24 bytes, 8 spare bytes and 120 values of four bytes.
  */
module RecipeTable {
  import opened ParamCrc
  import opened ParamStore

  const BLOCK_SIZE := 128
  const BLOCKS_PER_RECIPE := 4
  const RECIPES := 25
  const RECIPE_SIZE := BLOCK_SIZE * BLOCKS_PER_RECIPE
  const NAME_LENGTH := 24
  const PARAMS_OFFSET := 32
  const VALUES := 120

  /** The number of the value through which an operator gives commands. */
  const RV_TO_DEFAULTS := 1

  datatype Recipe = Recipe(name: seq<Byte>, spare: seq<Byte>, values: seq<Value>)

  predicate Formed(r: Recipe) {
    |r.name| == NAME_LENGTH && |r.spare| == PARAMS_OFFSET - NAME_LENGTH && |r.values| == VALUES
  }

  function StartAddr(recipe: nat): nat {
    recipe * BLOCKS_PER_RECIPE * BLOCK_SIZE
  }

  function ValueAddr(recipe: nat, value: nat): nat {
    StartAddr(recipe) + PARAMS_OFFSET + 4 * value
  }

  function Decode(block: seq<Byte>): (r: Recipe)
    requires |block| == RECIPE_SIZE
    ensures Formed(r)
  {
    Recipe(block[..NAME_LENGTH], block[NAME_LENGTH..PARAMS_OFFSET],
           seq(VALUES, v requires 0 <= v < VALUES => Cell(block, PARAMS_OFFSET + 4 * v)))
  }

  function BlockOf(memory: seq<Byte>, recipe: nat): (block: seq<Byte>)
    requires |memory| == RECIPES * RECIPE_SIZE && recipe < RECIPES
    ensures |block| == RECIPE_SIZE
  {
    memory[StartAddr(recipe)..StartAddr(recipe) + RECIPE_SIZE]
  }

  function Rows(memory: seq<Byte>): (rs: seq<Recipe>)
    requires |memory| == RECIPES * RECIPE_SIZE
    ensures |rs| == RECIPES && forall r :: 0 <= r < RECIPES ==> Formed(rs[r])
  {
    seq(RECIPES, r requires 0 <= r < RECIPES => Decode(BlockOf(memory, r)))
  }

  /** The table says everything about the memory: different blocks stand for different recipes. */
  lemma DecodeIsInjective(a: seq<Byte>, b: seq<Byte>)
    requires |a| == RECIPE_SIZE && |b| == RECIPE_SIZE && Decode(a) == Decode(b)
    ensures a == b
  {
    forall k | 0 <= k < RECIPE_SIZE ensures a[k] == b[k] {
      if k < NAME_LENGTH {
        assert a[k] == Decode(a).name[k];
      } else if k < PARAMS_OFFSET {
        assert a[k] == Decode(a).spare[k - NAME_LENGTH];
      } else {
        var v := (k - PARAMS_OFFSET) / 4;
        assert Decode(a).values[v] == Cell(a, PARAMS_OFFSET + 4 * v) == Cell(b, PARAMS_OFFSET + 4 * v);
      }
    }
  }

  /** Where everything lies: recipe r from byte 512 r on, its name first and value v 32 + 4 v bytes behind that. */
  lemma PlacesInMemory(memory: seq<Byte>, r: nat, v: nat, i: nat)
    requires |memory| == 25 * 512 && r < 25 && v < 120 && i < 24
    ensures Rows(memory)[r].name[i] == memory[512 * r + i]
    ensures var at := 512 * r + 32 + 4 * v;
            && ValueAddr(r, v) == at && ValueAddr(r, RV_TO_DEFAULTS) == 512 * r + 36
            && Rows(memory)[r].values[v] == Value(memory[at], memory[at + 1], memory[at + 2], memory[at + 3])
  {
  }

  // ---- writes refine updates of single table entries ----------------------------------------------------------------

  lemma SpliceElsewhere(memory: seq<Byte>, at: nat, bytes: seq<Byte>, r: nat, other: nat)
    requires |memory| == RECIPES * RECIPE_SIZE && r < RECIPES && other < RECIPES && other != r
    requires StartAddr(r) <= at && at + |bytes| <= StartAddr(r) + RECIPE_SIZE
    ensures BlockOf(Splice(memory, at, bytes), other) == BlockOf(memory, other)
  {
  }

  lemma SpliceInside(memory: seq<Byte>, at: nat, bytes: seq<Byte>, r: nat)
    requires |memory| == RECIPES * RECIPE_SIZE && r < RECIPES
    requires StartAddr(r) <= at && at + |bytes| <= StartAddr(r) + RECIPE_SIZE
    ensures BlockOf(Splice(memory, at, bytes), r) == Splice(BlockOf(memory, r), at - StartAddr(r), bytes)
  {
  }

  lemma OneRowChanges(memory: seq<Byte>, at: nat, bytes: seq<Byte>, r: nat)
    requires |memory| == RECIPES * RECIPE_SIZE && r < RECIPES
    requires StartAddr(r) <= at && at + |bytes| <= StartAddr(r) + RECIPE_SIZE
    ensures Rows(Splice(memory, at, bytes)) ==
            Rows(memory)[r := Decode(Splice(BlockOf(memory, r), at - StartAddr(r), bytes))]
  {
    var after := Splice(memory, at, bytes);
    SpliceInside(memory, at, bytes, r);
    forall k | 0 <= k < RECIPES && k != r ensures Rows(after)[k] == Rows(memory)[k] {
      SpliceElsewhere(memory, at, bytes, r, k);
    }
  }

  /** Writing the four bytes of a value changes that value of that recipe: no other value, name or spare byte. */
  lemma ValueIsACell(memory: seq<Byte>, r: nat, v: nat, x: Value)
    requires |memory| == RECIPES * RECIPE_SIZE && r < RECIPES && v < VALUES
    ensures var row := Rows(memory)[r];
            Rows(Splice(memory, ValueAddr(r, v), Bytes(x))) == Rows(memory)[r := row.(values := row.values[v := x])]
  {
    hide Splice, Decode;
    OneRowChanges(memory, ValueAddr(r, v), Bytes(x), r);
    ValueInBlock(BlockOf(memory, r), v, x);
    assert ValueAddr(r, v) - StartAddr(r) == PARAMS_OFFSET + 4 * v;
  }

  lemma ValueInBlock(block: seq<Byte>, v: nat, x: Value)
    requires |block| == RECIPE_SIZE && v < VALUES
    ensures var row := Decode(block);
            Decode(Splice(block, PARAMS_OFFSET + 4 * v, Bytes(x))) == row.(values := row.values[v := x])
  {
    var after := Splice(block, PARAMS_OFFSET + 4 * v, Bytes(x));
    forall k | 0 <= k < VALUES
      ensures Cell(after, PARAMS_OFFSET + 4 * k) == if k == v then x else Cell(block, PARAMS_OFFSET + 4 * k)
    {
      CellAfterSplice(block, PARAMS_OFFSET + 4 * v, Bytes(x), PARAMS_OFFSET + 4 * k);
    }
    assert Decode(after).values == Decode(block).values[v := x];
    assert Decode(after).name == Decode(block).name && Decode(after).spare == Decode(block).spare;
  }

  /** Writing a name changes that name only. */
  lemma NameIsApart(memory: seq<Byte>, r: nat, name: seq<Byte>)
    requires |memory| == RECIPES * RECIPE_SIZE && r < RECIPES && |name| == NAME_LENGTH
    ensures Rows(Splice(memory, StartAddr(r), name)) == Rows(memory)[r := Rows(memory)[r].(name := name)]
  {
    OneRowChanges(memory, StartAddr(r), name, r);
    var block := BlockOf(memory, r);
    var after := Splice(block, 0, name);
    forall k | 0 <= k < VALUES ensures Cell(after, PARAMS_OFFSET + 4 * k) == Cell(block, PARAMS_OFFSET + 4 * k) {
      CellAfterSplice(block, 0, name, PARAMS_OFFSET + 4 * k);
    }
    assert Decode(after).values == Decode(block).values;
    assert Decode(after).spare == Decode(block).spare && Decode(after).name == name;
  }

  lemma WholeBlock(memory: seq<Byte>, r: nat, block: seq<Byte>)
    requires |memory| == RECIPES * RECIPE_SIZE && r < RECIPES && |block| == RECIPE_SIZE
    ensures Rows(Splice(memory, StartAddr(r), block)) == Rows(memory)[r := Decode(block)]
  {
    OneRowChanges(memory, StartAddr(r), block, r);
    assert Splice(BlockOf(memory, r), 0, block) == block;
  }

  // ---- the operations on the table ----------------------------------------------------------------------------------

  datatype Clip = Empty | Copied(recipe: Recipe)

  /** The recipes, where the operator stands, and the name he sees, which is written back only on certain occasions. */
  datatype Book = Book(rows: seq<Recipe>, current: int, startBlock: int, name: seq<Byte>, clip: Clip)

  predicate Sound(b: Book) {
    && |b.rows| == RECIPES && (forall r :: 0 <= r < RECIPES ==> Formed(b.rows[r]))
    && 0 <= b.current < RECIPES && b.startBlock == b.current * BLOCKS_PER_RECIPE
    && |b.name| == NAME_LENGTH && (b.clip.Copied? ==> Formed(b.clip.recipe))
  }

  function NameSaved(b: Book): Book
    requires Sound(b)
  {
    b.(rows := b.rows[b.current := b.rows[b.current].(name := b.name)])
  }

  function NameLoaded(b: Book): Book
    requires Sound(b)
  {
    b.(name := b.rows[b.current].name)
  }

  function Moved(b: Book, recipe: int): Book {
    b.(current := recipe, startBlock := b.startBlock + BLOCKS_PER_RECIPE * (recipe - b.current))
  }

  function WithValue(b: Book, v: nat, x: Value): Book
    requires Sound(b) && v < VALUES
  {
    var row := b.rows[b.current];
    b.(rows := b.rows[b.current := row.(values := row.values[v := x])])
  }

  const NOTHING := Value(0, 0, 0, 0)

  function Blank(): (r: Recipe)
    ensures Formed(r)
  {
    Recipe(Zeros(NAME_LENGTH), Zeros(PARAMS_OFFSET - NAME_LENGTH), seq(VALUES, v => NOTHING))
  }

  lemma BlankBlock()
    ensures Decode(Zeros(RECIPE_SIZE)) == Blank()
  {
    assert Decode(Zeros(RECIPE_SIZE)).values == Blank().values;
  }

  datatype Action =
    | Next
    | Prev
    | To(recipe: int)
    | SetCurrent(recipe: int)
    | Rename(name: seq<Byte>)
    | SaveName
    | SetValue(v: nat, x: Value)
    | Copy
    | Paste
    | Nullify

  predicate Allowed(a: Action) {
    && (a.Rename? ==> |a.name| == NAME_LENGTH)
    && (a.SetValue? ==> a.v < VALUES)
  }

  function Act(b: Book, a: Action): (r: Book)
    requires Sound(b) && Allowed(a)
    ensures Sound(r)
  {
    match a
    case Next => if b.current < RECIPES - 1 then NameLoaded(Moved(NameSaved(b), b.current + 1)) else b
    case Prev => if b.current > 0 then NameLoaded(Moved(NameSaved(b), b.current - 1)) else b
    case To(n) => if 0 <= n < RECIPES then NameLoaded(Moved(NameSaved(b), n)) else b
    case SetCurrent(n) => if 0 <= n < RECIPES then Moved(NameSaved(b), n) else b
    case Rename(name) => b.(name := name)
    case SaveName => NameSaved(b)
    case SetValue(v, x) => WithValue(b, v, x)
    case Copy => b.(clip := Copied(b.rows[b.current]))
    case Paste => if b.clip.Copied? then NameLoaded(b.(rows := b.rows[b.current := b.clip.recipe])) else b
    case Nullify => NameLoaded(b.(rows := b.rows[b.current := Blank()]))
  }

  /** Where each action leads, and what it does to the recipe the operator stands at and to no other. */
  lemma ActionsLead(b: Book, a: Action)
    requires Sound(b) && Allowed(a)
    ensures var r := Act(b, a);
            && r.current == (match a
                             case Next => if b.current < 24 then b.current + 1 else 24
                             case Prev => if b.current > 0 then b.current - 1 else 0
                             case To(n) => if 0 <= n <= 24 then n else b.current
                             case SetCurrent(n) => if 0 <= n <= 24 then n else b.current
                             case _ => b.current)
            && r.startBlock == 4 * r.current
            && (forall k :: 0 <= k < 25 && k != b.current ==> r.rows[k] == b.rows[k])
            && var row := b.rows[b.current];
            && (a.SetValue? ==> r.rows[b.current] == row.(values := row.values[a.v := a.x]))
            && (a.SaveName? ==> r.rows[b.current] == row.(name := b.name))
            && (r.current != b.current ==> r.rows[b.current] == row.(name := b.name))
            && (r.current != b.current ==> r.name == if a.SetCurrent? then b.name else b.rows[r.current].name)
            && (a.Copy? ==> r == b.(clip := Copied(b.rows[b.current])))
            && (a.Paste? && b.clip.Copied? ==> r.rows[b.current] == b.clip.recipe && r.name == b.clip.recipe.name)
            && (a.Nullify? ==> forall v :: 0 <= v < 120 ==> r.rows[b.current].values[v] == Value(0, 0, 0, 0))
  {
  }

  function Acts(b: Book, actions: seq<Action>): (r: Book)
    requires Sound(b) && forall k :: 0 <= k < |actions| ==> Allowed(actions[k])
    ensures Sound(r)
    decreases |actions|
  {
    if actions == [] then b else Acts(Act(b, actions[0]), actions[1..])
  }

  predicate Move(a: Action) {
    a.Next? || a.Prev? || a.To? || a.SetCurrent? || a.SaveName? || a.Rename?
  }

  /** Moving about and naming never changes a value of any recipe, nor what was copied. */
  lemma {:induction false} MovesKeepValues(b: Book, moves: seq<Action>)
    requires Sound(b) && forall k :: 0 <= k < |moves| ==> Allowed(moves[k]) && Move(moves[k])
    ensures var r := Acts(b, moves);
            && r.clip == b.clip
            && forall k :: 0 <= k < RECIPES ==>
                 r.rows[k].values == b.rows[k].values && r.rows[k].spare == b.rows[k].spare
    decreases |moves|
  {
    if moves != [] { MovesKeepValues(Act(b, moves[0]), moves[1..]); }
  }

  /**
    * Copy, move about in any way, paste: the recipe pasted into is the recipe as it was copied, name and all, and every
    * other recipe has the values it had.
    */
  lemma CopyMovePaste(b: Book, moves: seq<Action>)
    requires Sound(b) && forall k :: 0 <= k < |moves| ==> Allowed(moves[k]) && Move(moves[k])
    ensures var there := Acts(Act(b, Copy), moves);
            var r := Act(there, Paste);
            && r.rows[r.current] == b.rows[b.current] && r.current == there.current
            && r.name == b.rows[b.current].name
            && forall k :: 0 <= k < RECIPES && k != r.current ==> r.rows[k].values == b.rows[k].values
  {
    hide Act, Acts, Sound;
    CopyIs(b);
    MovesKeepValues(Act(b, Copy), moves);
    PasteIs(Acts(Act(b, Copy), moves));
  }

  lemma CopyIs(b: Book)
    requires Sound(b)
    ensures Act(b, Copy) == b.(clip := Copied(b.rows[b.current])) && |b.rows| == RECIPES && 0 <= b.current < RECIPES
  {
  }

  lemma PasteIs(b: Book)
    requires Sound(b) && b.clip.Copied?
    ensures |b.rows| == RECIPES && 0 <= b.current < RECIPES && |b.clip.recipe.values| == VALUES
    ensures Act(b, Paste) == b.(rows := b.rows[b.current := b.clip.recipe], name := b.clip.recipe.name)
  {
  }

  lemma SetIs(b: Book, v: nat, x: Value)
    requires Sound(b) && v < VALUES
    ensures |b.rows| == RECIPES && 0 <= b.current < RECIPES && |b.rows[b.current].values| == VALUES
    ensures var row := b.rows[b.current];
            Act(b, SetValue(v, x)) == b.(rows := b.rows[b.current := row.(values := row.values[v := x])])
  {
  }

  // ---- names --------------------------------------------------------------------------------------------------------

  predicate NameShown(b: Book)
    requires Sound(b)
  {
    b.name == b.rows[b.current].name
  }

  /** While the name shown is the stored one, the ordinary moves keep it so and change nothing in the memory at all. */
  lemma OrdinaryMovesKeepNames(b: Book, a: Action)
    requires Sound(b) && NameShown(b) && (a.Next? || a.Prev? || a.To? || a.SaveName?)
    ensures NameShown(Act(b, a)) && Act(b, a).rows == b.rows
  {
    assert NameSaved(b).rows == b.rows;
  }

  /**
    * Setting the current recipe does not load its name: the name of the recipe left behind stays shown, and the next
    * write of the name keeps the table as it was if and only if both recipes have the same name.
    */
  lemma SetCurrentCarriesName(b: Book, n: int)
    requires Sound(b) && NameShown(b) && 0 <= n < RECIPES
    ensures Act(Act(b, SetCurrent(n)), SaveName).rows == b.rows <==> b.rows[n].name == b.rows[b.current].name
  {
    assert NameSaved(b).rows == b.rows;
    var r := Act(Act(b, SetCurrent(n)), SaveName);
    assert r.rows == b.rows[n := b.rows[n].(name := b.name)];
    assert r.rows[n].name == b.name;
  }

  // ---- commands through a value -------------------------------------------------------------------------------------

  /** The commands that the operator can put into the command value; what else it may hold does nothing. */
  datatype Command = NoCommand | ToDefaults | CopyCommand | PasteCommand | NullifyCommand | OtherCommand

  function Obeyed(b: Book, c: Command, defaults: Book): (r: Book)
    requires Sound(b) && Sound(defaults)
    ensures Sound(r)
  {
    var done :=
      match c
      case CopyCommand => Act(b, Copy)
      case PasteCommand => Act(b, Paste)
      case NullifyCommand => Act(b, Nullify)
      case ToDefaults => defaults
      case _ => b;
    if c.NoCommand? then b else Act(done, SetValue(RV_TO_DEFAULTS, NOTHING))
  }

  /**
    * Copying and pasting by command also works out: the copy is taken while the command still stands in the recipe, but
    * it is cleared from the recipe pasted into as well, so that both recipes end up the same.
    */
  lemma CommandsCopyAndPaste(b: Book, moves: seq<Action>, defaults: Book)
    requires Sound(b) && Sound(defaults) && forall k :: 0 <= k < |moves| ==> Allowed(moves[k]) && Move(moves[k])
    ensures var copied := Obeyed(b, CopyCommand, defaults);
            var r := Obeyed(Acts(copied, moves), PasteCommand, defaults);
            && r.rows[r.current].values == copied.rows[b.current].values
            && r.rows[r.current].name == b.rows[b.current].name
            && r.rows[r.current].values[RV_TO_DEFAULTS] == NOTHING
            && forall k :: 0 <= k < RECIPES && k != r.current ==> r.rows[k].values == copied.rows[k].values
  {
    hide Act, Acts, Sound;
    var copied := Obeyed(b, CopyCommand, defaults);
    CopyIs(b);
    SetIs(Act(b, Copy), RV_TO_DEFAULTS, NOTHING);
    MovesKeepValues(copied, moves);
    var there := Acts(copied, moves);
    PasteIs(there);
    SetIs(Act(there, Paste), RV_TO_DEFAULTS, NOTHING);
  }
}

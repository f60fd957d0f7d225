/**
  * The recipe manager object (PAC/common/mcaRec.cpp, TRecipeManager): a byte array that is overwritten in place, and a
  * copy buffer that all the lines share. Names are taken in the one-byte code page in which the memory keeps them.
  */
module RecipeManager {
  import opened ParamCrc
  import opened ParamStore
  import opened RecipeTable

  /** What a value that was never written reads as: the number -1000. */
  const MINUS_1000 := Value(0x00, 0x00, 0x7A, 0xC4)

  const ERASED := Value(0xFF, 0xFF, 0xFF, 0xFF)

  class CopyBuffer {
    var bytes: seq<Byte>
    var full: bool

    ghost predicate Ok()
      reads this
    {
      full ==> |bytes| == RECIPE_SIZE
    }

    ghost function View(): Clip
      reads this
      requires Ok()
    {
      if full then Copied(Decode(bytes)) else Empty
    }

    constructor ()
      ensures Ok() && View() == Empty
    {
      full, bytes := false, [];
    }
  }

  class Recipes {
    const recipeMemory: array<Byte>
    const copyBuffer: CopyBuffer
    var currentRecipe: int
    var curRecipeStartBlock: int
    var currentRecipeName: seq<Byte>

    ghost predicate Ok()
      reads this, recipeMemory, copyBuffer
    {
      && recipeMemory.Length == RECIPES * RECIPE_SIZE && copyBuffer.Ok()
      && Sound(View())
    }

    ghost function View(): Book
      reads this, recipeMemory, copyBuffer
      requires recipeMemory.Length == RECIPES * RECIPE_SIZE && copyBuffer.Ok()
    {
      Book(Rows(recipeMemory[..]), currentRecipe, curRecipeStartBlock, currentRecipeName, copyBuffer.View())
    }

    constructor (memory: array<Byte>, copyBuffer: CopyBuffer)
      requires memory.Length == RECIPES * RECIPE_SIZE && copyBuffer.Ok()
      ensures Ok() && recipeMemory == memory && this.copyBuffer == copyBuffer
      ensures currentRecipe == 0 && NameShown(View())
    {
      recipeMemory, this.copyBuffer := memory, copyBuffer;
      currentRecipe, curRecipeStartBlock := 0, 0;
      currentRecipeName := memory[..NAME_LENGTH];
    }

    method WriteMem(start: nat, bytes: seq<Byte>)
      requires start + |bytes| <= recipeMemory.Length
      modifies recipeMemory
      ensures recipeMemory[..] == Splice(old(recipeMemory[..]), start, bytes)
    {
      forall k | 0 <= k < |bytes| {
        recipeMemory[start + k] := bytes[k];
      }
    }

    method GetRecipeValue(recipe: nat, value: nat) returns (x: Value)
      requires Ok() && recipe < RECIPES && value < VALUES
      ensures var stored := View().rows[recipe].values[value]; x == if stored == ERASED then MINUS_1000 else stored
    {
      var at := StartAddr(recipe) + PARAMS_OFFSET + 4 * value;
      x := Value(recipeMemory[at], recipeMemory[at + 1], recipeMemory[at + 2], recipeMemory[at + 3]);
      if x == ERASED {
        x := MINUS_1000;
      }
    }

    method SetRecipeValue(recipe: nat, value: nat, x: Value)
      requires Ok() && recipe < RECIPES && value < VALUES
      modifies recipeMemory
      ensures Ok()
      ensures var b := old(View());
              View() == b.(rows := b.rows[recipe := b.rows[recipe].(values := b.rows[recipe].values[value := x])])
    {
      hide Rows, Splice;
      ValueIsACell(recipeMemory[..], recipe, value, x);
      WriteMem(StartAddr(recipe) + PARAMS_OFFSET + 4 * value, Bytes(x));
    }

    method SetValue(value: nat, x: Value)
      requires Ok() && value < VALUES
      modifies recipeMemory
      ensures Ok() && View() == Act(old(View()), Action.SetValue(value, x))
    {
      hide Rows;
      SetRecipeValue(currentRecipe, value, x);
    }

    method SaveRecipeName()
      requires Ok()
      modifies recipeMemory
      ensures Ok() && View() == NameSaved(old(View()))
    {
      hide Rows, Splice;
      NameIsApart(recipeMemory[..], currentRecipe, currentRecipeName);
      WriteMem(StartAddr(currentRecipe), currentRecipeName);
    }

    method LoadRecipeName()
      requires Ok()
      modifies `currentRecipeName
      ensures Ok() && View() == NameLoaded(old(View()))
    {
      currentRecipeName := recipeMemory[StartAddr(currentRecipe)..StartAddr(currentRecipe) + NAME_LENGTH];
      assert currentRecipeName == View().rows[currentRecipe].name;
    }

    method NextRecipe() returns (done: bool)
      requires Ok()
      modifies this, recipeMemory
      ensures Ok() && View() == Act(old(View()), Next) && done == (old(currentRecipe) < RECIPES - 1)
    {
      hide Rows;
      done := currentRecipe < RECIPES - 1;
      if done {
        SaveRecipeName();
        currentRecipe := currentRecipe + 1;
        curRecipeStartBlock := curRecipeStartBlock + BLOCKS_PER_RECIPE;
        LoadRecipeName();
      }
    }

    method PrevRecipe() returns (done: bool)
      requires Ok()
      modifies this, recipeMemory
      ensures Ok() && View() == Act(old(View()), Prev) && done == (old(currentRecipe) > 0)
    {
      hide Rows;
      done := currentRecipe > 0;
      if done {
        SaveRecipeName();
        currentRecipe := currentRecipe - 1;
        curRecipeStartBlock := curRecipeStartBlock - BLOCKS_PER_RECIPE;
        LoadRecipeName();
      }
    }

    method ToRecipe(recipe: int) returns (done: bool)
      requires Ok()
      modifies this, recipeMemory
      ensures Ok() && View() == Act(old(View()), To(recipe)) && done == (0 <= recipe < RECIPES)
    {
      hide Rows;
      done := 0 <= recipe < RECIPES;
      if done {
        SaveRecipeName();
        curRecipeStartBlock := curRecipeStartBlock + BLOCKS_PER_RECIPE * (recipe - currentRecipe);
        currentRecipe := recipe;
        LoadRecipeName();
      }
    }

    method SetCurrentRecipe(recipe: int) returns (done: bool)
      requires Ok()
      modifies this, recipeMemory
      ensures Ok() && View() == Act(old(View()), SetCurrent(recipe)) && done == (0 <= recipe < RECIPES)
    {
      hide Rows;
      done := 0 <= recipe < RECIPES;
      if done {
        SaveRecipeName();
        curRecipeStartBlock := curRecipeStartBlock + BLOCKS_PER_RECIPE * (recipe - currentRecipe);
        currentRecipe := recipe;
      }
    }

    method CopyRecipe()
      requires Ok()
      modifies copyBuffer
      ensures Ok() && View() == Act(old(View()), Copy)
    {
      var at := StartAddr(currentRecipe);
      copyBuffer.full := true;
      copyBuffer.bytes := recipeMemory[at..at + RECIPE_SIZE];
      assert copyBuffer.bytes == BlockOf(recipeMemory[..], currentRecipe);
    }

    method PasteRecipe()
      requires Ok()
      modifies this, recipeMemory
      ensures Ok() && View() == Act(old(View()), Paste)
    {
      hide Rows, Splice, Decode;
      if copyBuffer.full {
        WholeBlock(recipeMemory[..], currentRecipe, copyBuffer.bytes);
        WriteMem(StartAddr(currentRecipe), copyBuffer.bytes);
        LoadRecipeName();
      }
    }

    method NullifyRecipe()
      requires Ok()
      modifies this, recipeMemory
      ensures Ok() && View() == Act(old(View()), Nullify)
    {
      hide Rows, Splice, Decode;
      BlankBlock();
      WholeBlock(recipeMemory[..], currentRecipe, Zeros(RECIPE_SIZE));
      WriteMem(StartAddr(currentRecipe), Zeros(RECIPE_SIZE));
      LoadRecipeName();
    }
  }
}

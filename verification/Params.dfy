/**
  * The parameter manager and its clients as objects (PAC/common/param_ex.cpp; PAC/common/param_ex.h): the images are
  * fixed arrays that are written in place.
  */
module Params {
  import opened ParamCrc
  import opened ParamStore

  class ParamsManager {
    const params: array<Byte>
    const paramsMem: array<Byte>
    var lastIdx: nat
    var recordedIdx: nat

    ghost function View(): Store
      reads this, params, paramsMem
    {
      Store(params[..], paramsMem[..], lastIdx, recordedIdx)
    }

    ghost predicate Ok()
      reads this
    {
      params != paramsMem && params.Length == TOTAL && paramsMem.Length == TOTAL && lastIdx <= TOTAL
    }

    constructor (paramsMem: array<Byte>, recordedIdx: nat)
      requires paramsMem.Length == TOTAL
      ensures Ok() && this.paramsMem == paramsMem && fresh(params)
      ensures View() == Store(Zeros(TOTAL), paramsMem[..], 0, recordedIdx)
    {
      params := new Byte[TOTAL](i => 0);
      this.paramsMem := paramsMem;
      this.recordedIdx := recordedIdx;
      lastIdx := 0;
    }

    method Init()
      requires Ok()
      modifies params
      ensures View() == old(View()).(ram := old(paramsMem[..]))
    {
      forall k | 0 <= k < TOTAL {
        params[k] := paramsMem[k];
      }
    }

    method GetParamsData(size: nat) returns (start: int)
      requires Ok()
      modifies `lastIdx
      ensures Ok() && (View(), start) == Allocate(old(View()), size)
    {
      if lastIdx + size > TOTAL {
        return -1;
      }
      start := lastIdx;
      lastIdx := lastIdx + size;
    }

    method Save(start: nat, count: nat)
      requires Ok()
      modifies paramsMem
      ensures View() == SaveRange(old(View()), start, count)
    {
      var n := if count == 0 then TOTAL else count;
      if TOTAL < start + n {
        return;
      }
      forall k | start <= k < start + n {
        paramsMem[k] := params[k];
      }
    }

    method FinalInit(defaults: seq<Byte>)
      requires Ok() && |defaults| == TOTAL
      modifies this, params, paramsMem
      ensures Ok() && View() == ParamStore.FinalInit(old(View()), defaults)
    {
      if recordedIdx != lastIdx {
        recordedIdx := lastIdx;
        forall k | 0 <= k < TOTAL {
          params[k] := if k < WIDTH then 0 else defaults[k];
        }
        assert params[..] == Splice(defaults, 0, Zeros(WIDTH));
        Save(0, 0);
      }
    }
  }

  /** A block of saved parameters: its place in the image is fixed when it is built. */
  class SavedParams {
    const manager: ParamsManager
    const block: Block

    ghost predicate Ok()
      reads this, manager
    {
      manager.Ok() && Fits(block)
    }

    constructor (manager: ParamsManager, start: nat, count: nat)
      requires manager.Ok() && start + WIDTH * count <= TOTAL
      ensures Ok() && this.manager == manager && block == Block(start, count)
    {
      this.manager := manager;
      block := Block(start, count);
    }

    /** Writes a value through the index operator: only the working image changes. */
    method Put(index: int, value: Value)
      requires Ok()
      modifies manager.params
      ensures manager.View() == Apply(old(manager.View()), [block], Op.Put(0, index, value))
    {
      if 0 < index <= block.count {
        WriteAt(index, value);
      }
    }

    method WriteAt(index: int, value: Value)
      requires Ok() && Within(block, index)
      modifies manager.params
      ensures manager.View() == Write(old(manager.View()), block, index, value)
    {
      var at := block.start + WIDTH * (index - 1);
      manager.params[at], manager.params[at + 1] := value.b0, value.b1;
      manager.params[at + 2], manager.params[at + 3] := value.b2, value.b3;
      assert manager.params[..] == Splice(old(manager.params[..]), at, Bytes(value));
    }

    method Save(index: int, value: Value)
      requires Ok()
      modifies manager.params, manager.paramsMem
      ensures manager.View() == Apply(old(manager.View()), [block], Op.Save(0, index, value))
    {
      if index > 0 && index <= block.count {
        WriteAt(index, value);
        manager.Save(block.start + (index - 1) * WIDTH, WIDTH);
      }
    }

    method SaveAll()
      requires Ok()
      modifies manager.paramsMem
      ensures manager.View() == Apply(old(manager.View()), [block], Op.SaveAll(0))
    {
      manager.Save(block.start, block.count * WIDTH);
    }

    method ResetTo0()
      requires Ok()
      modifies manager.params, manager.paramsMem
      ensures manager.View() == Apply(old(manager.View()), [block], Op.ResetTo0(0))
    {
      var i := 0;
      ghost var image := manager.params[..];
      while i < block.count
        invariant 0 <= i <= block.count
        invariant manager.params[..] == Splice(image, block.start, Zeros(WIDTH * i))
        invariant manager.paramsMem[..] == old(manager.paramsMem[..])
      {
        ghost var before := manager.params[..];
        WriteAt(i + 1, Value(0, 0, 0, 0));
        assert Splice(before, block.start + WIDTH * i, Bytes(Value(0, 0, 0, 0))) ==
               Splice(image, block.start, Zeros(WIDTH * (i + 1)));
        i := i + 1;
      }
      manager.Save(block.start, WIDTH * block.count);
    }
  }
}

/**
  * The store of saved parameters (PAC/common/param_ex.cpp, params_manager; PAC/common/param_ex.h, saved_params): blocks
  * are handed out one after the other from a working image, and pieces of it are written through to persistent memory.
  */
module ParamStore {
  import opened ParamCrc

  const TOTAL := 30720

  /** A parameter takes four bytes, whether it is a number with or without a fraction. */
  const WIDTH := 4

  datatype Value = Value(b0: Byte, b1: Byte, b2: Byte, b3: Byte)

  function Bytes(v: Value): (s: seq<Byte>)
    ensures |s| == WIDTH
  {
    [v.b0, v.b1, v.b2, v.b3]
  }

  datatype Block = Block(start: nat, count: nat)

  /** The working image, the persistent one, the bytes handed out so far, and that number as it was last recorded. */
  datatype Store = Store(ram: seq<Byte>, nv: seq<Byte>, last: nat, recorded: nat)

  predicate Sized(st: Store) {
    |st.ram| == TOTAL && |st.nv| == TOTAL && st.last <= TOTAL
  }

  function Zeros(n: nat): (z: seq<Byte>)
    ensures |z| == n
  {
    seq(n, i => 0)
  }

  function Splice(image: seq<Byte>, at: nat, bytes: seq<Byte>): (r: seq<Byte>)
    requires at + |bytes| <= |image|
    ensures |r| == |image|
  {
    image[..at] + bytes + image[at + |bytes|..]
  }

  function Cell(image: seq<Byte>, at: nat): Value
    requires at + WIDTH <= |image|
  {
    Value(image[at], image[at + 1], image[at + 2], image[at + 3])
  }

  // ---- handing out blocks ------------------------------------------------------------------------------------------

  function Allocate(st: Store, size: nat): (r: (Store, int))
    requires Sized(st)
    ensures Sized(r.0)
  {
    var at: int := if st.last + size > TOTAL then -1 else st.last;
    (if at < 0 then st else st.(last := st.last + size), at)
  }

  function Sum(counts: seq<nat>): nat {
    if counts == [] then 0 else counts[0] + Sum(counts[1..])
  }

  /** The blocks of the given numbers of parameters, in order, from an address on. */
  function Layout(counts: seq<nat>, from: nat): (bs: seq<Block>)
    ensures |bs| == |counts|
  {
    if counts == [] then [] else [Block(from, counts[0])] + Layout(counts[1..], from + WIDTH * counts[0])
  }

  /** Blocks lie one after the other, so no two of them share a byte, and all of them fit below the given end. */
  lemma {:induction false} LayoutIsDisjoint(counts: seq<nat>, from: nat)
    ensures var bs := Layout(counts, from);
            && (forall j :: 0 <= j < |bs| ==>
                  bs[j].count == counts[j] && from <= bs[j].start
                      && bs[j].start + WIDTH * bs[j].count <= from + WIDTH * Sum(counts))
            && forall j, k :: 0 <= j < k < |bs| ==> bs[j].start + WIDTH * bs[j].count <= bs[k].start
  {
    if counts != [] {
      LayoutIsDisjoint(counts[1..], from + WIDTH * counts[0]);
    }
  }

  /** Asks for the blocks one after the other, as their owners are built; a block that does not fit gets no address. */
  function AllocateAll(st: Store, counts: seq<nat>): (r: (Store, seq<int>))
    requires Sized(st)
    ensures Sized(r.0) && |r.1| == |counts|
    decreases |counts|
  {
    if counts == [] then (st, [])
    else
      var (st1, at) := Allocate(st, WIDTH * counts[0]);
      var (st2, ats) := AllocateAll(st1, counts[1..]);
      (st2, [at] + ats)
  }

  /** If everything fits, the addresses are those of the layout, whatever the images hold. */
  lemma {:induction false} AllocationIsLayout(st: Store, counts: seq<nat>)
    requires Sized(st) && st.last + WIDTH * Sum(counts) <= TOTAL
    ensures var (st1, ats) := AllocateAll(st, counts);
            && st1 == st.(last := st.last + WIDTH * Sum(counts))
            && forall j :: 0 <= j < |counts| ==> ats[j] == Layout(counts, st.last)[j].start
    decreases |counts|
  {
    if counts != [] {
      var (st1, at) := Allocate(st, WIDTH * counts[0]);
      AllocationIsLayout(st1, counts[1..]);
    }
  }

  // ---- writing -----------------------------------------------------------------------------------------------------

  /** A count of zero stands for the whole image, and a range that does not fit is not written at all. */
  function SaveRange(st: Store, start: nat, count: nat): (r: Store)
    requires Sized(st)
    ensures Sized(r)
  {
    var n := if count == 0 then TOTAL else count;
    if start + n > TOTAL then st else st.(nv := Splice(st.nv, start, st.ram[start..start + n]))
  }

  /** A save of at least one byte that fits copies its own bytes and no other; a save of none copies all or nothing. */
  lemma SaveIsLocal(st: Store, start: nat, count: nat, k: nat)
    requires Sized(st) && k < TOTAL
    ensures var r := SaveRange(st, start, count);
            && r.ram == st.ram
            && (count > 0 && start + count <= TOTAL ==>
                r.nv[k] == if start <= k < start + count then st.ram[k] else st.nv[k])
            && (count == 0 ==> r.nv[k] == if start == 0 then st.ram[k] else st.nv[k])
            && (start + count > TOTAL ==> r == st)
  {
  }

  datatype Op =
    | Put(block: nat, index: int, value: Value)
    | Save(block: nat, index: int, value: Value)
    | SaveAll(block: nat)
    | ResetTo0(block: nat)

  predicate Fits(b: Block) {
    b.start + WIDTH * b.count <= TOTAL
  }

  /** The address of the parameter with that number, counted from one. */
  function At(b: Block, index: int): int {
    b.start + WIDTH * (index - 1)
  }

  predicate Within(b: Block, index: int) {
    1 <= index <= b.count
  }

  function Write(st: Store, b: Block, index: int, value: Value): (r: Store)
    requires Sized(st) && Fits(b) && Within(b, index)
    ensures Sized(r)
  {
    st.(ram := Splice(st.ram, At(b, index), Bytes(value)))
  }

  function Apply(st: Store, bs: seq<Block>, op: Op): (r: Store)
    requires Sized(st) && op.block < |bs| && Fits(bs[op.block])
    ensures Sized(r)
  {
    var b := bs[op.block];
    match op
    case Put(_, index, value) => if Within(b, index) then Write(st, b, index, value) else st
    case Save(_, index, value) =>
      if Within(b, index) then SaveRange(Write(st, b, index, value), At(b, index), WIDTH) else st
    case SaveAll(_) => SaveRange(st, b.start, WIDTH * b.count)
    case ResetTo0(_) =>
      SaveRange(st.(ram := Splice(st.ram, b.start, Zeros(WIDTH * b.count))), b.start, WIDTH * b.count)
  }

  // ---- what it refines: a table of working values and a table of saved ones -----------------------------------------

  type Table = seq<seq<Value>>

  datatype Tables = Tables(work: Table, kept: Table)

  predicate Shaped(bs: seq<Block>, t: Table) {
    |t| == |bs| && forall j :: 0 <= j < |bs| ==> |t[j]| == bs[j].count
  }

  /** The image shows the table: each cell of each block holds the value of the table. */
  ghost predicate Shows(image: seq<Byte>, bs: seq<Block>, t: Table) {
    && |image| == TOTAL && Shaped(bs, t)
    && forall j, i {:trigger t[j][i]} :: 0 <= j < |bs| && 0 <= i < bs[j].count ==>
         bs[j].start + WIDTH * i + WIDTH <= TOTAL && Cell(image, bs[j].start + WIDTH * i) == t[j][i]
  }

  predicate Apart(bs: seq<Block>) {
    && (forall j :: 0 <= j < |bs| ==> Fits(bs[j]))
    && forall j, k :: 0 <= j < k < |bs| ==> bs[j].start + WIDTH * bs[j].count <= bs[k].start
  }

  function PutIn(t: Table, j: nat, index: int, value: Value): (r: Table)
    requires j < |t|
    ensures |r| == |t|
  {
    if 1 <= index <= |t[j]| then t[j := t[j][index - 1 := value]] else t
  }

  /** Saving a block keeps its working values; saving an empty block at the very start keeps all working values. */
  function KeepBlock(t: Tables, b: Block, j: nat): Tables
    requires j < |t.work| && j < |t.kept|
  {
    if b.count > 0 then t.(kept := t.kept[j := t.work[j]])
    else if b.start == 0 then t.(kept := t.work)
    else t
  }

  function ZeroValues(n: nat): (z: seq<Value>)
    ensures |z| == n
  {
    seq(n, i => Value(0, 0, 0, 0))
  }

  function Abstract(t: Tables, bs: seq<Block>, op: Op): Tables
    requires Shaped(bs, t.work) && Shaped(bs, t.kept) && op.block < |bs|
  {
    var j := op.block;
    match op
    case Put(_, index, value) => t.(work := PutIn(t.work, j, index, value))
    case Save(_, index, value) => Tables(PutIn(t.work, j, index, value), PutIn(t.kept, j, index, value))
    case SaveAll(_) => KeepBlock(t, bs[j], j)
    case ResetTo0(_) => KeepBlock(t.(work := t.work[j := ZeroValues(bs[j].count)]), bs[j], j)
  }

  // ---- proofs -------------------------------------------------------------------------------------------------------

  lemma CellAfterSplice(image: seq<Byte>, at: nat, bytes: seq<Byte>, c: nat)
    requires at + |bytes| <= |image| && c + WIDTH <= |image|
    ensures c + WIDTH <= at || at + |bytes| <= c ==> Cell(Splice(image, at, bytes), c) == Cell(image, c)
    ensures at <= c && c + WIDTH <= at + |bytes| ==> Cell(Splice(image, at, bytes), c) == Cell(bytes, c - at)
  {
  }

  /** Cells of different parameters do not overlap. */
  lemma CellsApart(bs: seq<Block>, j: nat, i: nat, k: nat, l: nat)
    requires Apart(bs) && j < |bs| && k < |bs| && i < bs[j].count && l < bs[k].count
    requires j != k || i != l
    ensures var c, d := bs[j].start + WIDTH * i, bs[k].start + WIDTH * l; c + WIDTH <= d || d + WIDTH <= c
  {
  }

  lemma CellInBlock(bs: seq<Block>, j: nat, i: nat, k: nat)
    requires Apart(bs) && j < |bs| && k < |bs| && i < bs[j].count
    ensures var c := bs[j].start + WIDTH * i;
            if j == k then bs[k].start <= c && c + WIDTH <= bs[k].start + WIDTH * bs[k].count
            else c + WIDTH <= bs[k].start || bs[k].start + WIDTH * bs[k].count <= c
  {
  }

  /** Writing one value into an image that shows a table gives an image that shows the table with that value. */
  lemma SpliceValue(image: seq<Byte>, bs: seq<Block>, t: Table, j: nat, index: int, value: Value)
    requires Apart(bs) && Shows(image, bs, t) && j < |bs| && Within(bs[j], index)
    ensures Shows(Splice(image, At(bs[j], index), Bytes(value)), bs, PutIn(t, j, index, value))
  {
    var r, u, at := Splice(image, At(bs[j], index), Bytes(value)), PutIn(t, j, index, value), At(bs[j], index);
    forall k, i | 0 <= k < |bs| && 0 <= i < bs[k].count ensures Cell(r, bs[k].start + WIDTH * i) == u[k][i] {
      CellAfterSplice(image, at, Bytes(value), bs[k].start + WIDTH * i);
      assert Cell(image, bs[k].start + WIDTH * i) == t[k][i];
      if k != j || i != index - 1 { CellsApart(bs, k, i, j, index - 1); }
    }
  }

  /** Writing the bytes of a whole block, taken from an image that shows another table, moves that row of the table. */
  lemma SpliceBlock(image: seq<Byte>, bs: seq<Block>, t: Table, j: nat, bytes: seq<Byte>, row: seq<Value>)
    requires Apart(bs) && Shows(image, bs, t) && j < |bs|
    requires |bytes| == WIDTH * bs[j].count && |row| == bs[j].count
    requires forall i {:trigger row[i]} :: 0 <= i < |row| ==> Cell(bytes, WIDTH * i) == row[i]
    ensures Shows(Splice(image, bs[j].start, bytes), bs, t[j := row])
  {
    var r, u := Splice(image, bs[j].start, bytes), t[j := row];
    forall k, i | 0 <= k < |bs| && 0 <= i < bs[k].count ensures Cell(r, bs[k].start + WIDTH * i) == u[k][i] {
      CellAfterSplice(image, bs[j].start, bytes, bs[k].start + WIDTH * i);
      assert Cell(image, bs[k].start + WIDTH * i) == t[k][i];
      CellInBlock(bs, k, i, j);
      if k == j { assert u[k][i] == row[i]; }
    }
  }

  lemma SaveBlockKeeps(st: Store, bs: seq<Block>, t: Tables, j: nat)
    requires Sized(st) && Apart(bs) && j < |bs| && Shows(st.ram, bs, t.work) && Shows(st.nv, bs, t.kept)
    ensures var r := SaveRange(st, bs[j].start, WIDTH * bs[j].count);
            r.ram == st.ram && Shows(r.nv, bs, KeepBlock(t, bs[j], j).kept)
  {
    var b := bs[j];
    if b.count > 0 {
      var bytes := st.ram[b.start..b.start + WIDTH * b.count];
      forall i {:trigger t.work[j][i]} | 0 <= i < b.count ensures Cell(bytes, WIDTH * i) == t.work[j][i] {
        assert Cell(st.ram, b.start + WIDTH * i) == t.work[j][i];
      }
      SpliceBlock(st.nv, bs, t.kept, j, bytes, t.work[j]);
    } else if b.start == 0 {
      assert Splice(st.nv, 0, st.ram[0..TOTAL]) == st.ram;
    }
  }

  /** Every operation does to the two images what its abstract counterpart does to the two tables. */
  lemma OperationRefines(st: Store, bs: seq<Block>, t: Tables, op: Op)
    requires Sized(st) && Apart(bs) && op.block < |bs| && Shows(st.ram, bs, t.work) && Shows(st.nv, bs, t.kept)
    ensures var r, u := Apply(st, bs, op), Abstract(t, bs, op);
            Shows(r.ram, bs, u.work) && Shows(r.nv, bs, u.kept) && r.last == st.last && r.recorded == st.recorded
  {
    hide Shows, Splice;
    var b := bs[op.block];
    match op {
      case Put(j, index, value) =>
        ShapedTables(st, bs, t);
        if Within(b, index) { SpliceValue(st.ram, bs, t.work, j, index, value); }
      case Save(j, index, value) =>
        ShapedTables(st, bs, t);
        if Within(b, index) {
          SpliceValue(st.ram, bs, t.work, j, index, value);
          SpliceValue(st.nv, bs, t.kept, j, index, value);
          SavedValue(st, b, index, value);
        }
      case SaveAll(j) => SaveBlockKeeps(st, bs, t, j);
      case ResetTo0(j) =>
        ShapedTables(st, bs, t);
        ZeroRow(b.count);
        SpliceBlock(st.ram, bs, t.work, j, Zeros(WIDTH * b.count), ZeroValues(b.count));
        SaveBlockKeeps(st.(ram := Splice(st.ram, b.start, Zeros(WIDTH * b.count))), bs,
                       t.(work := t.work[j := ZeroValues(b.count)]), j);
    }
  }

  lemma ShapedTables(st: Store, bs: seq<Block>, t: Tables)
    requires Shows(st.ram, bs, t.work) && Shows(st.nv, bs, t.kept)
    ensures Shaped(bs, t.work) && Shaped(bs, t.kept)
  {
  }

  lemma ZeroRow(n: nat)
    ensures forall i {:trigger ZeroValues(n)[i]} :: 0 <= i < n ==>
              Cell(Zeros(WIDTH * n), WIDTH * i) == ZeroValues(n)[i]
  {
  }

  lemma SavedValue(st: Store, b: Block, index: int, value: Value)
    requires Sized(st) && Fits(b) && Within(b, index)
    ensures SaveRange(Write(st, b, index, value), At(b, index), WIDTH).nv == Splice(st.nv, At(b, index), Bytes(value))
  {
    var at := At(b, index);
    assert Splice(st.ram, at, Bytes(value))[at..at + WIDTH] == Bytes(value);
  }

  // ---- runs and restarts --------------------------------------------------------------------------------------------

  function Run(st: Store, bs: seq<Block>, ops: seq<Op>): (r: Store)
    requires Sized(st) && Apart(bs) && forall k :: 0 <= k < |ops| ==> ops[k].block < |bs|
    ensures Sized(r)
    decreases |ops|
  {
    if ops == [] then st else Run(Apply(st, bs, ops[0]), bs, ops[1..])
  }

  lemma AbstractShaped(t: Tables, bs: seq<Block>, op: Op)
    requires Shaped(bs, t.work) && Shaped(bs, t.kept) && op.block < |bs|
    ensures Shaped(bs, Abstract(t, bs, op).work) && Shaped(bs, Abstract(t, bs, op).kept)
  {
  }

  function AbstractRun(t: Tables, bs: seq<Block>, ops: seq<Op>): Tables
    requires Shaped(bs, t.work) && Shaped(bs, t.kept) && forall k :: 0 <= k < |ops| ==> ops[k].block < |bs|
    decreases |ops|
  {
    if ops == [] then t
    else
      AbstractShaped(t, bs, ops[0]);
      AbstractRun(Abstract(t, bs, ops[0]), bs, ops[1..])
  }

  lemma {:induction false} RunRefines(st: Store, bs: seq<Block>, t: Tables, ops: seq<Op>)
    requires Sized(st) && Apart(bs) && Shows(st.ram, bs, t.work) && Shows(st.nv, bs, t.kept)
    requires forall k :: 0 <= k < |ops| ==> ops[k].block < |bs|
    ensures var r, u := Run(st, bs, ops), AbstractRun(t, bs, ops);
            Shows(r.ram, bs, u.work) && Shows(r.nv, bs, u.kept) && r.last == st.last && r.recorded == st.recorded
    decreases |ops|
  {
    hide Apply, Abstract;
    if ops != [] {
      OperationRefines(st, bs, t, ops[0]);
      RunRefines(Apply(st, bs, ops[0]), bs, Abstract(t, bs, ops[0]), ops[1..]);
    }
  }

  /** Starting up: the persistent image is read, and the blocks are handed out from the start again. */
  function Boot(st: Store, counts: seq<nat>): (r: Store)
    requires Sized(st)
    ensures Sized(r)
  {
    AllocateAll(st.(ram := st.nv, last := 0), counts).0
  }

  /**
    * Final initialization: if the number of bytes handed out is not the recorded one, it is recorded and everything is
    * set to the defaults; the first parameter, which asks for a reset, is cleared and the whole image is saved.
    */
  function FinalInit(st: Store, defaults: seq<Byte>): (r: Store)
    requires Sized(st) && |defaults| == TOTAL
    ensures Sized(r)
  {
    if st.recorded == st.last then st
    else SaveRange(st.(recorded := st.last, ram := Splice(defaults, 0, Zeros(WIDTH))), 0, 0)
  }

  function RowOf(image: seq<Byte>, b: Block): (row: seq<Value>)
    requires |image| == TOTAL && Fits(b)
    ensures |row| == b.count
  {
    seq(b.count, i requires 0 <= i < b.count => Cell(image, b.start + WIDTH * i))
  }

  /** The table that an image shows. */
  function TableOf(image: seq<Byte>, bs: seq<Block>): (t: Table)
    requires |image| == TOTAL && forall j :: 0 <= j < |bs| ==> Fits(bs[j])
    ensures Shaped(bs, t)
  {
    seq(|bs|, j requires 0 <= j < |bs| =>
      RowOf(image, bs[j]))
  }

  /**
    * After any run of operations on blocks that fit, a restart that asks for the same blocks reads back, for every
    * parameter, the value of the table of saved values, and a restart that asks for another total gets the defaults.
    * Only the total is compared: other blocks of the same total see the saved bytes as they lie.
    */
  lemma SavedValuesSurvive(st: Store, counts: seq<nat>, ops: seq<Op>, others: seq<nat>, defaults: seq<Byte>)
    requires Sized(st) && WIDTH * Sum(counts) <= TOTAL && st.recorded == WIDTH * Sum(counts)
    requires forall k :: 0 <= k < |ops| ==> ops[k].block < |counts|
    requires WIDTH * Sum(others) <= TOTAL && |defaults| == TOTAL
    ensures Apart(Layout(counts, 0))
    ensures var bs := Layout(counts, 0);
            var kept := AbstractRun(Tables(TableOf(st.ram, bs), TableOf(st.nv, bs)), bs, ops).kept;
            var r := FinalInit(Boot(Run(st, bs, ops), counts), defaults);
            Shows(r.ram, bs, kept) && Shows(r.nv, bs, kept)
    ensures var end := Run(st, Layout(counts, 0), ops);
            var r := FinalInit(Boot(end, others), defaults);
            if Sum(others) == Sum(counts) then r.ram == r.nv == end.nv
            else r.ram == r.nv == Splice(defaults, 0, Zeros(WIDTH)) && r.recorded == WIDTH * Sum(others)
  {
    hide Apply, AbstractRun, Shows, Splice, Layout;
    LayoutIsApart(counts);
    var bs := Layout(counts, 0);
    TableShows(st.ram, bs);
    TableShows(st.nv, bs);
    RunRefines(st, bs, Tables(TableOf(st.ram, bs), TableOf(st.nv, bs)), ops);
    var end := Run(st, bs, ops);
    BootsFrom(end, counts);
    BootsFrom(end, others);
    if Sum(others) != Sum(counts) { DefaultsSaved(Boot(end, others), defaults); }
  }

  lemma TableShows(image: seq<Byte>, bs: seq<Block>)
    requires |image| == TOTAL && forall j :: 0 <= j < |bs| ==> Fits(bs[j])
    ensures Shows(image, bs, TableOf(image, bs))
  {
  }

  lemma BootsFrom(st: Store, counts: seq<nat>)
    requires Sized(st) && WIDTH * Sum(counts) <= TOTAL
    ensures Boot(st, counts) == st.(ram := st.nv, last := WIDTH * Sum(counts))
  {
    AllocationIsLayout(st.(ram := st.nv, last := 0), counts);
  }

  lemma DefaultsSaved(st: Store, defaults: seq<Byte>)
    requires Sized(st) && |defaults| == TOTAL && st.recorded != st.last
    ensures var r := FinalInit(st, defaults);
            r.ram == r.nv == Splice(defaults, 0, Zeros(WIDTH)) && r.recorded == st.last
  {
    var image := Splice(defaults, 0, Zeros(WIDTH));
    assert Splice(st.nv, 0, image[0..TOTAL]) == image;
  }

  lemma LayoutIsApart(counts: seq<nat>)
    requires WIDTH * Sum(counts) <= TOTAL
    ensures Apart(Layout(counts, 0))
  {
    LayoutIsDisjoint(counts, 0);
  }
}

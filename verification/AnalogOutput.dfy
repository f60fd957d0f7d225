/**
  * Analog outputs (PAC/common/bus_coupler_io.cpp, io_device::set_AO and get_AO): a value is scaled to a current of 4 to
  * 20 mA, the current to the counts of the module, and the counts are truncated into a signed 16-bit cell. Numbers with
  * a fraction are taken as reals.
  */
module AnalogOutput {
  /** The modules by their order numbers; any other module takes the value as it is. */
  datatype Module = Wago554 | Wago555 | AxlAo4 | AxlAi2Ao2 | AxlSeAo4 | Other

  /** Counts per milliampere. */
  function Factor(m: Module): (f: real)
    ensures f > 0.0
  {
    match m
    case Wago554 => 2047.5
    case Wago555 => 2047.5
    case AxlAo4 => 1875.0
    case AxlAi2Ao2 => 1875.0
    case AxlSeAo4 => 1000.0
    case Other => 1.0
  }

  /** The counts of 20 mA. */
  function Full(m: Module): (n: nat)
    ensures n > 0
  {
    match m
    case Wago554 => 32760
    case Wago555 => 32760
    case AxlAo4 => 30000
    case AxlAi2Ao2 => 30000
    case AxlSeAo4 => 16000
    case Other => 1
  }

  /** The counts below this one read as none at all. */
  function DeadZone(m: Module): nat {
    if m == Wago554 || m == Wago555 then 7 else 0
  }

  function Int16(n: int): (r: int)
    ensures -32768 <= r < 32768 && (-32768 <= n < 32768 ==> r == n)
  {
    var u := n % 65536;
    if u >= 32768 then u - 65536 else u
  }

  predicate Scaled(min: real, max: real) {
    min != 0.0 || max != 0.0
  }

  predicate Usable(min: real, max: real) {
    Scaled(min, max) ==> min != max
  }

  function Current(v: real, min: real, max: real): real
    requires Usable(min, max)
  {
    if Scaled(min, max) then 4.0 + 16.0 * (v - min) / (max - min) else v
  }

  function Clamp(c: real): (r: real)
    ensures 4.0 <= r <= 20.0 && (4.0 <= c <= 20.0 ==> r == c)
  {
    if c < 4.0 then 4.0 else if c > 20.0 then 20.0 else c
  }

  /** The counts of a current between 4 and 20 mA, before they are truncated. */
  function Raw(m: Module, c: real): real {
    Factor(m) * (c - 4.0)
  }

  /** set_AO: what is put into the cell. */
  function Encode(m: Module, v: real, min: real, max: real): (cell: int)
    requires Usable(min, max)
    ensures -32768 <= cell < 32768
  {
    if m == Other then Int16(v.Floor)
    else Int16(Raw(m, Clamp(Current(v, min, max))).Floor)
  }

  /** The current that the counts stand for, as it is read back: nothing in the dead zone when it is not scaled. */
  function ReadCurrent(m: Module, cell: int, scaled: bool): real {
    if cell < DeadZone(m) then if scaled || DeadZone(m) == 0 then 4.0 else 0.0
    else 4.0 + cell as real / Factor(m)
  }

  /** get_AO: what is read from the cell. */
  function Decode(m: Module, cell: int, min: real, max: real): real {
    if m == Other then cell as real
    else
      var c := ReadCurrent(m, cell, Scaled(min, max));
      if Scaled(min, max) then min + (c - 4.0) * (max - min) / 16.0 else c
  }

  function ReadBack(m: Module, v: real, min: real, max: real): real
    requires Usable(min, max)
  {
    Decode(m, Encode(m, v, min, max), min, max)
  }

  /** What a cell says without a scale: the counts of each module, and which of them ignore the first counts. */
  lemma CellsAreRead(cell: int)
    requires 0 <= cell
    ensures Decode(Wago554, cell, 0.0, 0.0) == Decode(Wago555, cell, 0.0, 0.0)
    ensures Decode(Wago554, cell, 0.0, 0.0) == if cell < 7 then 0.0 else 4.0 + cell as real / 2047.5
    ensures Decode(AxlAo4, cell, 0.0, 0.0) == Decode(AxlAi2Ao2, cell, 0.0, 0.0) == 4.0 + cell as real / 1875.0
    ensures Decode(AxlSeAo4, cell, 0.0, 0.0) == 4.0 + cell as real / 1000.0
    ensures Decode(Wago554, 6, 0.0, 100.0) == 0.0 && Decode(AxlAo4, -1, 0.0, 0.0) == 4.0
  {
  }

  // ---- the counts ---------------------------------------------------------------------------------------------------

  /** Where the value lies between the limits, which may be given in either order. */
  function Place(v: real, min: real, max: real): real
    requires min != max
  {
    (v - min) / (max - min)
  }

  function Within(t: real): (r: real)
    ensures 0.0 <= r <= 1.0 && (0.0 <= t <= 1.0 ==> r == t)
  {
    if t < 0.0 then 0.0 else if t > 1.0 then 1.0 else t
  }

  lemma Quotients(a: real, d: real)
    requires d != 0.0
    ensures 16.0 * a / d == 16.0 * (a / d) && a / d * d == a
  {
  }

  lemma CountsOf(m: Module, t: real)
    ensures m != Other ==> Raw(m, Clamp(4.0 + 16.0 * t)) == Full(m) as real * Within(t)
  {
  }

  /** The cell holds the counts of the place between the limits, rounded down, and they always fit. */
  lemma EncodeIs(m: Module, v: real, min: real, max: real)
    requires m != Other && min != max
    ensures var t := Within(Place(v, min, max));
            Encode(m, v, min, max) == (Full(m) as real * t).Floor && 0 <= (Full(m) as real * t).Floor <= Full(m)
  {
    hide Encode, Raw, Full, Clamp, Within, Place, Current, Int16;
    EncodeRaw(m, v, min, max);
    CountsOf(m, Place(v, min, max));
    FloorWithin(Full(m), Within(Place(v, min, max)));
    FullFits(m);
    FitsInt16((Full(m) as real * Within(Place(v, min, max))).Floor);
  }

  lemma EncodeRaw(m: Module, v: real, min: real, max: real)
    requires m != Other && min != max
    ensures Encode(m, v, min, max) == Int16(Raw(m, Clamp(4.0 + 16.0 * Place(v, min, max))).Floor)
  {
    hide Raw, Clamp, Place, Current, Int16;
    CurrentIs(v, min, max);
  }

  lemma CurrentIs(v: real, min: real, max: real)
    requires min != max
    ensures Current(v, min, max) == 4.0 + 16.0 * Place(v, min, max)
  {
    Quotients(v - min, max - min);
  }

  lemma FitsInt16(n: int)
    requires -32768 <= n < 32768
    ensures Int16(n) == n
  {
  }

  lemma FullFits(m: Module)
    ensures Full(m) < 32768
  {
  }

  lemma FloorWithin(n: nat, t: real)
    requires 0.0 <= t <= 1.0
    ensures 0 <= (n as real * t).Floor <= n
  {
    assert 0.0 <= n as real * t <= n as real by { ProductWithin(n as real, t); }
  }

  lemma ProductWithin(n: real, t: real)
    requires 0.0 <= n && 0.0 <= t <= 1.0
    ensures 0.0 <= n * t <= n
  {
  }

  /** The share of the span that the counts stand for. */
  function Share(m: Module, cell: int): real {
    if cell < DeadZone(m) then 0.0 else cell as real / Full(m) as real
  }

  lemma ReadScaled(m: Module, cell: int, min: real, max: real)
    requires m != Other && min != max && cell >= 0
    ensures Decode(m, cell, min, max) ==
            min + Share(m, cell) * (max - min)
  {
    var span := max - min;
    if cell >= DeadZone(m) {
      var q := cell as real / Factor(m);
      assert q / 16.0 == cell as real / Full(m) as real by { FactorIsSixteenth(m, cell as real); }
      Sixteenth(q, span);
    } else {
      assert 0.0 * span == 0.0;
    }
  }

  lemma FactorIsSixteenth(m: Module, c: real)
    requires m != Other
    ensures c / Factor(m) / 16.0 == c / Full(m) as real
  {
  }

  lemma Sixteenth(q: real, span: real)
    ensures q * span / 16.0 == q / 16.0 * span
  {
  }

  // ---- the promises -------------------------------------------------------------------------------------------------

  /** How far the read value may lie from the written one, as a share of the span. */
  function Step(m: Module): real {
    1.0 / Full(m) as real
  }

  lemma FloorShare(n: nat, t: real)
    requires n > 0 && 0.0 <= t <= 1.0
    ensures var k := (n as real * t).Floor; 0.0 <= t - k as real / n as real < 1.0 / n as real
  {
    var x, k := n as real * t, (n as real * t).Floor;
    assert k as real <= x < k as real + 1.0;
    Divided(n as real, t, k as real);
  }

  lemma QuotientMonotone(a: real, b: real, d: real)
    requires d > 0.0 && a <= b
    ensures a / d <= b / d
  {
  }

  lemma QuotientStrict(a: real, b: real, d: real)
    requires d > 0.0 && a < b
    ensures a / d < b / d
  {
  }

  lemma QuotientOfProduct(n: real, t: real, k: real)
    requires n > 0.0
    ensures n * t / n == t && (k + 1.0) / n == k / n + 1.0 / n && k / n == k * (1.0 / n)
  {
  }

  lemma Divided(n: real, t: real, k: real)
    requires n > 0.0 && k <= n * t < k + 1.0
    ensures 0.0 <= t - k / n < 1.0 / n
  {
    QuotientOfProduct(n, t, k);
    QuotientMonotone(k, n * t, n);
    QuotientStrict(n * t, k + 1.0, n);
  }

  lemma PlaceOf(v: real, min: real, max: real, share: real)
    requires min != max && v == min + share * (max - min)
    ensures Place(v, min, max) == share
  {
    var span := max - min;
    assert share * span / span == share;
  }

  lemma ShareOf(m: Module, v: real, min: real, max: real)
    requires m != Other && min != max
    ensures var cell := (Full(m) as real * Within(Place(v, min, max))).Floor;
            && cell >= 0 && cell == Encode(m, v, min, max)
            && ReadBack(m, v, min, max) == min + Share(m, cell) * (max - min)
            && Place(ReadBack(m, v, min, max), min, max) == Share(m, cell)
  {
    hide Encode, Decode, Factor, Clamp, Place, Share, Within;
    var cell := Encode(m, v, min, max);
    EncodeIs(m, v, min, max);
    ReadScaled(m, cell, min, max);
    assert ReadBack(m, v, min, max) == Decode(m, cell, min, max);
    PlaceOf(ReadBack(m, v, min, max), min, max, Share(m, cell));
  }

  /** At the limits, and beyond them, the limits themselves are read back. */
  lemma LimitsAreExact(m: Module, v: real, min: real, max: real)
    requires m != Other && min != max
    ensures Place(v, min, max) <= 0.0 ==> ReadBack(m, v, min, max) == min
    ensures Place(v, min, max) >= 1.0 ==> ReadBack(m, v, min, max) == max
  {
    hide Encode, Decode, ReadBack, Factor, Clamp, Place;
    ShareOf(m, v, min, max);
    var t := Within(Place(v, min, max));
    ProductEnds(Full(m) as real, max - min);
    if Place(v, min, max) <= 0.0 {
      assert t == 0.0;
      assert Share(m, 0) == 0.0;
    } else if Place(v, min, max) >= 1.0 {
      assert t == 1.0;
      assert Share(m, Full(m)) == 1.0;
    }
  }

  lemma ProductEnds(n: real, span: real)
    ensures n * 0.0 == 0.0 && n * 1.0 == n && 0.0 * span == 0.0 && 1.0 * span == span
  {
  }

  /**
    * A value between the limits, written and read back, comes back too small by less than one count of the span; on the
    * modules with a dead zone, by less than seven counts, and less than one again from the seventh count on. The counts
    * always fit into 16 bits with a sign.
    */
  lemma WrittenIsRead(m: Module, v: real, min: real, max: real)
    requires m != Other && min != max && 0.0 <= Place(v, min, max) <= 1.0
    ensures var share := Place(v, min, max) - Place(ReadBack(m, v, min, max), min, max);
            && 0.0 <= share
            && share < (if Encode(m, v, min, max) < DeadZone(m) then DeadZone(m) as real * Step(m) else Step(m))
            && 0 <= Encode(m, v, min, max) <= Full(m) < 32768
  {
    hide Encode, Decode, Factor, Clamp, Place;
    var t := Place(v, min, max);
    var cell := Encode(m, v, min, max);
    EncodeIs(m, v, min, max);
    FloorShare(Full(m), t);
    ShareOf(m, v, min, max);
    if cell < DeadZone(m) { DeadShare(m, t, cell); }
  }

  lemma DeadShare(m: Module, t: real, cell: int)
    requires 0.0 <= t <= 1.0 && cell == (Full(m) as real * t).Floor && cell < DeadZone(m)
    ensures t < DeadZone(m) as real * Step(m)
  {
    var n := Full(m) as real;
    assert n * t < cell as real + 1.0 <= DeadZone(m) as real;
    QuotientOfProduct(n, t, DeadZone(m) as real);
    QuotientStrict(n * t, DeadZone(m) as real, n);
  }

  /** A larger value never reads back smaller; and any value beyond a limit reads back as that limit. */
  lemma ReadIsMonotone(m: Module, v: real, w: real, min: real, max: real)
    requires m != Other && min != max && Place(v, min, max) <= Place(w, min, max)
    ensures Place(ReadBack(m, v, min, max), min, max) <= Place(ReadBack(m, w, min, max), min, max)
    ensures Place(v, min, max) <= 0.0 ==> ReadBack(m, v, min, max) == min
    ensures Place(w, min, max) >= 1.0 ==> ReadBack(m, w, min, max) == max
  {
    hide Encode, Decode, ReadBack, Factor, Clamp, Place, Share;
    LimitsAreExact(m, v, min, max);
    LimitsAreExact(m, w, min, max);
    ShareOf(m, v, min, max);
    ShareOf(m, w, min, max);
    var t, u := Within(Place(v, min, max)), Within(Place(w, min, max));
    ProductMonotone(Full(m) as real, t, u);
    SharesMonotone(m, (Full(m) as real * t).Floor, (Full(m) as real * u).Floor);
  }

  lemma ProductMonotone(n: real, t: real, u: real)
    requires n >= 0.0 && t <= u
    ensures n * t <= n * u
  {
  }

  lemma SharesMonotone(m: Module, k: int, l: int)
    requires 0 <= k <= l
    ensures Share(m, k) <= Share(m, l)
  {
    QuotientMonotone(k as real, l as real, Full(m) as real);
    QuotientMonotone(0.0, l as real, Full(m) as real);
  }

  /**
    * Without a scale a current between 4 and 20 mA comes back too small by less than one count, but in the dead zone no
    * current at all is read.
    */
  lemma MilliamperesAreRead(m: Module, v: real)
    requires m != Other && 4.0 <= v <= 20.0
    ensures var cell := Encode(m, v, 0.0, 0.0);
            && 0 <= cell <= Full(m)
            && if cell < DeadZone(m) then ReadBack(m, v, 0.0, 0.0) == 0.0
               else 0.0 <= v - ReadBack(m, v, 0.0, 0.0) < 1.0 / Factor(m)
  {
    hide Factor, Full, Encode, Int16, ReadBack, Raw;
    var k := Raw(m, v).Floor;
    PlainCounts(m, v);
    RawWithin(m, v);
    FitsInt16(k);
    ReadPlain(m, v, k);
    RawDivided(m, v);
  }

  lemma RawWithin(m: Module, v: real)
    requires m != Other && 4.0 <= v <= 20.0
    ensures 0 <= Raw(m, v).Floor <= Full(m) < 32768
  {
    FactorAndFull(m);
    hide Factor, Full;
    ProductMonotone(Factor(m), 0.0, v - 4.0);
    ProductMonotone(Factor(m), v - 4.0, 16.0);
  }

  lemma RawDivided(m: Module, v: real)
    ensures 0.0 <= v - 4.0 - Raw(m, v).Floor as real / Factor(m) < 1.0 / Factor(m)
  {
    hide Factor;
    Divided(Factor(m), v - 4.0, Raw(m, v).Floor as real);
  }

  lemma ReadPlain(m: Module, v: real, k: int)
    requires m != Other && Encode(m, v, 0.0, 0.0) == k >= 0
    ensures ReadBack(m, v, 0.0, 0.0) == if k < DeadZone(m) then 0.0 else 4.0 + k as real / Factor(m)
  {
    hide Encode, Factor;
  }

  lemma FactorAndFull(m: Module)
    requires m != Other
    ensures Factor(m) * 16.0 == Full(m) as real && Factor(m) * 0.0 == 0.0 && Full(m) < 32768
  {
  }

  lemma PlainCounts(m: Module, v: real)
    requires m != Other && 4.0 <= v <= 20.0
    ensures Encode(m, v, 0.0, 0.0) == Int16(Raw(m, v).Floor)
  {
    hide Raw, Int16;
    assert Clamp(Current(v, 0.0, 0.0)) == v;
  }

  /** Any other module gives back the whole part of the value if and only if that part fits the cell. */
  lemma OtherModulesTruncate(v: real, min: real, max: real)
    requires Usable(min, max)
    ensures ReadBack(Other, v, min, max) == v.Floor as real <==> -32768 <= v.Floor < 32768
  {
  }

  // ---- the object ---------------------------------------------------------------------------------------------------

  class IoDevice {
    const modules: seq<Module>
    const cells: array<int>

    ghost predicate Ok()
      reads this
    {
      cells.Length == |modules|
    }

    constructor (modules: seq<Module>)
      ensures Ok() && this.modules == modules && fresh(cells)
    {
      this.modules := modules;
      cells := new int[|modules|](i => 0);
    }

    method Counts(m: Module, value: real, min: real, max: real) returns (v: real)
      requires Usable(min, max)
      ensures v == Raw(m, Clamp(Current(value, min, max)))
    {
      hide Factor;
      v := value;
      if min != 0.0 || max != 0.0 {
        v := 4.0 + 16.0 * (v - min) / (max - min);
      }
      if v < 4.0 {
        v := 4.0;
      }
      if v > 20.0 {
        v := 20.0;
      }
      v := Factor(m) * (v - 4.0);
    }

    /** A channel that does not exist is ignored. */
    method SetAO(index: nat, value: real, min: real, max: real)
      requires Ok() && Usable(min, max)
      modifies cells
      ensures cells[..] == if index < |modules| then old(cells[..])[index := Encode(modules[index], value, min, max)]
                           else old(cells[..])
    {
      if index < |modules| {
        hide Current, Clamp;
        var v := value;
        if modules[index] != Other {
          v := Counts(modules[index], value, min, max);
        }
        cells[index] := Int16(v.Floor);
      }
    }

    /** A channel that does not exist reads as zero. */
    method GetAO(index: nat, min: real, max: real) returns (v: real)
      requires Ok()
      ensures v == if index < |modules| then Decode(modules[index], cells[index], min, max) else 0.0
    {
      hide Decode;
      v := 0.0;
      if index < |modules| {
        var m := modules[index];
        if m == Other {
          v := Plain(cells[index], min, max);
        } else if m == Wago554 || m == Wago555 {
          v := Wago55x(m, cells[index], min, max);
        } else {
          v := Axl(m, cells[index], min, max);
        }
      }
    }

    method Plain(cell: int, min: real, max: real) returns (v: real)
      ensures v == Decode(Other, cell, min, max)
    {
      v := cell as real;
    }

    method Axl(m: Module, cell: int, min: real, max: real) returns (v: real)
      requires m != Other && m != Wago554 && m != Wago555
      ensures v == Decode(m, cell, min, max)
    {
      hide ReadCurrent;
      v := AxlCurrent(m, cell, Scaled(min, max));
      if min != 0.0 || max != 0.0 {
        v := min + (v - 4.0) * (max - min) / 16.0;
      }
    }

    method AxlCurrent(m: Module, cell: int, ghost scaled: bool) returns (c: real)
      requires m != Other && m != Wago554 && m != Wago555
      ensures c == ReadCurrent(m, cell, scaled)
    {
      hide Factor;
      c := cell as real;
      c := if c < 0.0 then 4.0 else 4.0 + c / Factor(m);
    }

    method Wago55x(m: Module, cell: int, min: real, max: real) returns (v: real)
      requires m == Wago554 || m == Wago555
      ensures v == Decode(m, cell, min, max)
    {
      v := cell as real;
      if min == 0.0 && max == 0.0 {
        v := if v < 7.0 then 0.0 else 4.0 + v / 2047.5;
      } else {
        v := if v < 7.0 then 4.0 else 4.0 + v / 2047.5;
        v := min + (v - 4.0) * (max - min) / 16.0;
      }
    }
  }
}

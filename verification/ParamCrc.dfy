/**
  * The check sum of the parameters (PAC/common/param_ex.cpp, params_manager::solve_CRC). Whether a plain char is signed
  * depends on the platform, and a signed one is extended before the exclusive or; both are covered.
  */
module ParamCrc {
  type Byte = bv8

  function Extend(b: Byte, signed: bool): bv16 {
    if signed && b & 0x80 != 0 then (b as bv16) | 0xFF00 else b as bv16
  }

  function Shift(crc: bv16): bv16 {
    if crc & 1 == 1 then (crc >> 1) ^ 0xA001 else crc >> 1
  }

  function Shifted(crc: bv16, k: nat): bv16
    decreases k
  {
    if k == 0 then crc else Shifted(Shift(crc), k - 1)
  }

  function Feed(crc: bv16, b: Byte, signed: bool): bv16 {
    Shifted(crc ^ Extend(b, signed), 8)
  }

  function Fold(crc: bv16, bytes: seq<Byte>, signed: bool): bv16
    decreases |bytes|
  {
    if bytes == [] then crc else Fold(Feed(crc, bytes[0], signed), bytes[1..], signed)
  }

  /** The bytes that enter the sum: the parameters, then the two low bytes of the project number. */
  function Summed(params: seq<Byte>, project: (Byte, Byte)): seq<Byte> {
    params + [project.0, project.1]
  }

  function Crc(params: seq<Byte>, project: (Byte, Byte), signed: bool): bv16 {
    Fold(0xFFFF, Summed(params, project), signed)
  }

  // ---- the check value ---------------------------------------------------------------------------------------------

  /** One byte below 128 takes the sum from one value to another. */
  lemma FeedsTo(crc: bv16, b: Byte, next: bv16, signed: bool)
    requires b & 0x80 == 0
    requires Shift(Shift(Shift(Shift(Shift(Shift(Shift(Shift(crc ^ (b as bv16))))))))) == next
    ensures Feed(crc, b, signed) == next
  {
    hide Shift;
    EightShifts(crc ^ (b as bv16));
  }

  /** The sum of the digits 1 to 9 is the check value of CRC-16/MODBUS, for signed and for unsigned characters. */
  lemma CheckValue(signed: bool)
    ensures Crc([0x31, 0x32, 0x33, 0x34, 0x35, 0x36, 0x37], (0x38, 0x39), signed) == 0x4B37
  {
    hide Feed;
    var bytes: seq<Byte> := [0x31, 0x32, 0x33, 0x34, 0x35, 0x36, 0x37, 0x38, 0x39];
    assert Summed([0x31, 0x32, 0x33, 0x34, 0x35, 0x36, 0x37], (0x38, 0x39)) == bytes;
    FeedsTo(0xFFFF, 0x31, 0x947E, signed);
    FoldOne(0xFFFF, bytes, 0, signed);
    FeedsTo(0x947E, 0x32, 0xF595, signed);
    FoldOne(0x947E, bytes, 1, signed);
    FeedsTo(0xF595, 0x33, 0x7A75, signed);
    FoldOne(0xF595, bytes, 2, signed);
    FeedsTo(0x7A75, 0x34, 0x30BA, signed);
    FoldOne(0x7A75, bytes, 3, signed);
    FeedsTo(0x30BA, 0x35, 0xA471, signed);
    FoldOne(0x30BA, bytes, 4, signed);
    FeedsTo(0xA471, 0x36, 0x32E4, signed);
    FoldOne(0xA471, bytes, 5, signed);
    FeedsTo(0x32E4, 0x37, 0x9D73, signed);
    FoldOne(0x32E4, bytes, 6, signed);
    FeedsTo(0x9D73, 0x38, 0x37DD, signed);
    FoldOne(0x9D73, bytes, 7, signed);
    FeedsTo(0x37DD, 0x39, 0x4B37, signed);
    FoldOne(0x37DD, bytes, 8, signed);
  }

  lemma FoldOne(crc: bv16, bytes: seq<Byte>, k: nat, signed: bool)
    requires k < |bytes|
    ensures Fold(crc, bytes[k..], signed) == Fold(Feed(crc, bytes[k], signed), bytes[k + 1..], signed)
  {
    assert bytes[k..][1..] == bytes[k + 1..];
  }

  // ---- no information is lost on the way ----------------------------------------------------------------------------

  lemma TopBitTellsFlag(crc: bv16)
    ensures Shift(crc) & 0x8000 == 0x8000 <==> crc & 1 == 1
  {
  }

  lemma ShiftInjective(a: bv16, b: bv16)
    requires Shift(a) == Shift(b)
    ensures a == b
  {
    TopBitTellsFlag(a);
    TopBitTellsFlag(b);
  }

  lemma {:induction false} ShiftedInjective(a: bv16, b: bv16, k: nat)
    requires Shifted(a, k) == Shifted(b, k)
    ensures a == b
    decreases k
  {
    if k > 0 {
      ShiftedInjective(Shift(a), Shift(b), k - 1);
      ShiftInjective(a, b);
    }
  }

  lemma ExtendInjective(a: Byte, b: Byte, signed: bool)
    requires Extend(a, signed) == Extend(b, signed)
    ensures a == b
  {
  }

  lemma XorCancels(c: bv16, a: bv16, b: bv16)
    ensures c ^ a == c ^ b ==> a == b
    ensures a ^ c == b ^ c ==> a == b
  {
  }

  lemma FeedDiffers(crc: bv16, a: Byte, b: Byte, signed: bool)
    requires a != b
    ensures Feed(crc, a, signed) != Feed(crc, b, signed)
  {
    hide Extend, Shifted;
    if Feed(crc, a, signed) == Feed(crc, b, signed) {
      ShiftedInjective(crc ^ Extend(a, signed), crc ^ Extend(b, signed), 8);
      XorCancels(crc, Extend(a, signed), Extend(b, signed));
      ExtendInjective(a, b, signed);
    }
  }

  lemma FeedKeepsDifference(c: bv16, d: bv16, b: Byte, signed: bool)
    requires c != d
    ensures Feed(c, b, signed) != Feed(d, b, signed)
  {
    hide Extend, Shifted;
    if Feed(c, b, signed) == Feed(d, b, signed) {
      ShiftedInjective(c ^ Extend(b, signed), d ^ Extend(b, signed), 8);
      XorCancels(Extend(b, signed), c, d);
    }
  }

  lemma {:induction false} FoldKeepsDifference(c: bv16, d: bv16, bytes: seq<Byte>, signed: bool)
    requires c != d
    ensures Fold(c, bytes, signed) != Fold(d, bytes, signed)
    decreases |bytes|
  {
    if bytes != [] {
      FeedKeepsDifference(c, d, bytes[0], signed);
      FoldKeepsDifference(Feed(c, bytes[0], signed), Feed(d, bytes[0], signed), bytes[1..], signed);
    }
  }

  lemma {:induction false} FoldDiffers(crc: bv16, a: seq<Byte>, b: seq<Byte>, k: nat, signed: bool)
    requires |a| == |b| && k < |a| && a[k] != b[k]
    requires forall i :: 0 <= i < |a| && i != k ==> a[i] == b[i]
    ensures Fold(crc, a, signed) != Fold(crc, b, signed)
    decreases k
  {
    if k == 0 {
      assert a[1..] == b[1..];
      FeedDiffers(crc, a[0], b[0], signed);
      FoldKeepsDifference(Feed(crc, a[0], signed), Feed(crc, b[0], signed), a[1..], signed);
    } else {
      FoldDiffers(Feed(crc, a[0], signed), a[1..], b[1..], k - 1, signed);
    }
  }

  /** Parameters of any length, or project numbers, that differ in exactly one byte have different check sums. */
  lemma OneByteChangesCrc(a: seq<Byte>, p: (Byte, Byte), b: seq<Byte>, q: (Byte, Byte), k: nat, signed: bool)
    requires |a| == |b| && k < |a| + 2
    requires Summed(a, p)[k] != Summed(b, q)[k]
    requires forall i :: 0 <= i < |a| + 2 && i != k ==> Summed(a, p)[i] == Summed(b, q)[i]
    ensures Crc(a, p, signed) != Crc(b, q, signed)
  {
    FoldDiffers(0xFFFF, Summed(a, p), Summed(b, q), k, signed);
  }

  // ---- two neighbouring bytes ---------------------------------------------------------------------------------------

  lemma HalfOfXor(a: bv16, b: bv16)
    ensures (a ^ b) >> 1 == (a >> 1) ^ (b >> 1) && (a ^ b) & 1 == (a & 1) ^ (b & 1)
  {
  }

  lemma LowBit(a: bv16)
    ensures a & 1 == 0 || a & 1 == 1
  {
  }

  lemma ConstantsCancel(x: bv16, y: bv16)
    ensures (x ^ 0xA001) ^ (y ^ 0xA001) == x ^ y
  {
  }

  lemma MoveConstantLeft(x: bv16, y: bv16)
    ensures (x ^ 0xA001) ^ y == (x ^ y) ^ 0xA001
  {
  }

  lemma MoveConstantRight(x: bv16, y: bv16)
    ensures x ^ (y ^ 0xA001) == (x ^ y) ^ 0xA001
  {
  }

  lemma ShiftOdd(a: bv16)
    ensures a & 1 == 1 ==> Shift(a) == (a >> 1) ^ 0xA001
    ensures a & 1 == 0 ==> Shift(a) == a >> 1
  {
  }

  lemma ShiftIsLinear(a: bv16, b: bv16)
    ensures Shift(a ^ b) == Shift(a) ^ Shift(b)
  {
    hide Shift;
    HalfOfXor(a, b);
    LowBit(a);
    LowBit(b);
    ShiftOdd(a);
    ShiftOdd(b);
    ShiftOdd(a ^ b);
    ConstantsCancel(a >> 1, b >> 1);
    MoveConstantLeft(a >> 1, b >> 1);
    MoveConstantRight(a >> 1, b >> 1);
  }

  function Xor(a: bv16, b: bv16): bv16 {
    a ^ b
  }

  lemma ShiftXor(a: bv16, b: bv16)
    ensures Shift(Xor(a, b)) == Xor(Shift(a), Shift(b))
  {
    ShiftIsLinear(a, b);
  }

  lemma {:induction false} ShiftedIsLinear(a: bv16, b: bv16, k: nat)
    ensures Shifted(Xor(a, b), k) == Xor(Shifted(a, k), Shifted(b, k))
    decreases k
  {
    hide Xor, Shift;
    if k > 0 {
      ShiftXor(a, b);
      ShiftedIsLinear(Shift(a), Shift(b), k - 1);
    }
  }

  predicate Low(w: bv16) {
    w <= 0xFF
  }

  predicate Negative(w: bv16, signed: bool) {
    signed && w & 0x80 != 0
  }

  function Sign(w: bv16, signed: bool): bv16 {
    if Negative(w, signed) then 0xFF00 else 0
  }

  /** What eight shifts turn into the sign of a byte. */
  function Root(w: bv16, signed: bool): bv16 {
    if Negative(w, signed) then 0x0154 else 0
  }

  function Extended(w: bv16, signed: bool): bv16 {
    w ^ Sign(w, signed)
  }

  /** What eight shifts turn into the extension of a byte: the byte shifted up, and the root of its sign. */
  function Unshifted(w: bv16, signed: bool): bv16 {
    (w << 8) ^ Root(w, signed)
  }

  lemma ExtendIs(b: Byte, signed: bool)
    ensures Extend(b, signed) == Extended(b as bv16, signed) && Low(b as bv16)
  {
  }

  lemma EightShifts(a: bv16)
    ensures Shifted(a, 8) == Shift(Shift(Shift(Shift(Shift(Shift(Shift(Shift(a))))))))
  {
    hide Shift;
    var a4 := Shift(Shift(Shift(Shift(a))));
    assert Shifted(a, 8) == Shifted(Shift(a), 7) == Shifted(Shift(Shift(a)), 6);
    assert Shifted(Shift(Shift(a)), 6) == Shifted(Shift(Shift(Shift(a))), 5) == Shifted(a4, 4);
    assert Shifted(a4, 4) == Shifted(Shift(a4), 3) == Shifted(Shift(Shift(a4)), 2);
    assert Shifted(Shift(Shift(a4)), 2) == Shifted(Shift(Shift(Shift(a4))), 1);
  }

  lemma UnshiftedIs(w: bv16, signed: bool)
    requires Low(w)
    ensures Shifted(Unshifted(w, signed), 8) == Extended(w, signed)
  {
    EightShifts(Unshifted(w, signed));
  }

  function Pair(a: bv16, b: bv16, signed: bool): bv16 {
    Extended(a, signed) ^ Unshifted(b, signed)
  }

  lemma PairSign(a: bv16, b: bv16, signed: bool)
    requires Low(a) && Low(b)
    ensures Pair(a, b, signed) & 0x80 == a & 0x80
  {
  }

  lemma PairTop(a: bv16, b: bv16, signed: bool)
    requires Low(a) && Low(b)
    ensures (Pair(a, b, signed) ^ Sign(a, signed)) & 0x8000 == (b << 8) & 0x8000
  {
  }

  lemma PairBytes(a: bv16, b: bv16, signed: bool)
    requires Low(a) && Low(b)
    ensures Pair(a, b, signed) ^ Sign(a, signed) ^ Root(b, signed) == a ^ (b << 8)
  {
  }

  lemma SameSign(a: bv16, c: bv16, signed: bool)
    requires a & 0x80 == c & 0x80
    ensures Sign(a, signed) == Sign(c, signed)
  {
  }

  lemma SameRoot(b: bv16, d: bv16, signed: bool)
    requires Low(b) && Low(d) && (b << 8) & 0x8000 == (d << 8) & 0x8000
    ensures Root(b, signed) == Root(d, signed)
  {
  }

  lemma SameBytes(a: bv16, b: bv16, c: bv16, d: bv16)
    requires Low(a) && Low(b) && Low(c) && Low(d) && a ^ (b << 8) == c ^ (d << 8)
    ensures a == c && b == d
  {
  }

  lemma PairTellsSign(a: bv16, b: bv16, c: bv16, d: bv16, signed: bool)
    requires Low(a) && Low(b) && Low(c) && Low(d) && Pair(a, b, signed) == Pair(c, d, signed)
    ensures Sign(a, signed) == Sign(c, signed)
  {
    hide Pair, Sign, Root, Low;
    PairSign(a, b, signed);
    PairSign(c, d, signed);
    SameSign(a, c, signed);
  }

  lemma PairTellsRoot(a: bv16, b: bv16, c: bv16, d: bv16, signed: bool)
    requires Low(a) && Low(b) && Low(c) && Low(d) && Pair(a, b, signed) == Pair(c, d, signed)
    ensures Root(b, signed) == Root(d, signed)
  {
    hide Pair, Sign, Root, Low;
    PairTellsSign(a, b, c, d, signed);
    PairTop(a, b, signed);
    PairTop(c, d, signed);
    SameRoot(b, d, signed);
  }

  lemma PairIsInjective(a: bv16, b: bv16, c: bv16, d: bv16, signed: bool)
    requires Low(a) && Low(b) && Low(c) && Low(d) && Pair(a, b, signed) == Pair(c, d, signed)
    ensures a == c && b == d
  {
    hide Pair, Sign, Root, Low;
    PairTellsSign(a, b, c, d, signed);
    PairTellsRoot(a, b, c, d, signed);
    PairBytes(a, b, signed);
    PairBytes(c, d, signed);
    SameBytes(a, b, c, d);
  }

  lemma FeedIs(crc: bv16, b: Byte, signed: bool)
    ensures Feed(crc, b, signed) == Shifted(Xor(crc, Extended(b as bv16, signed)), 8)
  {
    hide Shifted, Extend, Extended;
    ExtendIs(b, signed);
  }

  lemma XorAssociates(a: bv16, b: bv16, c: bv16)
    ensures Xor(Xor(a, b), c) == Xor(a, b ^ c)
  {
    assert Xor(Xor(a, b), c) == a ^ b ^ c;
    Regroup(a, b, c);
  }

  lemma Regroup(a: bv16, b: bv16, c: bv16)
    ensures a ^ b ^ c == a ^ (b ^ c)
  {
  }

  /** Two bytes enter the sum like one word that is shifted sixteen times. */
  lemma FeedTwo(crc: bv16, a: Byte, b: Byte, signed: bool)
    ensures Feed(Feed(crc, a, signed), b, signed) ==
            Shifted(Shifted(Xor(crc, Pair(a as bv16, b as bv16, signed)), 8), 8)
  {
    hide Shifted, Xor, Extended, Unshifted, Feed, Low;
    var x, y := a as bv16, b as bv16;
    var u := Xor(crc, Extended(x, signed));
    FeedIs(crc, a, signed);
    FeedIs(Feed(crc, a, signed), b, signed);
    ExtendIs(b, signed);
    UnshiftedIs(y, signed);
    ShiftedIsLinear(u, Unshifted(y, signed), 8);
    XorAssociates(crc, Extended(x, signed), Unshifted(y, signed));
  }

  lemma WordOfByte(a: Byte, b: Byte)
    ensures a as bv16 == b as bv16 ==> a == b
    ensures Low(a as bv16)
  {
  }

  lemma XorInjective(c: bv16, x: bv16, y: bv16)
    requires Xor(c, x) == Xor(c, y)
    ensures x == y
  {
    XorCancels(c, x, y);
  }

  lemma FeedTwoDiffers(crc: bv16, a: Byte, b: Byte, c: Byte, d: Byte, signed: bool)
    requires a != c || b != d
    ensures Feed(Feed(crc, a, signed), b, signed) != Feed(Feed(crc, c, signed), d, signed)
  {
    hide Feed, Pair, Shifted, Xor, Low;
    FeedTwo(crc, a, b, signed);
    FeedTwo(crc, c, d, signed);
    var x, y := Pair(a as bv16, b as bv16, signed), Pair(c as bv16, d as bv16, signed);
    if Feed(Feed(crc, a, signed), b, signed) == Feed(Feed(crc, c, signed), d, signed) {
      ShiftedInjective(Shifted(Xor(crc, x), 8), Shifted(Xor(crc, y), 8), 8);
      ShiftedInjective(Xor(crc, x), Xor(crc, y), 8);
      XorInjective(crc, x, y);
      WordOfByte(a, c);
      WordOfByte(b, d);
      WordOfByte(c, a);
      WordOfByte(d, b);
      PairIsInjective(a as bv16, b as bv16, c as bv16, d as bv16, signed);
    }
  }

  lemma {:induction false} FoldDiffersInPair(crc: bv16, a: seq<Byte>, b: seq<Byte>, k: nat, signed: bool)
    requires |a| == |b| && k + 1 < |a| && (a[k] != b[k] || a[k + 1] != b[k + 1])
    requires forall i :: 0 <= i < |a| && i != k && i != k + 1 ==> a[i] == b[i]
    ensures Fold(crc, a, signed) != Fold(crc, b, signed)
    decreases k
  {
    hide Feed;
    var c, d := Feed(crc, a[0], signed), Feed(crc, b[0], signed);
    if k == 0 {
      var c2, d2 := Feed(c, a[1], signed), Feed(d, b[1], signed);
      assert a[1..][1..] == b[1..][1..];
      assert Fold(crc, a, signed) == Fold(c, a[1..], signed) == Fold(c2, a[1..][1..], signed);
      assert Fold(crc, b, signed) == Fold(d, b[1..], signed) == Fold(d2, b[1..][1..], signed);
      FeedTwoDiffers(crc, a[0], a[1], b[0], b[1], signed);
      FoldKeepsDifference(c2, d2, a[1..][1..], signed);
    } else {
      FoldDiffersInPair(c, a[1..], b[1..], k - 1, signed);
    }
  }

  /** So have those that differ in no more than two neighbouring bytes, signed or not. */
  lemma TwoBytesChangeCrc(a: seq<Byte>, p: (Byte, Byte), b: seq<Byte>, q: (Byte, Byte), k: nat, signed: bool)
    requires |a| == |b| && k < |a| + 1
    requires Summed(a, p)[k] != Summed(b, q)[k] || Summed(a, p)[k + 1] != Summed(b, q)[k + 1]
    requires forall i :: 0 <= i < |a| + 2 && i != k && i != k + 1 ==> Summed(a, p)[i] == Summed(b, q)[i]
    ensures Crc(a, p, signed) != Crc(b, q, signed)
  {
    FoldDiffersInPair(0xFFFF, Summed(a, p), Summed(b, q), k, signed);
  }

  // ---- the loop ---------------------------------------------------------------------------------------------------

  method ShiftByte(crc: bv16) returns (r: bv16)
    ensures r == Shifted(crc, 8)
  {
    r := crc;
    var idx := 0;
    while idx <= 7
      invariant 0 <= idx <= 8 && Shifted(r, 8 - idx) == Shifted(crc, 8)
    {
      var flag := r & 1;
      r := r >> 1;
      if flag == 1 {
        r := r ^ 0xA001;
      }
      idx := idx + 1;
    }
  }

  method FeedByte(crc: bv16, b: Byte, signed: bool) returns (r: bv16)
    ensures r == Feed(crc, b, signed)
  {
    r := ShiftByte(crc ^ Extend(b, signed));
  }

  lemma FoldTwo(crc: bv16, a: Byte, b: Byte, signed: bool)
    ensures Fold(crc, [a, b], signed) == Feed(Feed(crc, a, signed), b, signed)
  {
    hide Feed;
    assert [a, b][1..] == [b] && [b][1..] == [];
    assert Fold(Feed(crc, a, signed), [b], signed) == Fold(Feed(Feed(crc, a, signed), b, signed), [], signed);
  }

  method SolveCrc(params: array<Byte>, project: (Byte, Byte), signed: bool) returns (crc: bv16)
    ensures crc == Crc(params[..], project, signed)
  {
    hide Feed;
    crc := 0xFFFF;
    var left, at := params.Length, 0;
    ghost var all := Summed(params[..], project);
    while left > 0
      invariant 0 <= at <= params.Length && left == params.Length - at
      invariant Fold(crc, all[at..], signed) == Fold(0xFFFF, all, signed)
    {
      assert all[at..][0] == params[at] && all[at..][1..] == all[at + 1..];
      crc := FeedByte(crc, params[at], signed);
      left, at := left - 1, at + 1;
    }
    assert all[at..] == [project.0, project.1];
    FoldTwo(crc, project.0, project.1, signed);
    crc := FeedByte(crc, project.0, signed);
    crc := FeedByte(crc, project.1, signed);
  }
}

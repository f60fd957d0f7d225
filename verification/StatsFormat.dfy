/**
  * The text format of the washing statistics (PAC/common/cip_stats.cpp): numbers in decimal, strings with their length
  * in front, and formatted input that skips white space before a number or a separator but not inside a string.
  */
module StatsFormat {
  import opened Wrappers

  datatype Record = Record(id: string, lastWash: string, program: string, acidWash: string, washes: int)

  /** A character of a stream is one byte. */
  predicate Space(c: char) {
    c == ' ' || c == '\t' || c == '\n' || c == '\r' || c == 11 as char || c == 12 as char
  }

  predicate Digit(c: char) {
    '0' <= c <= '9'
  }

  // ---- writing -----------------------------------------------------------------------------------------------------

  function Digits(n: nat): (s: string)
    ensures |s| > 0 && forall i :: 0 <= i < |s| ==> Digit(s[i])
  {
    var last := '0' + (n % 10) as char;
    if n < 10 then [last] else Digits(n / 10) + [last]
  }

  function Number(n: int): string {
    if n < 0 then "-" + Digits(-n) else Digits(n)
  }

  function Field(s: string): string {
    "#" + Number(|s|) + "#" + s
  }

  function RecordText(r: Record): string {
    Number(r.washes) + Field(r.id) + Field(r.lastWash) + Field(r.program) + Field(r.acidWash) + "\n"
  }

  function RecordsText(rs: seq<Record>): string {
    if rs == [] then "" else RecordText(rs[0]) + RecordsText(rs[1..])
  }

  function FileText(rs: seq<Record>): string {
    Number(|rs|) + "\n" + RecordsText(rs)
  }

  // ---- reading: each reader returns what it read and what is left; None is a failed stream --------------------------

  function SkipSpace(t: string): (r: string)
    ensures |r| <= |t|
  {
    if t != [] && Space(t[0]) then SkipSpace(t[1..]) else t
  }

  function DigitCount(t: string): (k: nat)
    ensures k <= |t| && (forall i :: 0 <= i < k ==> Digit(t[i])) && (k < |t| ==> !Digit(t[k]))
  {
    if t != [] && Digit(t[0]) then 1 + DigitCount(t[1..]) else 0
  }

  function DigitValue(c: char): nat
    requires Digit(c)
  {
    c as int - '0' as int
  }

  function Value(s: string): nat
    requires forall i :: 0 <= i < |s| ==> Digit(s[i])
  {
    if s == [] then 0 else 10 * Value(s[..|s| - 1]) + DigitValue(s[|s| - 1])
  }

  function ReadNat(t: string): Option<(nat, string)> {
    var k := DigitCount(t);
    if k == 0 then None else Some((Value(t[..k]), t[k..]))
  }

  function Signed(minus: bool, n: nat): int {
    var v: int := n;
    if minus then -v else v
  }

  function ReadInt(t: string): Option<(int, string)> {
    var s := SkipSpace(t);
    if s != [] && (s[0] == '-' || s[0] == '+') then
      match ReadNat(s[1..])
      case None => None
      case Some((n, rest)) => Some((Signed(s[0] == '-', n), rest))
    else
      match ReadNat(s)
      case None => None
      case Some((n, rest)) => Some((n, rest))
  }

  function ReadChar(t: string): Option<string> {
    var s := SkipSpace(t);
    if s == [] then None else Some(s[1..])
  }

  /** A string is read into a buffer of the given size, which must keep room for its end mark. */
  function ReadField(t: string, size: nat): Option<(string, string)> {
    match ReadChar(t)
    case None => None
    case Some(t1) =>
      match ReadInt(t1)
      case None => None
      case Some((n, t2)) =>
        match ReadChar(t2)
        case None => None
        case Some(t3) => if 0 <= n <= |t3| && n < size then Some((t3[..n], t3[n..])) else None
  }

  const ID_SIZE := 96
  const FIELD_SIZE := 72

  function ReadRecord(t: string): Option<(Record, string)> {
    match ReadInt(t)
    case None => None
    case Some((washes, t0)) =>
      match ReadField(t0, ID_SIZE)
      case None => None
      case Some((id, t1)) =>
        match ReadField(t1, FIELD_SIZE)
        case None => None
        case Some((lastWash, t2)) =>
          match ReadField(t2, FIELD_SIZE)
          case None => None
          case Some((program, t3)) =>
            match ReadField(t3, FIELD_SIZE)
            case None => None
            case Some((acidWash, t4)) => Some((Record(id, lastWash, program, acidWash, washes), t4))
  }

  // ---- the table: ordered by object name, every name once -----------------------------------------------------------

  predicate Before(a: string, b: string) {
    b != [] && (a == [] || a[0] < b[0] || (a[0] == b[0] && Before(a[1..], b[1..])))
  }

  predicate Sorted(rs: seq<Record>) {
    forall i, j :: 0 <= i < j < |rs| ==> Before(rs[i].id, rs[j].id)
  }

  function Place(rs: seq<Record>, id: string): (k: nat)
    ensures k <= |rs|
    ensures forall i :: 0 <= i < k ==> Before(rs[i].id, id)
    ensures k < |rs| ==> !Before(rs[k].id, id)
  {
    if rs == [] || !Before(rs[0].id, id) then 0 else 1 + Place(rs[1..], id)
  }

  predicate Present(rs: seq<Record>, id: string) {
    var k := Place(rs, id);
    k < |rs| && rs[k].id == id
  }

  /** An entry whose name is already there is not added. */
  function Emplace(rs: seq<Record>, r: Record): seq<Record> {
    var k := Place(rs, r.id);
    if Present(rs, r.id) then rs else rs[..k] + [r] + rs[k..]
  }

  function ReadRecords(t: string, count: int, rs: seq<Record>): Option<seq<Record>>
    decreases count
  {
    if count <= 0 then Some(rs)
    else
      match ReadRecord(t)
      case None => None
      case Some((r, rest)) => ReadRecords(rest, count - 1, Emplace(rs, r))
  }

  function ReadFile(t: string): Option<seq<Record>> {
    match ReadInt(t)
    case None => None
    case Some((count, rest)) => ReadRecords(rest, count, [])
  }

  lemma SampleNumbers()
    ensures Number(0) == "0" && Number(1) == "1" && Number(2) == "2" && Number(-12) == "-12"
  {
  }

  lemma SampleFields()
    ensures Field("T") == "#1#T" && Field("#") == "#1##" && Field("") == "#0#"
  {
    SampleNumbers();
    hide Number;
  }

  /** What the format looks like: a record, the number of the washes first, each string behind its length. */
  lemma SampleRecord()
    ensures RecordText(Record("T", "#", "", "T", 2)) == "2" + "#1#T" + "#1##" + "#0#" + "#1#T" + "\n"
  {
    SampleNumbers();
    SampleFields();
    hide Number, Field;
  }

  /** The number of records stands on a line of its own. */
  lemma SampleFile(a: Record, b: Record)
    ensures FileText([a, b]) == "2\n" + RecordText(a) + RecordText(b)
  {
    SampleNumbers();
    hide Number, RecordText;
    assert [a, b][1..] == [b] && [b][1..] == [];
    assert RecordsText([b]) == RecordText(b);
  }

  // ---- what comes back ----------------------------------------------------------------------------------------------

  lemma {:induction false} ValueOfDigits(n: nat)
    ensures Value(Digits(n)) == n
  {
    if n >= 10 {
      ValueOfDigits(n / 10);
      var s := Digits(n);
      assert s[..|s| - 1] == Digits(n / 10);
    }
  }

  lemma {:induction false} DigitsStop(s: string, t: string)
    requires forall i :: 0 <= i < |s| ==> Digit(s[i])
    requires t == [] || !Digit(t[0])
    ensures DigitCount(s + t) == |s|
  {
    if s == [] {
      assert s + t == t;
    } else {
      assert (s + t)[1..] == s[1..] + t;
      DigitsStop(s[1..], t);
    }
  }

  lemma ReadNatBack(n: nat, t: string)
    requires t == [] || !Digit(t[0])
    ensures ReadNat(Digits(n) + t) == Some((n, t))
  {
    DigitsStop(Digits(n), t);
    ValueOfDigits(n);
    var s := Digits(n) + t;
    assert s[..|Digits(n)|] == Digits(n) && s[|Digits(n)|..] == t;
  }

  lemma ReadMinus(n: nat, t: string)
    requires t == [] || !Digit(t[0])
    ensures ReadInt("-" + (Digits(n) + t)) == Some((Signed(true, n), t))
    ensures SkipSpace("-" + (Digits(n) + t)) == "-" + (Digits(n) + t)
  {
    hide ReadNat, Digits;
    ReadNatBack(n, t);
    var s := "-" + (Digits(n) + t);
    assert s[1..] == Digits(n) + t;
  }

  lemma ReadPlain(n: nat, t: string)
    requires t == [] || !Digit(t[0])
    ensures ReadInt(Digits(n) + t) == Some((n, t)) && SkipSpace(Digits(n) + t) == Digits(n) + t
  {
    hide ReadNat, Digits;
    ReadNatBack(n, t);
    var s := Digits(n) + t;
    assert s[0] == Digits(n)[0] && Digit(s[0]);
  }

  lemma ReadNumber(n: int, t: string)
    requires t == [] || !Digit(t[0])
    ensures ReadInt(Number(n) + t) == Some((n, t)) && SkipSpace(Number(n) + t) == Number(n) + t
  {
    hide ReadInt, SkipSpace, Digits;
    if n < 0 {
      ReadMinus(-n, t);
      assert Number(n) + t == "-" + (Digits(-n) + t);
    } else {
      ReadPlain(n, t);
    }
  }

  /** Any number comes back, also from the start of a new line, if no digit follows it. */
  lemma ReadIntBack(n: int, t: string)
    requires t == [] || !Digit(t[0])
    ensures ReadInt(Number(n) + t) == Some((n, t))
    ensures ReadInt("\n" + Number(n) + t) == Some((n, t))
  {
    ReadIntAfter('\n', n, t);
    ReadNumber(n, t);
  }

  lemma ReadIntAfter(c: char, n: int, t: string)
    requires Space(c) && (t == [] || !Digit(t[0]))
    ensures ReadInt([c] + Number(n) + t) == Some((n, t))
  {
    hide Number, ReadNat;
    ReadNumber(n, t);
    var s := [c] + Number(n) + t;
    assert s[1..] == Number(n) + t && s[0] == c;
    assert SkipSpace(s) == SkipSpace(s[1..]);
  }

  /** Any string shorter than its buffer comes back, whatever it holds: separators, digits, white space, line ends. */
  lemma ReadFieldBack(s: string, t: string, size: nat)
    requires |s| < size
    ensures ReadField(Field(s) + t, size) == Some((s, t))
  {
    hide Number, ReadInt;
    var t2 := "#" + s + t;
    var t1 := Number(|s|) + t2;
    var all := Field(s) + t;
    assert all == "#" + t1;
    ReadSeparator(t1);
    ReadIntBack(|s|, t2);
    ReadSeparator(s + t);
    assert t2 == "#" + (s + t);
    assert (s + t)[..|s|] == s && (s + t)[|s|..] == t;
  }

  lemma ReadSeparator(t: string)
    ensures ReadChar("#" + t) == Some(t)
  {
    assert ("#" + t)[1..] == t;
  }

  predicate Fits(r: Record) {
    |r.id| < ID_SIZE && |r.lastWash| < FIELD_SIZE && |r.program| < FIELD_SIZE && |r.acidWash| < FIELD_SIZE
  }

  /** The buffers: names of up to 95 bytes and other strings of up to 71 are kept, and no longer ones. */
  lemma BuffersHold(r: Record)
    ensures Fits(r) <==> |r.id| <= 95 && |r.lastWash| <= 71 && |r.program| <= 71 && |r.acidWash| <= 71
  {
  }

  lemma ReadRecordBack(r: Record, t: string)
    requires Fits(r)
    ensures ReadRecord(RecordText(r) + t) == Some((r, "\n" + t))
    ensures ReadRecord("\n" + RecordText(r) + t) == Some((r, "\n" + t))
  {
    hide Field, Number, ReadInt, ReadField;
    var t4 := "\n" + t;
    var t3 := Field(r.acidWash) + t4;
    var t2 := Field(r.program) + t3;
    var t1 := Field(r.lastWash) + t2;
    var t0 := Field(r.id) + t1;
    assert RecordText(r) + t == Number(r.washes) + t0;
    assert "\n" + RecordText(r) + t == "\n" + Number(r.washes) + t0;
    FieldStarts(r.id, t1);
    ReadIntBack(r.washes, t0);
    ReadFieldBack(r.id, t1, ID_SIZE);
    ReadFieldBack(r.lastWash, t2, FIELD_SIZE);
    ReadFieldBack(r.program, t3, FIELD_SIZE);
    ReadFieldBack(r.acidWash, t4, FIELD_SIZE);
  }

  lemma FieldStarts(s: string, t: string)
    ensures Field(s) + t != [] && !Digit((Field(s) + t)[0])
  {
  }

  lemma {:induction false} BeforeIsStrict(a: string, b: string)
    requires Before(a, b)
    ensures a != b && !Before(b, a)
  {
    if a != [] && a[0] == b[0] { BeforeIsStrict(a[1..], b[1..]); }
  }

  lemma {:induction false} BeforeIsTransitive(a: string, b: string, c: string)
    requires Before(a, b) && Before(b, c)
    ensures Before(a, c)
  {
    if a != [] && a[0] == b[0] && b[0] == c[0] { BeforeIsTransitive(a[1..], b[1..], c[1..]); }
  }

  lemma {:induction false} BeforeIsTotal(a: string, b: string)
    requires a != b && !Before(a, b)
    ensures Before(b, a)
  {
    if a != [] && b != [] && a[0] == b[0] {
      assert a == [a[0]] + a[1..] && b == [b[0]] + b[1..];
      BeforeIsTotal(a[1..], b[1..]);
    }
  }

  /** Adding an entry keeps the order. */
  lemma EmplaceSorted(rs: seq<Record>, r: Record)
    requires Sorted(rs)
    ensures Sorted(Emplace(rs, r))
  {
    var k := Place(rs, r.id);
    if !Present(rs, r.id) {
      if k < |rs| { BeforeIsTotal(rs[k].id, r.id); }
      forall i | k <= i < |rs| ensures Before(r.id, rs[i].id) {
        if i > k { BeforeIsTransitive(r.id, rs[k].id, rs[i].id); }
      }
    }
  }

  /** Adding an entry adds that entry and no other, and leaves an existing one of that name alone. */
  lemma EmplaceAdds(rs: seq<Record>, r: Record)
    requires Sorted(rs)
    ensures Present(Emplace(rs, r), r.id)
    ensures forall x :: x in Emplace(rs, r) <==> x in rs || (x == r && !Present(rs, r.id))
  {
    var k := Place(rs, r.id);
    var all := Emplace(rs, r);
    if !Present(rs, r.id) {
      assert all[k] == r;
      PlaceIs(all, r.id, k);
      forall x | x in rs ensures x in all {
        var i :| 0 <= i < |rs| && rs[i] == x;
        assert all[if i < k then i else i + 1] == x;
      }
    }
  }

  lemma {:induction false} PlaceIs(rs: seq<Record>, id: string, k: nat)
    requires k < |rs| && rs[k].id == id
    requires forall i :: 0 <= i < k ==> Before(rs[i].id, id)
    ensures Place(rs, id) == k
  {
    if Before(id, id) { BeforeIsStrict(id, id); }
    if k > 0 { PlaceIs(rs[1..], id, k - 1); }
  }

  lemma EmplaceLast(rs: seq<Record>, r: Record)
    requires forall i :: 0 <= i < |rs| ==> Before(rs[i].id, r.id)
    ensures Emplace(rs, r) == rs + [r]
  {
  }

  lemma {:induction false} ReadRecordsBack(rs: seq<Record>, k: nat)
    requires Sorted(rs) && (forall i :: 0 <= i < |rs| ==> Fits(rs[i])) && k <= |rs|
    ensures ReadRecords("\n" + RecordsText(rs[k..]), |rs| - k, rs[..k]) == Some(rs)
    decreases |rs| - k
  {
    hide ReadRecord, RecordText, Emplace;
    if k < |rs| {
      var rest := rs[k..];
      assert rest[0] == rs[k] && rest[1..] == rs[k + 1..];
      var t := "\n" + RecordsText(rest);
      assert t == "\n" + RecordText(rs[k]) + RecordsText(rs[k + 1..]);
      ReadRecordBack(rs[k], RecordsText(rs[k + 1..]));
      EmplaceLast(rs[..k], rs[k]);
      assert rs[..k] + [rs[k]] == rs[..k + 1];
      ReadRecordsBack(rs, k + 1);
    } else {
      assert rs[..k] == rs;
    }
  }

  /** Reading what was written gives the same table, for any number of objects. */
  lemma FileComesBack(rs: seq<Record>)
    requires Sorted(rs) && forall i :: 0 <= i < |rs| ==> Fits(rs[i])
    ensures ReadFile(FileText(rs)) == Some(rs)
  {
    var rest := "\n" + RecordsText(rs);
    assert FileText(rs) == Number(|rs|) + rest;
    ReadIntBack(|rs|, rest);
    assert rs[0..] == rs && rs[..0] == [];
    ReadRecordsBack(rs, 0);
  }

  /** Whatever a file holds, what is read from it is ordered, every name once. */
  lemma {:induction false} ReadRecordsSorted(t: string, count: int, rs: seq<Record>)
    requires Sorted(rs)
    ensures ReadRecords(t, count, rs).Some? ==> Sorted(ReadRecords(t, count, rs).value)
    decreases count
  {
    hide ReadRecord, Emplace;
    if count > 0 && ReadRecord(t).Some? {
      var (r, rest) := ReadRecord(t).value;
      EmplaceSorted(rs, r);
      ReadRecordsSorted(rest, count - 1, Emplace(rs, r));
    }
  }
}

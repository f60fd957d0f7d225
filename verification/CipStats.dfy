/**
  * The statistics objects themselves (PAC/common/cip_stats.cpp): records updated in place, streams written and read in
  * order, and the table from names to records, kept in name order as the ordered map does.
  */
module CipStats {
  import opened Wrappers
  import opened StatsFormat

  class Output {
    var text: string

    constructor ()
      ensures text == ""
    {
      text := "";
    }

    method Write(s: string)
      modifies this
      ensures text == old(text) + s
    {
      text := text + s;
    }
  }

  class Input {
    var rest: string

    constructor (text: string)
      ensures rest == text
    {
      rest := text;
    }

    method Int() returns (r: Option<int>)
      modifies this
      ensures match ReadInt(old(rest))
              case None => r == None
              case Some((n, t)) => r == Some(n) && rest == t
    {
      match ReadInt(rest) {
        case None => r := None;
        case Some((n, t)) => r := Some(n); rest := t;
      }
    }

    method Char() returns (ok: bool)
      modifies this
      ensures match ReadChar(old(rest))
              case None => !ok
              case Some(t) => ok && rest == t
    {
      match ReadChar(rest) {
        case None => ok := false;
        case Some(t) => ok := true; rest := t;
      }
    }

    /** Reads a length, its separators and that many characters into a buffer of the given size. */
    method String(size: nat) returns (r: Option<string>)
      modifies this
      ensures match ReadField(old(rest), size)
              case None => r == None
              case Some((s, t)) => r == Some(s) && rest == t
    {
      r := None;
      var comma := Char();
      if !comma { return; }
      var sl := Int();
      if sl == None { return; }
      comma := Char();
      if !comma { return; }
      if 0 <= sl.value <= |rest| && sl.value < size {
        r := Some(rest[..sl.value]);
        rest := rest[sl.value..];
      }
    }
  }

  /** "Unknown" and "undefined" in Russian, in the bytes of UTF-8. */
  const UNKNOWN := "\U{D0}\U{9D}\U{D0}\U{B5} "
    + "\U{D0}\U{B8}\U{D0}\U{B7}\U{D0}\U{B2}\U{D0}\U{B5}\U{D1}\U{81}\U{D1}\U{82}\U{D0}\U{BD}\U{D0}\U{BE}"
  const UNDEFINED := "\U{D0}\U{9D}\U{D0}\U{B5} "
    + "\U{D0}\U{BE}\U{D0}\U{BF}\U{D1}\U{80}\U{D0}\U{B5}\U{D0}\U{B4}\U{D0}\U{B5}"
    + "\U{D0}\U{BB}\U{D0}\U{B5}\U{D0}\U{BD}\U{D0}\U{BE}"

  class ObjectStats {
    var objId: string
    var lastWash: string
    var lastWashProgram: string
    var lastAcidWash: string
    var causticWashes: int
    var changed: int

    ghost function View(): Record
      reads this
    {
      Record(objId, lastWash, lastWashProgram, lastAcidWash, causticWashes)
    }

    constructor (name: string)
      ensures View() == Record(name, UNKNOWN, UNDEFINED, UNKNOWN, 0) && changed == 0
    {
      objId := name;
      lastAcidWash, lastWashProgram, lastWash := UNKNOWN, UNDEFINED, UNKNOWN;
      causticWashes, changed := 0, 0;
    }

    method ResetStats()
      modifies this
      ensures View() == Record(old(objId), UNKNOWN, UNDEFINED, UNKNOWN, 0) && changed == 0
    {
      lastAcidWash, lastWashProgram, lastWash := UNKNOWN, UNDEFINED, UNKNOWN;
      causticWashes, changed := 0, 0;
    }

    /** The length between separators, then the string itself. */
    static method WriteString(stream: Output, s: string)
      modifies stream
      ensures stream.text == old(stream.text) + Field(s)
    {
      hide Number;
      stream.Write("#" + Number(|s|) + "#");
      stream.Write(s);
    }

    method Serialize(stream: Output)
      modifies stream
      ensures stream.text == old(stream.text) + RecordText(View())
    {
      hide Number, Field;
      stream.Write(Number(causticWashes));
      WriteString(stream, objId);
      WriteString(stream, lastWash);
      WriteString(stream, lastWashProgram);
      WriteString(stream, lastAcidWash);
      stream.Write("\n");
    }

    method Deserialize(stream: Input) returns (ok: bool)
      modifies this, stream
      ensures match ReadRecord(old(stream.rest))
              case None => !ok
              case Some((r, t)) => ok && View() == r && stream.rest == t
      ensures changed == old(changed)
    {
      hide ReadInt, ReadField;
      ok := false;
      var washes := stream.Int();
      if washes == None { return; }
      causticWashes := washes.value;
      var id := stream.String(ID_SIZE);
      if id == None { return; }
      objId := id.value;
      var wash := stream.String(FIELD_SIZE);
      if wash == None { return; }
      lastWash := wash.value;
      var program := stream.String(FIELD_SIZE);
      if program == None { return; }
      lastWashProgram := program.value;
      var acid := stream.String(FIELD_SIZE);
      if acid == None { return; }
      lastAcidWash := acid.value;
      ok := true;
    }
  }

  class Stats {
    var keys: seq<string>
    var objects: seq<ObjectStats>

    ghost function Records(): (rs: seq<Record>)
      reads this, objects
      ensures |rs| == |objects|
    {
      seq(|objects|, k requires 0 <= k < |objects| reads this, objects => objects[k].View())
    }

    /** Every record is filed under its own name, in name order, every name once. */
    ghost predicate Ok()
      reads this, objects
    {
      && |keys| == |objects|
      && (forall k :: 0 <= k < |objects| ==> objects[k].objId == keys[k])
      && Sorted(Records())
    }

    constructor ()
      ensures Ok() && Records() == []
    {
      keys, objects := [], [];
    }

    /** The place of a name among the keys, by comparing from the front. */
    method Search(id: string) returns (k: nat)
      requires Ok()
      ensures k == Place(Records(), id)
    {
      k := 0;
      while k < |keys| && Before(keys[k], id)
        invariant k <= |keys|
        invariant Place(Records(), id) == k + Place(Records()[k..], id)
      {
        assert Records()[k..][0] == objects[k].View();
        assert Records()[k..][1..] == Records()[k + 1..];
        k := k + 1;
      }
      if k < |keys| { assert Records()[k..][0] == objects[k].View(); }
    }

    /** The record of a name; a new one with default contents is filed if there is none. */
    method GetObjStats(id: string) returns (o: ObjectStats)
      requires Ok()
      modifies this
      ensures Ok() && o in objects && o.objId == id
      ensures Present(old(Records()), id) ==> Records() == old(Records()) && o in old(objects)
      ensures !Present(old(Records()), id) ==>
                fresh(o) && Records() == Emplace(old(Records()), Record(id, UNKNOWN, UNDEFINED, UNKNOWN, 0))
    {
      hide Sorted, Before, Place;
      ghost var rs := Records();
      var k := Search(id);
      if k < |keys| && keys[k] == id {
        o := objects[k];
      } else {
        o := new ObjectStats(id);
        ghost var r := o.View();
        EmplaceSorted(rs, r);
        keys := keys[..k] + [id] + keys[k..];
        objects := objects[..k] + [o] + objects[k..];
        assert objects[k] == o;
        assert Records() == rs[..k] + [r] + rs[k..];
      }
    }

    method Serialize(stream: Output)
      requires Ok()
      modifies stream
      ensures stream.text == old(stream.text) + FileText(Records())
    {
      hide RecordText, Number;
      ghost var rs := Records();
      stream.Write(Number(|objects|) + "\n");
      ghost var head := stream.text;
      var i := 0;
      assert rs[..0] == [];
      while i < |objects|
        invariant 0 <= i <= |objects|
        invariant stream.text == head + RecordsText(rs[..i])
      {
        objects[i].Serialize(stream);
        RecordsTextLast(rs, i);
        i := i + 1;
      }
      assert rs[..i] == rs;
    }

    /** What was there is dropped; records are read and filed one by one. */
    method Deserialize(stream: Input) returns (ok: bool)
      modifies this, stream
      ensures Ok()
      ensures match ReadFile(old(stream.rest))
              case None => !ok
              case Some(rs) => ok && Records() == rs
    {
      hide ReadRecord, ReadInt, Before, Emplace;
      ghost var all := stream.rest;
      keys, objects := [], [];
      var count := stream.Int();
      if count == None { return false; }
      ghost var start := stream.rest;
      var i := 0;
      assert Records() == [];
      while i < count.value
        invariant Ok() && i >= 0 && forall x :: x in objects ==> fresh(x)
        invariant ReadRecords(stream.rest, count.value - i, Records()) == ReadRecords(start, count.value, [])
        decreases count.value - i
      {
        var o := new ObjectStats("tmp");
        var read := o.Deserialize(stream);
        if !read { return false; }
        ghost var before := objects;
        File(o);
        assert forall x :: x in objects ==> x in before || x == o;
        i := i + 1;
      }
      ok := true;
    }

    /** Files a record under its name, unless the name is taken. */
    method File(o: ObjectStats)
      requires Ok()
      modifies this
      ensures Ok() && Records() == Emplace(old(Records()), old(o.View()))
      ensures forall x :: x in objects ==> x in old(objects) || x == o
    {
      hide Sorted, Before, Place;
      ghost var rs := Records();
      ghost var r := o.View();
      EmplaceSorted(rs, r);
      var k := Search(o.objId);
      if !(k < |keys| && keys[k] == o.objId) {
        keys := keys[..k] + [o.objId] + keys[k..];
        objects := objects[..k] + [o] + objects[k..];
        assert Records() == rs[..k] + [r] + rs[k..];
      }
    }
  }

  lemma {:induction false} RecordsTextLast(rs: seq<Record>, i: nat)
    requires i < |rs|
    ensures RecordsText(rs[..i + 1]) == RecordsText(rs[..i]) + RecordText(rs[i])
  {
    hide RecordText;
    if i == 0 {
      assert rs[..1] == [rs[0]] && rs[..0] == [];
      assert [rs[0]][1..] == [];
    } else {
      RecordsTextLast(rs[1..], i - 1);
      assert rs[..i + 1][1..] == rs[1..][..i] && rs[..i][1..] == rs[1..][..i - 1];
    }
  }

  /**
    * The whole way round: a table written to a stream and read back into another table gives the same records under the
    * same names, whatever separators, digits or line ends their strings hold.
    */
  method SaveAndLoad(from: Stats, to: Stats) returns (ok: bool)
    requires from.Ok() && from != to
    requires forall k :: 0 <= k < |from.objects| ==> Fits(from.objects[k].View())
    modifies to
    ensures ok && to.Ok() && to.Records() == old(from.Records())
  {
    hide FileText, ReadFile, Fits, Sorted, Before;
    var output := new Output();
    from.Serialize(output);
    assert output.text == FileText(from.Records());
    FileComesBack(from.Records());
    var input := new Input(output.text);
    ok := to.Deserialize(input);
  }
}

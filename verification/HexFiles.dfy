/** Intel HEX files record by record, in plain numbers: which control records the reader takes, and
    where it cuts the data. */
module HexFiles {
  import opened Protocol
  import opened IntelHex
  import opened HexImage
  import opened FirmwareWire

  // ---------- Printed lines ----------

  lemma DigitIsUpper(v: byte)
    requires v <= 15
    ensures Upper(HexDigit(v)) == HexDigit(v)
  {
  }

  lemma PrintIsUpper(r: Record)
    requires |r.data| <= 255
    ensures Uppers(Print(r)) == Print(r) && Print(r) != ""
  {
    hide Encode, HexDigit, Upper;
    var bytes := Encode(r);
    forall i | 0 <= i < |Print(r)| ensures Upper(Print(r)[i]) == Print(r)[i] {
      if i > 0 {
        DigitIsUpper(Nibble(bytes, i - 1));
        assert Print(r)[i] == HexDigit(Nibble(bytes, i - 1));
      } else {
        Colon();
      }
    }
  }

  lemma Colon()
    ensures Upper(':') == ':'
  {
  }

  // A file of three records.
  function File(control: Record, data: Record, end: Record): seq<string>
    requires |control.data| <= 255 && |data.data| <= 255 && |end.data| <= 255
  {
    [Print(control), Print(data), Print(end)]
  }

  lemma {:induction false} NoneBlank(lines: seq<string>)
    requires forall i :: 0 <= i < |lines| ==> lines[i] != ""
    ensures Visible(lines) == lines
  {
    if lines != [] {
      NoneBlank(lines[..|lines| - 1]);
    }
  }

  lemma FileSpells(control: Record, data: Record, end: Record)
    requires |control.data| <= 255 && |data.data| <= 255 && |end.data| <= 255
    ensures var file := File(control, data, end);
      Visible(file) == file && Spells(file, [control, data, end]) && (forall i :: 0 <= i < 3 ==> file[i] != "")
  {
    hide Print, Uppers, Visible;
    PrintIsUpper(control);
    PrintIsUpper(data);
    PrintIsUpper(end);
    NoneBlank(File(control, data, end));
  }

  // ---------- Control records ----------

  /** What may stand before the data: more data, a segment or linear base in two bytes, or a segment
      or linear start in four, each of these at address zero. */
  predicate Opener(r: Record) {
    || r.kind == 0
    || ((r.kind == 2 || r.kind == 4) && r.address == 0 && |r.data| == 2)
    || ((r.kind == 3 || r.kind == 5) && r.address == 0 && |r.data| == 4)
  }

  predicate Closer(r: Record) { r.kind == 1 && r.address == 0 && |r.data| == 0 }

  lemma OpenerUnderstood(r: Record)
    ensures Opener(r) <==> Understood(r) && r.kind != 1
    ensures Closer(r) <==> Understood(r) && r.kind == 1
  {
  }

  lemma OneMore(records: seq<Record>, r: Record)
    ensures DataOf(records + [r]) == DataOf(records) + (if r.kind == 0 then r.data else [])
    ensures ChunksOf(records + [r]) == ChunksOf(records) + (if r.kind == 0 then Chunks(r.data) else [])
  {
    hide Chunks;
    assert (records + [r])[..|records|] == records;
  }

  // Of an opener, some data and a closer.
  lemma ThreeRecords(control: Record, middle: Record, end: Record)
    requires Opener(control) && middle.kind == 0 && Closer(end)
    ensures var records := [control, middle, end];
      && AllUnderstood(records) && EndsLast(records)
      && DataOf(records) == (if control.kind == 0 then control.data else []) + middle.data
      && ChunksOf(records) == (if control.kind == 0 then Chunks(control.data) else []) + Chunks(middle.data)
  {
    hide Understood, Chunks, DataOf, ChunksOf, Opener, Closer;
    OpenerUnderstood(control);
    OpenerUnderstood(end);
    DataUnderstood(middle);
    OneMore([], control);
    OneMore([control], middle);
    OneMore([control, middle], end);
    assert [] + [control] == [control] && [control] + [middle] == [control, middle] && [control, middle] + [end] == [control, middle, end];
    NothingYet();
  }

  lemma NothingYet()
    ensures DataOf([]) == [] && ChunksOf([]) == []
  {
  }

  lemma FileAccepted(control: Record, address: Address, data: seq<byte>, end: Record)
    requires |control.data| <= 255 && 1 <= |data| <= 255 && Opener(control) && Closer(end)
    ensures var file := File(control, Record(address, 0, data), end);
      Parsed(file) == (if control.kind == 0 then Chunks(control.data) else []) + Chunks(data) && Parsed(file) != []
  {
    hide Print, Uppers, Visible, DecodeRecord, Understood, Opener, Closer, DataOf, ChunksOf, Chunks, Spells, Acceptable, Parsed, AllUnderstood, EndsLast, File;
    var middle := Record(address, 0, data);
    ClosesEmpty(end);
    FileSpells(control, middle, end);
    ThreeRecords(control, middle, end);
    PrintedProgramIsRead(File(control, middle, end), [control, middle, end]);
    ChunksKeepBytes(data);
  }

  lemma ClosesEmpty(end: Record)
    requires Closer(end)
    ensures |end.data| == 0
  {
  }

  lemma DataUnderstood(r: Record)
    requires r.kind == 0
    ensures Understood(r)
  {
  }

  lemma FileRefused(control: Record, address: Address, data: seq<byte>, end: Record)
    requires |control.data| <= 255 && 1 <= |data| <= 255 && |end.data| <= 255 && (!Opener(control) || !Closer(end))
    ensures Parsed(File(control, Record(address, 0, data), end)) == []
  {
    hide Print, Uppers, DecodeRecord, Understood, ControlSize, Content;
    var file, records := File(control, Record(address, 0, data), end), [control, Record(address, 0, data), end];
    FileSpells(control, records[1], end);
    OpenerUnderstood(control);
    OpenerUnderstood(end);
    SpelledLine(file, records, 0);
    SpelledLine(file, records, 2);
    assert Readable(file[0]) <==> Understood(control);
    assert Ends(file[..2][0]) <==> control.kind == 1;
  }

  // The chunks of some data: sixteen bytes each, the last perhaps fewer.
  predicate BySixteen(data: seq<byte>, chunks: seq<seq<byte>>) {
    && |chunks| == (|data| + 15) / 16
    && forall i :: 0 <= i < |chunks| ==> chunks[i] == data[16 * i..if 16 * i + 16 <= |data| then 16 * i + 16 else |data|]
  }

  lemma {:induction false} CutBySixteen(data: seq<byte>)
    ensures BySixteen(data, Chunks(data))
  {
    if |data| > 16 {
      var rest := data[16..];
      CutBySixteen(rest);
      var chunks := Chunks(data);
      assert |chunks| == 1 + |Chunks(rest)|;
      forall i | 0 <= i < |chunks| ensures chunks[i] == data[16 * i..if 16 * i + 16 <= |data| then 16 * i + 16 else |data|] {
        if i > 0 {
          assert chunks[i] == Chunks(rest)[i - 1];
        }
      }
    }
  }

  /** A printed file of one record, a data record and one more is read exactly when the first is data,
      or of type 02 or 04 with two bytes, or of type 03 or 05 with four, at address 0, and the last is
      the empty end-of-file record at address 0. Any other type, length or address gives nothing, and
      what is read is cut every sixteen bytes. */
  lemma ControlRecords(control: Record, address: Address, data: seq<byte>, end: Record)
    requires |control.data| <= 255 && 1 <= |data| <= 255 && |end.data| <= 255
    ensures var file := [Print(control), Print(Record(address, 0, data)), Print(end)];
      && (Parsed(file) != [] <==>
            && (|| control.kind == 0
                || ((control.kind == 2 || control.kind == 4) && control.address == 0 && |control.data| == 2)
                || ((control.kind == 3 || control.kind == 5) && control.address == 0 && |control.data| == 4))
            && end.kind == 1 && end.address == 0 && end.data == [])
      && (Parsed(file) != [] && control.kind != 0 ==> BySixteen(data, Parsed(file)))
  {
    hide Print, Parsed, Chunks, BySixteen;
    if Opener(control) && Closer(end) {
      FileAccepted(control, address, data, end);
      CutBySixteen(data);
      assert [] + Chunks(data) == Chunks(data);
    } else {
      FileRefused(control, address, data, end);
    }
  }

  // ---------- Volumes ----------

  /** A volume joins sixty-four chunks, the last perhaps fewer. */
  lemma {:induction false} VolumesBySixtyFour(blocks: seq<seq<byte>>)
    ensures |Volumes(blocks)| == (|blocks| + 63) / 64
    ensures forall i :: 0 <= i < |Volumes(blocks)| ==>
      Volumes(blocks)[i] == Flatten(blocks[64 * i..if 64 * i + 64 <= |blocks| then 64 * i + 64 else |blocks|])
  {
    hide Flatten;
    if |blocks| > 64 {
      var rest, volumes := blocks[64..], Volumes(blocks);
      VolumesBySixtyFour(rest);
      assert |volumes| == 1 + |Volumes(rest)|;
      forall i | 0 <= i < |volumes|
        ensures volumes[i] == Flatten(blocks[64 * i..if 64 * i + 64 <= |blocks| then 64 * i + 64 else |blocks|])
      {
        if i > 0 {
          var end, last := if 64 * i + 64 <= |blocks| then 64 * i + 64 else |blocks|, 64 * (i - 1);
          assert volumes[i] == Volumes(rest)[i - 1];
          assert rest[last..end - 64] == blocks[64 * i..end];
        }
      }
    } else {
      assert blocks[..|blocks|] == blocks;
    }
  }
}

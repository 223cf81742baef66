/** An Intel HEX file as a list of trimmed lines: which files are accepted, and the chunks of
    firmware they hold. */
module HexImage {
  import opened Protocol
  import opened IntelHex

  const DATA: byte := 0x00
  const EOF: byte := 0x01
  const CHUNK := 16

  // ---------- What the reader is for ----------

  // A record the reader understands: only data may carry any number of bytes at any address.
  predicate Understood(r: Record) {
    r.kind == DATA || (r.address == 0 && r.kind <= 5 && |r.data| == ControlSize(r.kind))
  }

  function ControlSize(kind: byte): nat {
    if kind == EOF then 0 else if kind == 2 || kind == 4 then 2 else 4
  }

  function Visible(lines: seq<string>): seq<string> {
    if lines == [] then []
    else
      var front, last := Visible(lines[..|lines| - 1]), lines[|lines| - 1];
      if last == "" then front else front + [last]
  }

  predicate Readable(line: string) { DecodeRecord(line).Some? && Understood(DecodeRecord(line).value) }

  predicate Ends(line: string) { DecodeRecord(line).Some? && DecodeRecord(line).value.kind == EOF }

  // The data bytes a line contributes.
  function Carries(line: string): seq<byte> {
    if DecodeRecord(line).Some? && DecodeRecord(line).value.kind == DATA then DecodeRecord(line).value.data else []
  }

  predicate AllReadable(lines: seq<string>) { forall i :: 0 <= i < |lines| ==> Readable(lines[i]) }

  predicate EndsNowhere(lines: seq<string>) { forall i :: 0 <= i < |lines| ==> !Ends(lines[i]) }

  /** An acceptable file: every line that is not blank is an understood record, the last of them and
      no other is the end-of-file record, and some data come before it. */
  predicate Acceptable(lines: seq<string>) {
    var v := Visible(lines);
    v != [] && AllReadable(v) && Ends(v[|v| - 1]) && EndsNowhere(v[..|v| - 1]) && Content(v) != []
  }

  function Content(lines: seq<string>): seq<byte> {
    if lines == [] then [] else Content(lines[..|lines| - 1]) + Carries(lines[|lines| - 1])
  }

  // A record's data cut every sixteen bytes.
  function Chunks(data: seq<byte>): seq<seq<byte>> {
    if data == [] then []
    else if |data| <= CHUNK then [data]
    else [data[..CHUNK]] + Chunks(data[CHUNK..])
  }

  function Blocks(lines: seq<string>): seq<seq<byte>> {
    if lines == [] then [] else Blocks(lines[..|lines| - 1]) + Chunks(Carries(lines[|lines| - 1]))
  }

  function Parsed(lines: seq<string>): seq<seq<byte>> {
    if Acceptable(lines) then Blocks(Visible(lines)) else []
  }

  // ---------- Facts about chunks ----------

  function Flatten<T>(blocks: seq<seq<T>>): seq<T> {
    if blocks == [] then [] else Flatten(blocks[..|blocks| - 1]) + blocks[|blocks| - 1]
  }

  lemma {:induction false} FlattenConcat<T>(xs: seq<seq<T>>, ys: seq<seq<T>>)
    ensures Flatten(xs + ys) == Flatten(xs) + Flatten(ys)
    decreases |ys|
  {
    if ys == [] {
      assert xs + ys == xs;
    } else {
      var front, last := ys[..|ys| - 1], ys[|ys| - 1];
      assert (xs + ys)[..|xs + ys| - 1] == xs + front;
      FlattenConcat(xs, front);
    }
  }

  lemma FlattenOne<T>(block: seq<T>)
    ensures Flatten([block]) == block
  {
    assert [block][..0] == [];
  }

  predicate Sized(blocks: seq<seq<byte>>) { forall i :: 0 <= i < |blocks| ==> 1 <= |blocks[i]| <= CHUNK }

  lemma {:induction false} ChunksKeepBytes(data: seq<byte>)
    ensures Flatten(Chunks(data)) == data
    ensures Sized(Chunks(data))
    ensures Chunks(data) == [] <==> data == []
  {
    if 0 < |data| <= CHUNK {
      FlattenOne(data);
    } else if data != [] {
      ChunksKeepBytes(data[CHUNK..]);
      FlattenConcat([data[..CHUNK]], Chunks(data[CHUNK..]));
      FlattenOne(data[..CHUNK]);
      assert data == data[..CHUNK] + data[CHUNK..];
    }
  }

  lemma {:induction false} BlocksKeepBytes(lines: seq<string>)
    ensures Flatten(Blocks(lines)) == Content(lines)
    ensures Sized(Blocks(lines))
    ensures Blocks(lines) == [] <==> Content(lines) == []
  {
    if lines != [] {
      var front, last := lines[..|lines| - 1], lines[|lines| - 1];
      BlocksKeepBytes(front);
      ChunksKeepBytes(Carries(last));
      FlattenConcat(Blocks(front), Chunks(Carries(last)));
    }
  }

  /** The chunks of an accepted file hold exactly its data bytes in file order, one to sixteen each;
      nothing comes out of any other file, so an empty result means rejection. */
  lemma ParsedKeepsBytes(lines: seq<string>)
    ensures Parsed(lines) != [] <==> Acceptable(lines)
    ensures Acceptable(lines) ==> Flatten(Parsed(lines)) == Content(Visible(lines))
    ensures Sized(Parsed(lines))
  {
    BlocksKeepBytes(Visible(lines));
  }

  // ---------- Printing a program and reading it back ----------

  predicate Printable(records: seq<Record>) { forall i :: 0 <= i < |records| ==> |records[i].data| <= 255 }

  predicate AllUnderstood(records: seq<Record>) { forall i :: 0 <= i < |records| ==> Understood(records[i]) }

  predicate EndsLast(records: seq<Record>) {
    records != [] && forall i :: 0 <= i < |records| ==> (records[i].kind == EOF <==> i == |records| - 1)
  }

  function DataOf(records: seq<Record>): seq<byte> {
    if records == [] then []
    else
      var r := records[|records| - 1];
      DataOf(records[..|records| - 1]) + (if r.kind == DATA then r.data else [])
  }

  function ChunksOf(records: seq<Record>): seq<seq<byte>> {
    if records == [] then []
    else
      var r := records[|records| - 1];
      ChunksOf(records[..|records| - 1]) + (if r.kind == DATA then Chunks(r.data) else [])
  }

  // The lines spell the records, in either case of the digits.
  predicate Spells(lines: seq<string>, records: seq<Record>) {
    |lines| == |records| && Printable(records)
    && forall i :: 0 <= i < |lines| ==> Uppers(lines[i]) == Print(records[i])
  }

  lemma SpelledLine(lines: seq<string>, records: seq<Record>, i: nat)
    requires Spells(lines, records) && i < |lines|
    ensures DecodeRecord(lines[i]) == Some(records[i])
  {
    ReadsExactlyPrints(lines[i], records[i]);
  }

  lemma {:induction false} SpelledContent(lines: seq<string>, records: seq<Record>)
    requires Spells(lines, records)
    ensures Content(lines) == DataOf(records)
    ensures Blocks(lines) == ChunksOf(records)
  {
    hide DecodeRecord;
    if lines != [] {
      SpelledContent(lines[..|lines| - 1], records[..|records| - 1]);
      SpelledLine(lines, records, |lines| - 1);
    }
  }

  /** Any list of understood records that ends in its only end-of-file record and holds some data
      comes back, however its lines are cased and wherever blank lines stand, as the chunks of its
      data records. */
  lemma PrintedProgramIsRead(lines: seq<string>, records: seq<Record>)
    requires Spells(Visible(lines), records)
    requires AllUnderstood(records) && EndsLast(records) && DataOf(records) != []
    ensures Acceptable(lines) && Parsed(lines) == ChunksOf(records)
    ensures Flatten(Parsed(lines)) == DataOf(records)
  {
    hide DecodeRecord;
    var v := Visible(lines);
    forall i | 0 <= i < |v| ensures Readable(v[i]) && (Ends(v[i]) <==> i == |v| - 1) {
      SpelledLine(v, records, i);
    }
    SpelledContent(v, records);
    BlocksKeepBytes(v);
  }

  /** And only those: the lines of an accepted file spell such a list of records. */
  lemma AcceptedIsPrinted(lines: seq<string>) returns (records: seq<Record>)
    requires Acceptable(lines)
    ensures Spells(Visible(lines), records)
    ensures AllUnderstood(records) && EndsLast(records) && DataOf(records) != []
  {
    hide DecodeRecord;
    var v := Visible(lines);
    records := seq(|v|, i requires 0 <= i < |v| => DecodeRecord(v[i]).value);
    forall i | 0 <= i < |v|
      ensures |records[i].data| <= 255 && Uppers(v[i]) == Print(records[i])
      ensures Understood(records[i]) && (records[i].kind == EOF <==> i == |v| - 1)
    {
      assert Readable(v[i]);
      ReadsExactlyPrints(v[i], records[i]);
      if i < |v| - 1 {
        assert !Ends(v[..|v| - 1][i]);
      }
    }
    SpelledContent(v, records);
  }

  // ---------- The reader ----------

  lemma VisibleSnoc(lines: seq<string>, i: nat)
    requires i < |lines|
    ensures Visible(lines[..i + 1]) == if lines[i] == "" then Visible(lines[..i]) else Visible(lines[..i]) + [lines[i]]
  {
    assert lines[..i + 1][..i] == lines[..i];
  }

  // What was visible so far stays a prefix of all that is visible.
  lemma {:induction false} VisiblePrefix(lines: seq<string>, i: nat)
    requires i <= |lines|
    ensures Visible(lines[..i]) <= Visible(lines)
    decreases |lines| - i
  {
    if i < |lines| {
      VisibleSnoc(lines, i);
      VisiblePrefix(lines, i + 1);
    } else {
      assert lines[..i] == lines;
    }
  }

  // One line that cannot be read spoils the file.
  lemma Spoiled(lines: seq<string>, i: nat)
    requires i < |lines| && lines[i] != "" && !Readable(lines[i])
    ensures !Acceptable(lines)
  {
    hide DecodeRecord;
    VisibleSnoc(lines, i);
    VisiblePrefix(lines, i + 1);
    var before, v := Visible(lines[..i]), Visible(lines);
    assert v[|before|] == lines[i];
  }

  // So does a line after the end-of-file record.
  lemma TooLate(lines: seq<string>, i: nat)
    requires i < |lines| && lines[i] != ""
    requires var before := Visible(lines[..i]); before != [] && Ends(before[|before| - 1])
    ensures !Acceptable(lines)
  {
    hide DecodeRecord;
    VisibleSnoc(lines, i);
    VisiblePrefix(lines, i + 1);
    var before, v := Visible(lines[..i]), Visible(lines);
    assert v[|before| - 1] == before[|before| - 1];
    assert Ends(v[..|v| - 1][|before| - 1]);
  }

  method RequireControlRecord(data: seq<byte>, expected: nat, address: Address) returns (ok: bool)
    ensures ok <==> address == 0 && |data| == expected
  {
    return address == 0 && |data| == expected;
  }

  // The blocks with a record's data appended in chunks.
  method AppendChunks(blocks: seq<seq<byte>>, data: seq<byte>) returns (appended: seq<seq<byte>>)
    ensures appended == blocks + Chunks(data)
  {
    appended := blocks;
    var offset := 0;
    while offset < |data|
      invariant 0 <= offset <= |data|
      invariant appended + Chunks(data[offset..]) == blocks + Chunks(data)
    {
      var size := if CHUNK <= |data| - offset then CHUNK else |data| - offset;
      NextChunk(data[offset..], size);
      assert data[offset..][size..] == data[offset + size..] && data[offset..][..size] == data[offset..offset + size];
      appended := appended + [data[offset..offset + size]];
      offset := offset + size;
    }
  }

  lemma NextChunk(data: seq<byte>, size: nat)
    requires data != [] && size == if CHUNK <= |data| then CHUNK else |data|
    ensures Chunks(data) == [data[..size]] + Chunks(data[size..])
  {
    if |data| <= CHUNK {
      assert data[..size] == data && data[size..] == [];
    }
  }

  // Reads one line that is not blank: what it adds, or that it spoils the file.
  method ReadLine(line: string, blocks: seq<seq<byte>>) returns (ok: bool, appended: seq<seq<byte>>, eof: bool)
    ensures ok <==> Readable(line)
    ensures ok ==> appended == blocks + Chunks(Carries(line)) && (eof <==> Ends(line))
  {
    hide DecodeRecord;
    appended, eof := blocks, false;
    var record := ParseHexRecord(line);
    if record.None? {
      ok := false;
      return;
    }
    var Record(address, kind, data) := record.value;
    match kind {
      case 0 =>
        ok := true;
        appended := AppendChunks(blocks, data);
      case 1 =>
        ok := RequireControlRecord(data, 0, address);
        eof := true;
      case 2 => ok := RequireControlRecord(data, 2, address);
      case 3 => ok := RequireControlRecord(data, 4, address);
      case 4 => ok := RequireControlRecord(data, 2, address);
      case 5 => ok := RequireControlRecord(data, 4, address);
      case _ => ok := false;
    }
  }

  // The state of the loop after the visible lines `v`.
  predicate Reached(v: seq<string>, blocks: seq<seq<byte>>, eofSeen: bool) {
    && AllReadable(v) && blocks == Blocks(v)
    && (if eofSeen then v != [] && Ends(v[|v| - 1]) && EndsNowhere(v[..|v| - 1]) else EndsNowhere(v))
  }

  lemma ReachedNext(v: seq<string>, line: string, blocks: seq<seq<byte>>, eof: bool)
    requires Reached(v, Blocks(v), false) && Readable(line)
    requires blocks == Blocks(v) + Chunks(Carries(line)) && (eof <==> Ends(line))
    ensures Reached(v + [line], blocks, eof)
  {
    hide DecodeRecord;
    var w := v + [line];
    assert w[..|w| - 1] == v;
  }

  lemma Verdict(lines: seq<string>, blocks: seq<seq<byte>>, eofSeen: bool)
    requires Reached(Visible(lines), blocks, eofSeen)
    ensures Parsed(lines) == if eofSeen && blocks != [] then blocks else []
  {
    var v := Visible(lines);
    BlocksKeepBytes(v);
    if v != [] && !eofSeen {
      assert !Ends(v[|v| - 1]);
    }
  }

  /** The reader accepts exactly the acceptable files. */
  method ParseHexToDataBlocks(lines: seq<string>) returns (blocks: seq<seq<byte>>)
    ensures blocks == Parsed(lines)
  {
    blocks := [];
    var eofSeen := false;
    for n := 0 to |lines|
      invariant Reached(Visible(lines[..n]), blocks, eofSeen)
    {
      VisibleSnoc(lines, n);
      if lines[n] != "" {
        if eofSeen {
          TooLate(lines, n);
          return [];
        }
        var ok, appended, eof := ReadLine(lines[n], blocks);
        if !ok {
          Spoiled(lines, n);
          return [];
        }
        ReachedNext(Visible(lines[..n]), lines[n], appended, eof);
        blocks, eofSeen := appended, eof;
      }
    }
    assert lines[..|lines|] == lines;
    Verdict(lines, blocks, eofSeen);
    if !eofSeen {
      return [];
    }
  }
}

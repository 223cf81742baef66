/** One record of an Intel HEX file: the text form, the bytes behind it and the checksum. */
module IntelHex {
  import opened Protocol

  datatype Record = Record(address: Address, kind: byte, data: seq<byte>)

  // ---------- Digits ----------

  function HexValue(c: char): (v: Option<byte>)
    ensures v.Some? ==> v.value <= 15
  {
    match c
    case '0' => Some(0)
    case '1' => Some(1)
    case '2' => Some(2)
    case '3' => Some(3)
    case '4' => Some(4)
    case '5' => Some(5)
    case '6' => Some(6)
    case '7' => Some(7)
    case '8' => Some(8)
    case '9' => Some(9)
    case 'A' => Some(10)
    case 'B' => Some(11)
    case 'C' => Some(12)
    case 'D' => Some(13)
    case 'E' => Some(14)
    case 'F' => Some(15)
    case _ => LowerValue(c)
  }

  function LowerValue(c: char): (v: Option<byte>)
    ensures v.Some? ==> v.value <= 15
  {
    match c
    case 'a' => Some(10)
    case 'b' => Some(11)
    case 'c' => Some(12)
    case 'd' => Some(13)
    case 'e' => Some(14)
    case 'f' => Some(15)
    case _ => None
  }

  function HexDigit(v: byte): char {
    if v == 0 then '0' else if v == 1 then '1' else if v == 2 then '2' else if v == 3 then '3'
    else if v == 4 then '4' else if v == 5 then '5' else if v == 6 then '6' else if v == 7 then '7'
    else if v == 8 then '8' else if v == 9 then '9' else if v == 10 then 'A' else if v == 11 then 'B'
    else if v == 12 then 'C' else if v == 13 then 'D' else if v == 14 then 'E' else 'F'
  }

  // The upper-case form of a hexadecimal digit; every other character is left alone.
  function Upper(c: char): char {
    match c
    case 'a' => 'A'
    case 'b' => 'B'
    case 'c' => 'C'
    case 'd' => 'D'
    case 'e' => 'E'
    case 'f' => 'F'
    case _ => c
  }

  lemma DigitOfValue(c: char, v: byte)
    ensures HexValue(c) == Some(v) ==> v <= 15 && HexDigit(v) == Upper(c)
  {
  }

  lemma ValueOfDigit(c: char, v: byte)
    requires v <= 15 && HexDigit(v) == Upper(c)
    ensures HexValue(c) == Some(v)
  {
  }

  // ---------- Bytes behind the text ----------

  predicate AllHex(hex: string) { forall i :: 0 <= i < |hex| ==> HexValue(hex[i]).Some? }

  function Join(hi: byte, lo: byte): byte
    requires hi <= 15 && lo <= 15
  {
    hi * 16 + lo
  }

  function Bytes(hex: string): (bytes: seq<byte>)
    requires AllHex(hex)
  {
    seq(|hex| / 2, i requires 0 <= i < |hex| / 2 => Join(HexValue(hex[2 * i]).value, HexValue(hex[2 * i + 1]).value))
  }

  function Nibble(bytes: seq<byte>, i: nat): byte
    requires i < 2 * |bytes|
  {
    if i % 2 == 0 then bytes[i / 2] / 16 else bytes[i / 2] % 16
  }

  function Text(bytes: seq<byte>): string {
    seq(2 * |bytes|, i requires 0 <= i < 2 * |bytes| => HexDigit(Nibble(bytes, i)))
  }

  function Uppers(s: string): string { seq(|s|, i requires 0 <= i < |s| => Upper(s[i])) }

  function Sum(bytes: seq<byte>): nat {
    if bytes == [] then 0 else Sum(bytes[..|bytes| - 1]) + bytes[|bytes| - 1] as int
  }

  // The wrap of a quint8.
  function Low8(n: nat): byte { n % 0x100 }

  // The byte that brings a sum to zero.
  function Balance(n: nat): byte { Low8(0x100 - Low8(n)) }

  // ---------- Reading and writing a record ----------

  predicate Intact(bytes: seq<byte>) { |bytes| >= 5 && |bytes| == (bytes[0] as int) + 5 && Low8(Sum(bytes)) == 0 }

  function DecodeRecord(line: string): Option<Record> {
    if line == "" || line[0] != ':' then None
    else
      var hex := line[1..];
      if |hex| < 10 || |hex| % 2 != 0 || !AllHex(hex) then None
      else
        var bytes := Bytes(hex);
        if !Intact(bytes) then None
        else Some(Record(Word(bytes[1], bytes[2]), bytes[3], bytes[4..|bytes| - 1]))
  }

  function Body(r: Record): seq<byte>
    requires |r.data| <= 255
  {
    [|r.data|, r.address / 256, r.address % 256, r.kind] + r.data
  }

  // Count, address, type and data, then the byte that brings the sum to zero.
  function Encode(r: Record): seq<byte>
    requires |r.data| <= 255
  {
    Body(r) + [Balance(Sum(Body(r)))]
  }

  function Print(r: Record): string
    requires |r.data| <= 255
  {
    ":" + Text(Encode(r))
  }

  // ---------- The text and the bytes determine each other, up to case ----------

  lemma TextAt(hex: string, j: nat)
    requires |hex| % 2 == 0 && AllHex(hex) && j < |hex| / 2
    ensures Text(Bytes(hex))[2 * j] == Upper(hex[2 * j]) && Text(Bytes(hex))[2 * j + 1] == Upper(hex[2 * j + 1])
  {
    var hi, lo := HexValue(hex[2 * j]).value, HexValue(hex[2 * j + 1]).value;
    assert Bytes(hex)[j] == Join(hi, lo);
    assert Nibble(Bytes(hex), 2 * j) == hi && Nibble(Bytes(hex), 2 * j + 1) == lo;
    DigitOfValue(hex[2 * j], hi);
    DigitOfValue(hex[2 * j + 1], lo);
  }

  lemma TextAtEach(hex: string, i: nat)
    requires |hex| % 2 == 0 && AllHex(hex) && i < |hex|
    ensures Text(Bytes(hex))[i] == Upper(hex[i])
  {
    TextAt(hex, i / 2);
    assert i == 2 * (i / 2) || i == 2 * (i / 2) + 1;
  }

  lemma TextOfBytes(hex: string)
    requires |hex| % 2 == 0 && AllHex(hex)
    ensures Text(Bytes(hex)) == Uppers(hex)
  {
    assert |Text(Bytes(hex))| == |hex|;
    forall i | 0 <= i < |hex| ensures Text(Bytes(hex))[i] == Uppers(hex)[i] {
      TextAtEach(hex, i);
    }
  }

  lemma BytesOfText(hex: string, bytes: seq<byte>)
    requires Uppers(hex) == Text(bytes)
    ensures AllHex(hex) && |hex| == 2 * |bytes| && Bytes(hex) == bytes
  {
    assert |Uppers(hex)| == |hex| && |Text(bytes)| == 2 * |bytes|;
    forall i | 0 <= i < |hex| ensures HexValue(hex[i]) == Some(Nibble(bytes, i)) {
      assert Uppers(hex)[i] == Text(bytes)[i];
      ValueOfDigit(hex[i], Nibble(bytes, i));
    }
    forall j | 0 <= j < |bytes| ensures Bytes(hex)[j] == bytes[j] {
      assert HexValue(hex[2 * j]) == Some(Nibble(bytes, 2 * j));
      assert HexValue(hex[2 * j + 1]) == Some(Nibble(bytes, 2 * j + 1));
    }
  }

  // ---------- The bytes and the record determine each other ----------

  lemma SumSnoc(bytes: seq<byte>, b: byte)
    ensures Sum(bytes + [b]) == Sum(bytes) + b
  {
    assert (bytes + [b])[..|bytes|] == bytes;
  }

  lemma Carry(n: nat, b: byte)
    ensures Low8(Low8(n) + b) == Low8(n + b)
  {
  }

  lemma Complement(n: nat, b: byte)
    ensures Low8(n + b) == 0 <==> b == Balance(n)
  {
  }

  lemma EncodeIntact(r: Record)
    requires |r.data| <= 255
    ensures var bytes := Encode(r);
      Intact(bytes) && Record(Word(bytes[1], bytes[2]), bytes[3], bytes[4..|bytes| - 1]) == r
  {
    SumSnoc(Body(r), Balance(Sum(Body(r))));
    Complement(Sum(Body(r)), Balance(Sum(Body(r))));
    assert Encode(r)[4..|Encode(r)| - 1] == r.data;
  }

  lemma WordSplit(hi: byte, lo: byte)
    ensures Word(hi, lo) / 256 == hi && Word(hi, lo) % 256 == lo
  {
  }

  lemma BodyOf(bytes: seq<byte>, r: Record)
    requires Intact(bytes) && r == Record(Word(bytes[1], bytes[2]), bytes[3], bytes[4..|bytes| - 1])
    ensures |r.data| <= 255 && Body(r) == bytes[..|bytes| - 1]
  {
    WordSplit(bytes[1], bytes[2]);
  }

  lemma IntactEncodes(bytes: seq<byte>, r: Record)
    requires Intact(bytes) && r == Record(Word(bytes[1], bytes[2]), bytes[3], bytes[4..|bytes| - 1])
    ensures |r.data| <= 255 && Encode(r) == bytes
  {
    BodyOf(bytes, r);
    var body, last := bytes[..|bytes| - 1], bytes[|bytes| - 1];
    assert bytes == body + [last];
    SumSnoc(body, last);
    Complement(Sum(body), last);
  }

  lemma ReadIsPrinted(line: string, r: Record)
    requires DecodeRecord(line) == Some(r)
    ensures |r.data| <= 255 && Uppers(line) == Print(r)
  {
    IntactEncodes(Bytes(line[1..]), r);
    TextOfBytes(line[1..]);
    UppersTail(line);
  }

  lemma PrintedIsRead(line: string, r: Record)
    requires |r.data| <= 255 && Uppers(line) == Print(r)
    ensures DecodeRecord(line) == Some(r)
  {
    var hex := line[1..];
    UppersTail(line);
    assert Print(r)[0] == ':' && Print(r)[1..] == Text(Encode(r));
    assert Upper(line[0]) == ':' && Uppers(hex) == Text(Encode(r));
    BytesOfText(hex, Encode(r));
    EncodeIntact(r);
  }

  /** A line is read as a record exactly when, up to the case of its digits, it is the printed
      form of that record. */
  lemma ReadsExactlyPrints(line: string, r: Record)
    ensures DecodeRecord(line) == Some(r) <==> |r.data| <= 255 && Uppers(line) == Print(r)
  {
    if DecodeRecord(line) == Some(r) {
      ReadIsPrinted(line, r);
    }
    if |r.data| <= 255 && Uppers(line) == Print(r) {
      PrintedIsRead(line, r);
    }
  }

  lemma UppersTail(line: string)
    requires line != ""
    ensures Uppers(line) == [Upper(line[0])] + Uppers(line[1..])
  {
  }

  // ---------- The checksum notices every single change ----------

  lemma {:induction false} SumUpdate(bytes: seq<byte>, k: nat, b: byte)
    requires k < |bytes|
    ensures Sum(bytes[k := b]) == Sum(bytes) - bytes[k] + b
  {
    var n := |bytes| - 1;
    if k == n {
      assert bytes[k := b][..n] == bytes[..n];
    } else {
      assert bytes[k := b][..n] == bytes[..n][k := b];
      SumUpdate(bytes[..n], k, b);
    }
  }

  /** Changing one byte of an intact record, whichever it is, makes it fail. */
  lemma OneByteDetected(bytes: seq<byte>, k: nat, b: byte)
    requires Intact(bytes) && k < |bytes| && b != bytes[k]
    ensures !Intact(bytes[k := b])
  {
    SumUpdate(bytes, k, b);
    SumAtLeast(bytes, k);
    Unbalanced(Sum(bytes), bytes[k], b);
  }

  lemma {:induction false} SumAtLeast(bytes: seq<byte>, k: nat)
    requires k < |bytes|
    ensures bytes[k] <= Sum(bytes)
  {
    if k < |bytes| - 1 {
      SumAtLeast(bytes[..|bytes| - 1], k);
    }
  }

  lemma Unbalanced(n: nat, x: byte, b: byte)
    requires Low8(n) == 0 && x != b && x <= n
    ensures Low8(n - x + b) != 0
  {
  }

  // Replacing one digit replaces one byte, by a different one if the digit's value differs.
  lemma BytesUpdate(hex: string, k: nat, c: char) returns (b: byte)
    requires AllHex(hex) && |hex| % 2 == 0 && k < |hex| && HexValue(c).Some?
    ensures AllHex(hex[k := c]) && Bytes(hex[k := c]) == Bytes(hex)[k / 2 := b]
    ensures b == Bytes(hex)[k / 2] <==> HexValue(c) == HexValue(hex[k])
  {
    var j, h := k / 2, hex[k := c];
    assert AllHex(h);
    b := Bytes(h)[j];
    forall i | 0 <= i < |hex| / 2 && i != j ensures Bytes(h)[i] == Bytes(hex)[i] {
      assert h[2 * i] == hex[2 * i] && h[2 * i + 1] == hex[2 * i + 1];
    }
    assert Bytes(h) == Bytes(hex)[j := b];
  }

  /** Changing one character of a valid line leaves it valid only if the colon stays a colon and
      the digit keeps its value, which only a change of case does; and then the record is the same. */
  lemma OneCharacterDetected(line: string, k: nat, c: char)
    requires DecodeRecord(line).Some? && k < |line|
    ensures DecodeRecord(line[k := c]).Some? <==> Upper(c) == Upper(line[k])
    ensures Upper(c) == Upper(line[k]) ==> DecodeRecord(line[k := c]) == DecodeRecord(line)
  {
    var line' := line[k := c];
    if Upper(c) == Upper(line[k]) {
      var r := DecodeRecord(line).value;
      assert Uppers(line') == Uppers(line);
      ReadsExactlyPrints(line, r);
      ReadsExactlyPrints(line', r);
    } else if k > 0 && HexValue(c).Some? {
      var hex := line[1..];
      assert line'[1..] == hex[k - 1 := c];
      var b := BytesUpdate(hex, k - 1, c);
      if HexValue(c) == HexValue(hex[k - 1]) {
        SameValueSameCase(c, hex[k - 1]);
      }
      OneByteDetected(Bytes(hex), (k - 1) / 2, b);
    } else if k > 0 {
      assert line'[1..][k - 1] == c;
    } else {
      assert Upper(':') == ':';
    }
  }

  lemma SameValueSameCase(c: char, d: char)
    requires HexValue(c).Some? && HexValue(c) == HexValue(d)
    ensures Upper(c) == Upper(d)
  {
    DigitOfValue(c, HexValue(c).value);
    DigitOfValue(d, HexValue(d).value);
  }

  // ---------- The reader ----------

  method RunningChecksum(bytes: seq<byte>) returns (checksum: byte)
    ensures checksum == Low8(Sum(bytes))
  {
    checksum := 0;
    for i := 0 to |bytes|
      invariant checksum == Low8(Sum(bytes[..i]))
    {
      assert bytes[..i + 1] == bytes[..i] + [bytes[i]];
      SumSnoc(bytes[..i], bytes[i]);
      Carry(Sum(bytes[..i]), bytes[i]);
      checksum := Low8(checksum as int + bytes[i] as int);
    }
    assert bytes[..|bytes|] == bytes;
  }

  method ParseHexRecord(line: string) returns (record: Option<Record>)
    ensures record == DecodeRecord(line)
  {
    hide HexValue;
    if line == "" || line[0] != ':' {
      return None;
    }
    var hex := line[1..];
    if |hex| < 10 || |hex| % 2 != 0 {
      return None;
    }
    if !AllHex(hex) {
      return None;
    }
    var bytes := Bytes(hex);
    var count := bytes[0] as int;
    if |bytes| != count + 5 {
      return None;
    }
    var checksum := RunningChecksum(bytes);
    if checksum != 0 {
      return None;
    }
    return Some(Record(Word(bytes[1], bytes[2]), bytes[3], bytes[4..4 + count]));
  }
}

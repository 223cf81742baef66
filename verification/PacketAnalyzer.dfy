/** Comparing the packets sent with the packets received, one by one in order. */
module PacketAnalyzer {
  import opened Protocol
  import opened BitDistance

  datatype PacketInfo = PacketInfo(packet: DataPacket, sequenceNumber: nat)

  /** What is reported of one position; no received packet means lost, no sent packet means extra. */
  datatype Detail = Detail(index: nat, isLost: bool, bitErrors: nat, sent: Option<DataPacket>, received: Option<DataPacket>)

  datatype AnalysisResult = AnalysisResult(
    ber: real, packetLossRate: real,
    totalSent: nat, totalReceived: nat, validPackets: nat, lostPackets: nat, bitErrors: nat, totalBitsCompared: nat,
    lostPacketIndices: seq<nat>, bitErrorIndices: seq<nat>, errorDetails: seq<Detail>)

  // ---------- The figures ----------

  function Least(x: nat, y: nat): nat { if x <= y then x else y }

  function Most(x: nat, y: nat): nat { if x <= y then y else x }

  // Over the first n positions of both.
  function Errors(sent: seq<DataPacket>, received: seq<DataPacket>, n: nat): nat
    requires n <= |sent| && n <= |received|
  {
    if n == 0 then 0 else Errors(sent, received, n - 1) + Distance(sent[n - 1], received[n - 1])
  }

  function Equal(sent: seq<DataPacket>, received: seq<DataPacket>, n: nat): nat
    requires n <= |sent| && n <= |received|
  {
    if n == 0 then 0 else Equal(sent, received, n - 1) + (if Distance(sent[n - 1], received[n - 1]) == 0 then 1 else 0)
  }

  function Spoiled(sent: seq<DataPacket>, received: seq<DataPacket>, n: nat): seq<nat>
    requires n <= |sent| && n <= |received|
  {
    if n == 0 then [] else Spoiled(sent, received, n - 1) + (if Distance(sent[n - 1], received[n - 1]) == 0 then [] else [n - 1])
  }

  function DetailAt(sent: seq<DataPacket>, received: seq<DataPacket>, i: nat): Detail
    requires i < |sent| || i < |received|
  {
    if i >= |received| then Detail(i, true, 0, Some(sent[i]), None)
    else if i >= |sent| then Detail(i, false, 0, None, Some(received[i]))
    else Detail(i, false, Distance(sent[i], received[i]), Some(sent[i]), Some(received[i]))
  }

  function Details(sent: seq<DataPacket>, received: seq<DataPacket>, n: nat): seq<Detail>
    requires n <= |sent| || n <= |received|
  {
    seq(n, i requires 0 <= i < n => DetailAt(sent, received, i))
  }

  function Interval(from: nat, to: nat): seq<nat>
    requires from <= to
  {
    seq(to - from, i requires 0 <= i < to - from => from + i)
  }

  function Common(sent: seq<DataPacket>, received: seq<DataPacket>): nat { Least(|sent|, |received|) }

  function Ratio(part: nat, whole: nat): real { if whole == 0 then 0.0 else part as real / whole as real }

  function Analysis(sent: seq<DataPacket>, received: seq<DataPacket>): AnalysisResult {
    var n := Common(sent, received);
    AnalysisResult(
      Ratio(Errors(sent, received, n), 16 * n), Ratio(|sent| - n, |sent|),
      |sent|, |received|, Equal(sent, received, n), |sent| - n, Errors(sent, received, n), 16 * n,
      Interval(n, |sent|), Spoiled(sent, received, n), Details(sent, received, Most(|sent|, |received|)))
  }

  // ---------- What the figures mean ----------

  lemma {:induction false} ErrorsBound(sent: seq<DataPacket>, received: seq<DataPacket>, n: nat)
    requires n <= |sent| && n <= |received|
    ensures Errors(sent, received, n) <= 16 * n
    ensures Errors(sent, received, n) == 0 <==> sent[..n] == received[..n]
    ensures Equal(sent, received, n) + |Spoiled(sent, received, n)| == n
  {
    hide Distance;
    if n > 0 {
      ErrorsBound(sent, received, n - 1);
      DistanceIsMetric(sent[n - 1], received[n - 1], received[n - 1]);
      assert sent[..n] == sent[..n - 1] + [sent[n - 1]] && received[..n] == received[..n - 1] + [received[n - 1]];
    }
  }

  lemma {:induction false} SpoiledExact(sent: seq<DataPacket>, received: seq<DataPacket>, n: nat)
    requires n <= |sent| && n <= |received|
    ensures forall k: nat :: k in Spoiled(sent, received, n) <==> k < n && sent[k] != received[k]
  {
    hide Distance;
    if n > 0 {
      SpoiledExact(sent, received, n - 1);
      DistanceIsMetric(sent[n - 1], received[n - 1], received[n - 1]);
      assert n - 1 in Spoiled(sent, received, n) <==> sent[n - 1] != received[n - 1];
    }
  }

  /** Every sent packet is counted once, as valid, spoiled or lost; the spoiled ones are exactly those
      that arrived changed. */
  lemma EveryPacketCounted(sent: seq<DataPacket>, received: seq<DataPacket>)
    ensures var r := Analysis(sent, received);
      && r.totalSent == |sent| && r.totalReceived == |received|
      && r.validPackets + |r.bitErrorIndices| + r.lostPackets == |sent|
      && |r.lostPacketIndices| == r.lostPackets
      && (forall k: nat :: k in r.bitErrorIndices <==> k < Common(sent, received) && sent[k] != received[k])
      && (forall k: nat :: k in r.lostPacketIndices <==> |received| <= k < |sent|)
  {
    hide Errors, Equal, Spoiled, Details, Ratio;
    var n := Common(sent, received);
    ErrorsBound(sent, received, n);
    SpoiledExact(sent, received, n);
    IntervalHolds(n, |sent|);
  }

  lemma IntervalHolds(from: nat, to: nat)
    requires from <= to
    ensures forall k: nat :: k in Interval(from, to) <==> from <= k < to
  {
    forall k | from <= k < to ensures k in Interval(from, to) {
      assert Interval(from, to)[k - from] == k;
    }
  }

  /** The error count is the Hamming distance of what both sides have: zero exactly when they agree,
      at most sixteen a packet, so the error rate is a fraction of the bits compared; the loss rate is
      the fraction of the packets sent that did not arrive. */
  lemma ErrorsMeanDistance(sent: seq<DataPacket>, received: seq<DataPacket>)
    ensures var r := Analysis(sent, received); var n := Common(sent, received);
      && r.bitErrors <= r.totalBitsCompared == 16 * n && 0.0 <= r.ber <= 1.0
      && r.ber * r.totalBitsCompared as real == r.bitErrors as real
      && 0.0 <= r.packetLossRate <= 1.0 && r.packetLossRate * |sent| as real == (|sent| - n) as real
      && (r.bitErrors == 0 <==> sent[..n] == received[..n])
      && (r.ber == 0.0 <==> sent[..n] == received[..n])
  {
    hide Equal, Spoiled, Details, Distance, Interval, Errors;
    var n := Common(sent, received);
    ErrorsBound(sent, received, n);
    RatioBound(Errors(sent, received, n), 16 * n);
    RatioBound(|sent| - n, |sent|);
  }

  lemma RatioBound(part: nat, whole: nat)
    requires part <= whole
    ensures 0.0 <= Ratio(part, whole) <= 1.0
    ensures Ratio(part, whole) == 0.0 <==> part == 0
    ensures Ratio(part, whole) * whole as real == part as real
  {
  }

  /** Bit errors add up over consecutive stretches of a transmission. */
  lemma {:induction false} ErrorsAddUp(s1: seq<DataPacket>, r1: seq<DataPacket>, s2: seq<DataPacket>, r2: seq<DataPacket>, n: nat)
    requires |s1| == |r1| && n <= |s2| && n <= |r2|
    ensures Errors(s1 + s2, r1 + r2, |s1| + n) == Errors(s1, r1, |s1|) + Errors(s2, r2, n)
    decreases n
  {
    hide Distance;
    if n == 0 {
      ErrorsPrefix(s1, r1, s2, r2, |s1|);
    } else {
      ErrorsAddUp(s1, r1, s2, r2, n - 1);
      assert (s1 + s2)[|s1| + n - 1] == s2[n - 1] && (r1 + r2)[|r1| + n - 1] == r2[n - 1];
    }
  }

  lemma {:induction false} ErrorsPrefix(s1: seq<DataPacket>, r1: seq<DataPacket>, s2: seq<DataPacket>, r2: seq<DataPacket>, n: nat)
    requires n <= |s1| == |r1|
    ensures Errors(s1 + s2, r1 + r2, n) == Errors(s1, r1, n)
  {
    hide Distance;
    if n > 0 {
      ErrorsPrefix(s1, r1, s2, r2, n - 1);
    }
  }

  lemma AnalysesAddUp(s1: seq<DataPacket>, r1: seq<DataPacket>, s2: seq<DataPacket>, r2: seq<DataPacket>)
    requires |s1| == |r1|
    ensures Analysis(s1 + s2, r1 + r2).bitErrors == Analysis(s1, r1).bitErrors + Analysis(s2, r2).bitErrors
  {
    hide Errors, Details, Ratio, Equal, Spoiled, Interval;
    ErrorsAddUp(s1, r1, s2, r2, Common(s2, r2));
  }

  /** The report has one detail for each position either side has, in order. */
  lemma DetailsCoverAll(sent: seq<DataPacket>, received: seq<DataPacket>)
    ensures var details := Analysis(sent, received).errorDetails;
      && |details| == Most(|sent|, |received|)
      && forall i :: 0 <= i < |details| ==>
        && details[i].index == i && (details[i].isLost <==> |received| <= i)
        && details[i].sent == (if i < |sent| then Some(sent[i]) else None)
        && details[i].received == (if i < |received| then Some(received[i]) else None)
        && (details[i].bitErrors == 0 <==> i >= |sent| || i >= |received| || sent[i] == received[i])
  {
    hide Errors, Equal, Spoiled, Interval, Ratio, Distance;
    forall i | 0 <= i < Common(sent, received) ensures Distance(sent[i], received[i]) == 0 <==> sent[i] == received[i] {
      DistanceIsMetric(sent[i], received[i], received[i]);
    }
  }

  // ---------- The analyzer ----------

  function Packets(infos: seq<PacketInfo>): seq<DataPacket> { seq(|infos|, i requires 0 <= i < |infos| => infos[i].packet) }

  predicate Numbered(infos: seq<PacketInfo>) { forall i :: 0 <= i < |infos| ==> infos[i].sequenceNumber == i }

  method Append(infos: seq<PacketInfo>, packets: seq<DataPacket>, counter: nat) returns (appended: seq<PacketInfo>, next: nat)
    requires Numbered(infos) && counter == |infos|
    ensures Numbered(appended) && next == |appended| && Packets(appended) == Packets(infos) + packets
  {
    appended, next := infos, counter;
    for i := 0 to |packets|
      invariant next == |appended| == |infos| + i && Numbered(appended)
      invariant Packets(appended) == Packets(infos) + packets[..i]
    {
      assert packets[..i + 1] == packets[..i] + [packets[i]];
      var info := PacketInfo(packets[i], next);
      assert Packets(appended + [info]) == Packets(appended) + [packets[i]];
      appended, next := appended + [info], next + 1;
    }
    assert packets[..|packets|] == packets;
  }

  class Analyzer {
    var sentPackets: seq<PacketInfo>
    var receivedPackets: seq<PacketInfo>
    var sentSequenceCounter: nat
    var receivedSequenceCounter: nat

    predicate Valid()
      reads this
    {
      && Numbered(sentPackets) && sentSequenceCounter == |sentPackets|
      && Numbered(receivedPackets) && receivedSequenceCounter == |receivedPackets|
    }

    function Sent(): seq<DataPacket>
      reads this
    {
      Packets(sentPackets)
    }

    function Received(): seq<DataPacket>
      reads this
    {
      Packets(receivedPackets)
    }

    constructor ()
      ensures Valid() && Sent() == [] && Received() == []
    {
      sentPackets, receivedPackets, sentSequenceCounter, receivedSequenceCounter := [], [], 0, 0;
    }

    method AddSentPackets(packets: seq<DataPacket>)
      requires Valid()
      modifies this
      ensures Valid() && Sent() == old(Sent()) + packets && Received() == old(Received())
    {
      sentPackets, sentSequenceCounter := Append(sentPackets, packets, sentSequenceCounter);
    }

    method AddReceivedPackets(packets: seq<DataPacket>)
      requires Valid()
      modifies this
      ensures Valid() && Received() == old(Received()) + packets && Sent() == old(Sent())
    {
      receivedPackets, receivedSequenceCounter := Append(receivedPackets, packets, receivedSequenceCounter);
    }

    method Clear()
      modifies this
      ensures Valid() && Sent() == [] && Received() == []
    {
      sentPackets, receivedPackets, sentSequenceCounter, receivedSequenceCounter := [], [], 0, 0;
    }

    method Analyze() returns (result: AnalysisResult)
      requires Valid()
      ensures result == Analysis(Sent(), Received())
    {
      result := AnalyzePackets(Sent(), Received());
    }

    method AnalyzeFresh(sent: seq<DataPacket>, received: seq<DataPacket>) returns (result: AnalysisResult)
      modifies this
      ensures Valid() && Sent() == sent && Received() == received
      ensures result == Analysis(sent, received)
    {
      Clear();
      AddSentPackets(sent);
      AddReceivedPackets(received);
      assert [] + sent == sent && [] + received == received;
      result := Analyze();
    }
  }

  // The positions both sides have: valid count, bit errors, their indices and the details.
  method ComparePackets(sent: seq<DataPacket>, received: seq<DataPacket>)
    returns (valid: nat, errors: nat, bits: nat, indices: seq<nat>, details: seq<Detail>)
    ensures var n := Common(sent, received);
      && valid == Equal(sent, received, n) && errors == Errors(sent, received, n) && bits == 16 * n
      && indices == Spoiled(sent, received, n) && details == Details(sent, received, n)
  {
    hide Distance;
    valid, errors, bits, indices, details := 0, 0, 0, [], [];
    for i := 0 to Common(sent, received)
      invariant valid == Equal(sent, received, i) && errors == Errors(sent, received, i) && bits == 16 * i
      invariant indices == Spoiled(sent, received, i) && details == Details(sent, received, i)
    {
      var bitErrors := CountBitErrors(sent[i], received[i]);
      if bitErrors == 0 {
        valid := valid + 1;
      } else {
        errors := errors + bitErrors;
        indices := indices + [i];
      }
      bits := bits + 16;
      details := details + [Detail(i, false, bitErrors, Some(sent[i]), Some(received[i]))];
    }
  }

  // The positions only one side has, appended to the details of the common ones.
  method AppendRest(sent: seq<DataPacket>, received: seq<DataPacket>, details: seq<Detail>)
    returns (lost: seq<nat>, all: seq<Detail>)
    requires details == Details(sent, received, Common(sent, received))
    ensures lost == Interval(Common(sent, received), |sent|)
    ensures all == Details(sent, received, Most(|sent|, |received|))
  {
    hide Distance;
    var n := Common(sent, received);
    lost, all := [], details;
    if |sent| > |received| {
      for i := n to |sent|
        invariant lost == Interval(n, i) && all == Details(sent, received, i)
      {
        lost := lost + [i];
        all := all + [Detail(i, true, 0, Some(sent[i]), None)];
      }
    }
    if |received| > |sent| {
      for i := n to |received|
        invariant all == Details(sent, received, i)
      {
        all := all + [Detail(i, false, 0, None, Some(received[i]))];
      }
    }
  }

  method AnalyzePackets(sent: seq<DataPacket>, received: seq<DataPacket>) returns (result: AnalysisResult)
    ensures result == Analysis(sent, received)
  {
    hide Errors, Equal, Spoiled, Details, Interval;
    var valid, errors, bits, indices, details := ComparePackets(sent, received);
    var lost, all := AppendRest(sent, received, details);
    var lostPackets := if |sent| > |received| then |sent| - |received| else 0;
    var ber, lossRate := 0.0, 0.0;
    if |sent| > 0 {
      lossRate := lostPackets as real / |sent| as real;
      if bits > 0 {
        ber := errors as real / bits as real;
      }
    }
    result := AnalysisResult(ber, lossRate, |sent|, |received|, valid, lostPackets, errors, bits, lost, indices, all);
  }
}

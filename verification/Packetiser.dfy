/**
 * One channel of the receiver's output as a value: blocks of 72 samples and
 * control bytes go in, datagrams of 720 come out once the channel's clock has
 * been initialised.
 */
module Packetiser {
  import opened Constants
  import opened Packets

  const NO_RSSI := 1024

  /** One received block: 72 control bytes and samples, its power reading, and the latch as it ends. */
  datatype BlockIn = BlockIn(controls: seq<Byte>, samples: seq<Int16>, rssi: Word, initialized: bool)

  datatype Stream = Stream(controls: seq<Byte>, samples: seq<Int16>, rssi: Word, sent: seq<seq<Byte>>)

  const EMPTY_STREAM := Stream([], [], NO_RSSI, [])

  function Push(s: Stream, b: BlockIn): Stream {
    s.(controls := s.controls + b.controls, samples := s.samples + b.samples,
    rssi := if b.rssi < s.rssi then b.rssi else s.rssi)
  }

  /** A full buffer is sent, or thrown away while the latch is open, and the RSSI starts over. */
  function Flush(s: Stream, initialized: bool): Stream {
    if |s.samples| < SAMPLES_PER_SLOT || |s.controls| < SAMPLES_PER_SLOT then s else
    var packet := Packet(s.controls[..SAMPLES_PER_SLOT], s.samples[..SAMPLES_PER_SLOT]);
    Stream(s.controls[SAMPLES_PER_SLOT..], s.samples[SAMPLES_PER_SLOT..], NO_RSSI,
           if initialized then s.sent + [Encode(s.rssi, packet)] else s.sent)
  }

  function Receive(s: Stream, b: BlockIn): Stream { Flush(Push(s, b), b.initialized) }

  function RunBlocks(bs: seq<BlockIn>): Stream {
    if bs == [] then EMPTY_STREAM else Receive(RunBlocks(bs[..|bs| - 1]), bs[|bs| - 1])
  }

  // ---------- The reference: cut the whole stream into tens of blocks ----------

  function AllControls(bs: seq<BlockIn>): seq<Byte> {
    if bs == [] then [] else AllControls(bs[..|bs| - 1]) + bs[|bs| - 1].controls
  }

  function AllSamples(bs: seq<BlockIn>): seq<Int16> {
    if bs == [] then [] else AllSamples(bs[..|bs| - 1]) + bs[|bs| - 1].samples
  }

  /** The strongest reading: the least of 1024 and the blocks' values. */
  function LeastRssi(bs: seq<BlockIn>): Word {
    if bs == [] then NO_RSSI else
    var rest, last := LeastRssi(bs[..|bs| - 1]), bs[|bs| - 1].rssi;
    if last < rest then last else rest
  }

  /** The k-th ten of blocks as one datagram. */
  function PacketAt(bs: seq<BlockIn>, k: nat): seq<Byte>
    requires 10 * k + 10 <= |bs|
  {
    var ten := bs[10 * k..10 * k + 10];
    Encode(LeastRssi(ten), Packet(AllControls(ten), AllSamples(ten)))
  }

  /** The datagrams of the first k tens, leaving out those that ended before the latch closed. */
  function Datagrams(bs: seq<BlockIn>, k: nat): seq<seq<Byte>>
    requires 10 * k <= |bs|
  {
    if k == 0 then [] else
    Datagrams(bs, k - 1) + if bs[10 * k - 1].initialized then [PacketAt(bs, k - 1)] else []
  }

  ghost predicate WholeBlocks(bs: seq<BlockIn>) {
    forall i :: 0 <= i < |bs| ==> |bs[i].controls| == |bs[i].samples| == RX_SAMP_OUT_SIZE
  }

  lemma {:induction false} AllLengths(bs: seq<BlockIn>)
    requires WholeBlocks(bs)
    ensures |AllControls(bs)| == |AllSamples(bs)| == RX_SAMP_OUT_SIZE * |bs|
  {
    if bs == [] {
    } else {
      AllLengths(bs[..|bs| - 1]);
    }
  }

  lemma {:induction false} DatagramsPrefix(bs: seq<BlockIn>, n: nat, k: nat)
    requires 10 * k <= n <= |bs|
    ensures Datagrams(bs[..n], k) == Datagrams(bs, k)
  {
    if k == 0 {
    } else {
      DatagramsPrefix(bs, n, k - 1);
      assert bs[..n][10 * (k - 1)..10 * (k - 1) + 10] == bs[10 * (k - 1)..10 * (k - 1) + 10];
    }
  }

  /** The blocks since the last full ten. */
  function Rest(bs: seq<BlockIn>): seq<BlockIn> { bs[10 * (|bs| / 10)..] }

  /** The buffers and the running RSSI of s are those of the blocks bs. */
  ghost predicate Buffers(s: Stream, bs: seq<BlockIn>) {
    s.controls == AllControls(bs) && s.samples == AllSamples(bs) && s.rssi == LeastRssi(bs)
  }

  lemma PushExtends(s: Stream, bs: seq<BlockIn>, b: BlockIn)
    requires Buffers(s, bs)
    ensures Buffers(Push(s, b), bs + [b]) && Push(s, b).sent == s.sent
  {
    assert (bs + [b])[..|bs|] == bs;
  }

  lemma FlushTen(s: Stream, bs: seq<BlockIn>, initialized: bool)
    requires Buffers(s, bs) && WholeBlocks(bs) && |bs| <= 10
    ensures var t := Flush(s, initialized);
            if |bs| < 10 then t == s
            else Buffers(t, []) && t.sent == s.sent + if initialized
              then [Encode(LeastRssi(bs), Packet(AllControls(bs), AllSamples(bs)))] else []
  {
    AllLengths(bs);
    if |bs| == 10 {
      assert s.controls[..SAMPLES_PER_SLOT] == s.controls && s.samples[..SAMPLES_PER_SLOT] == s.samples;
    }
  }

  /** After k full tens: their datagrams are out, and the blocks since are buffered. */
  ghost predicate CutAt(bs: seq<BlockIn>, k: nat) {
    && 10 * k <= |bs| < 10 * k + 10
    && RunBlocks(bs).sent == Datagrams(bs, k) && Buffers(RunBlocks(bs), bs[10 * k..])
  }

  /** Below the tenth block nothing is cut. */
  lemma CutWaits(bs: seq<BlockIn>, k: nat)
    requires bs != [] && WholeBlocks(bs) && CutAt(bs[..|bs| - 1], k) && |bs| < 10 * k + 10
    ensures CutAt(bs, k)
  {
    var n := |bs| - 1;
    PushFlush(bs, k);
    hide RunBlocks, Buffers, Datagrams;
    DatagramsPrefix(bs, n, k);
  }

  lemma CutTen(bs: seq<BlockIn>, k: nat)
    requires bs != [] && WholeBlocks(bs) && CutAt(bs[..|bs| - 1], k) && |bs| == 10 * k + 10
    ensures CutAt(bs, k + 1)
  {
    var n := |bs| - 1;
    PushFlush(bs, k);
    assert bs[10 * k..] == bs[10 * k..10 * k + 10];
    assert bs[10 * (k + 1)..] == [];
    DatagramsPrefix(bs, n, k);
    assert RunBlocks(bs).sent ==
           Datagrams(bs, k) + if bs[n].initialized then [PacketAt(bs, k)] else [];
    hide RunBlocks, Buffers, PacketAt;
  }

  /** The block after a cut, pushed and flushed. */
  lemma PushFlush(bs: seq<BlockIn>, k: nat)
    requires bs != [] && WholeBlocks(bs) && CutAt(bs[..|bs| - 1], k)
    ensures var open, before, after := bs[10 * k..], RunBlocks(bs[..|bs| - 1]), RunBlocks(bs);
            if |open| < 10 then Buffers(after, open) && after.sent == before.sent
            else Buffers(after, []) && after.sent == before.sent + if bs[|bs| - 1].initialized
              then [Encode(LeastRssi(open), Packet(AllControls(open), AllSamples(open)))] else []
  {
    var n := |bs| - 1;
    assert RunBlocks(bs) == Receive(RunBlocks(bs[..n]), bs[n]);
    var open := bs[10 * k..];
    assert WholeBlocks(open);
    hide Push, Flush, Buffers, Encode, LeastRssi, AllControls, AllSamples, RunBlocks, Datagrams, WholeBlocks;
    assert bs[..n][10 * k..] + [bs[n]] == open;
    PushExtends(RunBlocks(bs[..n]), bs[..n][10 * k..], bs[n]);
    FlushTen(Push(RunBlocks(bs[..n]), bs[n]), open, bs[n].initialized);
  }

  lemma {:induction false} RunIsCut(bs: seq<BlockIn>) returns (k: nat)
    requires WholeBlocks(bs)
    ensures CutAt(bs, k)
  {
    k := 0;
    if bs == [] {
    } else {
      k := RunIsCut(bs[..|bs| - 1]);
      if |bs| == 10 * k + 10 {
        CutTen(bs, k);
        k := k + 1;
      } else {
        CutWaits(bs, k);
      }
    }
  }

  /**
   * Packetisation conserves the stream: what is sent is exactly the tens of
   * blocks that ended with the latch closed, each with its least RSSI, and
   * what is buffered is exactly the blocks since the last full ten.
   */
  lemma PacketsAreTens(bs: seq<BlockIn>)
    requires WholeBlocks(bs)
    ensures var s := RunBlocks(bs);
            && s.sent == Datagrams(bs, |bs| / 10) && Buffers(s, Rest(bs))
            && |s.controls| == |s.samples| == RX_SAMP_OUT_SIZE * (|bs| % 10)
  {
    var k := RunIsCut(bs);
    hide RunBlocks, Datagrams, AllControls, AllSamples;
    assert k == |bs| / 10;
    AllLengths(Rest(bs));
  }

  /** Once closed the latch stays closed. */
  ghost predicate Latched(bs: seq<BlockIn>) {
    forall i, j :: 0 <= i <= j < |bs| && bs[i].initialized ==> bs[j].initialized
  }

  function PacketsFrom(bs: seq<BlockIn>, d: nat, k: nat): seq<seq<Byte>>
    requires d <= k && 10 * k <= |bs|
  {
    seq(k - d, i requires 0 <= i < k - d => PacketAt(bs, d + i))
  }

  /** The k-th ten ended with the latch closed. */
  predicate Sent(bs: seq<BlockIn>, k: nat)
    requires 10 * k + 10 <= |bs|
  {
    bs[10 * k + 9].initialized
  }

  /** Only a prefix of the packets is ever discarded. */
  lemma {:induction false} DiscardsAreAPrefix(bs: seq<BlockIn>, k: nat) returns (d: nat)
    requires Latched(bs) && 10 * k <= |bs|
    ensures d <= k && Datagrams(bs, k) == PacketsFrom(bs, d, k)
    ensures forall j :: 0 <= j < k ==> (Sent(bs, j) <==> d <= j)
    ensures d < k <==> k > 0 && Sent(bs, k - 1)
  {
    d := 0;
    if k == 0 {
    } else {
      hide Sent, Latched, Datagrams, PacketsFrom;
      d := DiscardsAreAPrefix(bs, k - 1);
      SentFrom(bs, k);
      if Sent(bs, k - 1) {
        PacketsFromGrows(bs, d, k);
      } else {
        d := k;
        NoPackets(bs, k);
      }
    }
  }

  lemma PacketsFromGrows(bs: seq<BlockIn>, d: nat, k: nat)
    requires d < k && 10 * k <= |bs|
    ensures PacketsFrom(bs, d, k) == PacketsFrom(bs, d, k - 1) + [PacketAt(bs, k - 1)]
  {
    hide PacketAt;
  }

  lemma NoPackets(bs: seq<BlockIn>, k: nat)
    requires k > 0 && 10 * k <= |bs|
    ensures PacketsFrom(bs, k - 1, k - 1) == PacketsFrom(bs, k, k)
  {
  }

  /** The last of k tens adds to the datagrams if it was sent, and was sent if one before it was. */
  lemma SentFrom(bs: seq<BlockIn>, k: nat)
    requires Latched(bs) && 10 * k <= |bs| && k > 0
    ensures Datagrams(bs, k) ==
            if Sent(bs, k - 1) then Datagrams(bs, k - 1) + [PacketAt(bs, k - 1)] else Datagrams(bs, k - 1)
    ensures k > 1 && Sent(bs, k - 2) ==> Sent(bs, k - 1)
  {
    hide PacketAt;
  }

  lemma {:induction false} AllSplit(bs: seq<BlockIn>, m: nat)
    requires m <= |bs|
    ensures AllControls(bs) == AllControls(bs[..m]) + AllControls(bs[m..])
    ensures AllSamples(bs) == AllSamples(bs[..m]) + AllSamples(bs[m..])
  {
    if m == |bs| {
      assert bs[..m] == bs && bs[m..] == [];
    } else {
      var n := |bs| - 1;
      hide AllControls, AllSamples;
      TailGrows(bs, m);
      AllGrow(bs[..n], bs[n]);
      AllGrow(bs[..n][m..], bs[n]);
      AllSplit(bs[..n], m);
      Joined(AllControls(bs[..m]), AllControls(bs[..n][m..]), bs[n].controls);
      Joined(AllSamples(bs[..m]), AllSamples(bs[..n][m..]), bs[n].samples);
    }
  }

  lemma TailGrows<T>(s: seq<T>, m: nat)
    requires m < |s|
    ensures var n := |s| - 1;
            s == s[..n] + [s[n]] && s[m..] == s[..n][m..] + [s[n]] && s[..n][..m] == s[..m]
  {
  }

  lemma Joined<T>(a: seq<T>, b: seq<T>, c: seq<T>)
    ensures (a + b) + c == a + (b + c)
  {
  }

  lemma AllGrow(bs: seq<BlockIn>, b: BlockIn)
    ensures AllControls(bs + [b]) == AllControls(bs) + b.controls
    ensures AllSamples(bs + [b]) == AllSamples(bs) + b.samples
  {
    assert (bs + [b])[..|bs|] == bs;
  }

  /** Packet k carries bytes 720k to 720k + 719 of the whole control stream, and the same of the samples. */
  lemma PacketIsSlice(bs: seq<BlockIn>, k: nat)
    requires WholeBlocks(bs) && 10 * k + 10 <= |bs|
    ensures |AllControls(bs)| == |AllSamples(bs)| == RX_SAMP_OUT_SIZE * |bs|
    ensures AllControls(bs[10 * k..10 * k + 10]) == AllControls(bs)[720 * k..720 * k + 720]
    ensures AllSamples(bs[10 * k..10 * k + 10]) == AllSamples(bs)[720 * k..720 * k + 720]
  {
    var m := 10 * k;
    hide AllControls, AllSamples;
    AllSplit(bs, m);
    AllSplit(bs[m..], 10);
    assert bs[m..][..10] == bs[m..m + 10];
    AllLengths(bs);
    AllLengths(bs[..m]);
    AllLengths(bs[m..m + 10]);
    Middle(AllControls(bs[..m]), AllControls(bs[m..m + 10]), AllControls(bs[m..][10..]));
    Middle(AllSamples(bs[..m]), AllSamples(bs[m..m + 10]), AllSamples(bs[m..][10..]));
  }

  lemma Middle<T>(a: seq<T>, b: seq<T>, c: seq<T>)
    ensures (a + (b + c))[|a|..|a| + |b|] == b
  {
  }

  /** The least of 1024 and the readings: below all of them and one of them. */
  lemma {:induction false} LeastRssiIsLeast(bs: seq<BlockIn>) returns (i: nat)
    ensures LeastRssi(bs) <= 1024 && forall j :: 0 <= j < |bs| ==> LeastRssi(bs) <= bs[j].rssi
    ensures LeastRssi(bs) < 1024 ==> i < |bs| && LeastRssi(bs) == bs[i].rssi
  {
    i := 0;
    if bs == [] {
    } else {
      var n := |bs| - 1;
      i := LeastRssiIsLeast(bs[..n]);
      assert forall j :: 0 <= j < n ==> bs[..n][j] == bs[j];
      if bs[n].rssi < LeastRssi(bs[..n]) { i := n; }
    }
  }

  /** Entry 72 b + i of the whole streams is entry i of block b. */
  lemma {:induction false} AllAt(bs: seq<BlockIn>, b: nat, i: nat)
    requires WholeBlocks(bs) && b < |bs| && i < 72
    ensures |AllControls(bs)| == |AllSamples(bs)| == 72 * |bs|
    ensures AllControls(bs)[72 * b + i] == bs[b].controls[i]
    ensures AllSamples(bs)[72 * b + i] == bs[b].samples[i]
  {
    var n := |bs| - 1;
    AllLengths(bs);
    AllLengths(bs[..n]);
    assert bs == bs[..n] + [bs[n]];
    AllGrow(bs[..n], bs[n]);
    hide AllControls, AllSamples;
    if b < n { AllAt(bs[..n], b, i); }
  }

  /** Byte by byte: the k-th datagram carries the control bytes and samples of its ten blocks, and their least RSSI. */
  lemma DatagramBytes(bs: seq<BlockIn>, k: nat, b: nat, i: nat)
    requires WholeBlocks(bs) && 10 * k + 10 <= |bs| && b < 10 && i < 72
    ensures var m, block := PacketAt(bs, k), bs[10 * k + b];
            && |m| == 2168 && CarriesWord(m, 0, 720)
            && CarriesWord(m, 4, LeastRssi(bs[10 * k..10 * k + 10]))
            && m[8 + 72 * b + i] == block.controls[i]
            && Signed(m[728 + 144 * b + 2 * i], m[729 + 144 * b + 2 * i]) == block.samples[i]
  {
    var ten, at := bs[10 * k..10 * k + 10], 72 * b + i;
    assert ten[b] == bs[10 * k + b];
    AllLengths(ten);
    AllAt(ten, b, i);
    var m := PacketAt(bs, k);
    assert m == Encode(LeastRssi(ten), Packet(AllControls(ten), AllSamples(ten)));
    hide PacketAt, Encode, LeastRssi, AllControls, AllSamples, Signed;
    LayoutBytes(LeastRssi(ten), Packet(AllControls(ten), AllSamples(ten)), at);
  }
}

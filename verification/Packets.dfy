/**
 * The byte layout of the datagrams exchanged with MMDVM-IQ: a 32-bit count,
 * on the way out a 32-bit RSSI, then 720 control bytes and 720 16-bit
 * samples, all in the little-endian order of the memory they are copied from.
 */
module Packets {
  import opened Constants

  const NETWORK_TX_PACKET_SIZE := 8 + SAMPLES_PER_SLOT + SAMPLES_PER_SLOT * 2
  const NETWORK_RX_PACKET_SIZE := 4 + SAMPLES_PER_SLOT + SAMPLES_PER_SLOT * 2

  type Byte = n: nat | n < 256
  type Int16 = n: int | -0x8000 <= n < 0x8000
  type Word = n: nat | n < 0x1_0000_0000

  datatype Packet = Packet(controls: seq<Byte>, samples: seq<Int16>)
  datatype Option<+T> = None | Some(value: T)

  ghost predicate FullPacket(p: Packet) {
    |p.controls| == SAMPLES_PER_SLOT && |p.samples| == SAMPLES_PER_SLOT
  }

  type Half = n: nat | n < 0x1_0000

  function HalfBytes(h: Half): (b: seq<Byte>)
    ensures |b| == 2
  {
    [h % 256, h / 256]
  }

  function HalfOf(low: Byte, high: Byte): Half { low + 256 * high }

  function WordBytes(w: Word): (b: seq<Byte>)
    ensures |b| == 4
  {
    HalfBytes(w % 0x1_0000) + HalfBytes(w / 0x1_0000)
  }

  function WordOf(b: seq<Byte>): Word
    requires |b| == 4
  {
    HalfOf(b[0], b[1]) + 0x1_0000 * HalfOf(b[2], b[3])
  }

  lemma HalfRoundTrip(h: Half)
    ensures HalfOf(HalfBytes(h)[0], HalfBytes(h)[1]) == h
  {
  }

  lemma HalfBytesBack(low: Byte, high: Byte)
    ensures HalfBytes(HalfOf(low, high)) == [low, high]
  {
  }

  lemma WordRoundTrip(w: Word)
    ensures WordOf(WordBytes(w)) == w
  {
    hide HalfOf, HalfBytes;
    HalfRoundTrip(w % 0x1_0000);
    HalfRoundTrip(w / 0x1_0000);
    assert WordBytes(w)[0] == HalfBytes(w % 0x1_0000)[0] && WordBytes(w)[2] == HalfBytes(w / 0x1_0000)[0];
  }

  lemma WordSplits(low: Half, high: Half)
    ensures (low + 0x1_0000 * high) % 0x1_0000 == low
    ensures (low + 0x1_0000 * high) / 0x1_0000 == high
  {
  }

  lemma BytesRoundTrip(b: seq<Byte>)
    requires |b| == 4
    ensures WordBytes(WordOf(b)) == b
  {
    hide HalfOf, HalfBytes;
    var low, high := HalfOf(b[0], b[1]), HalfOf(b[2], b[3]);
    WordSplits(low, high);
    HalfBytesBack(b[0], b[1]);
    HalfBytesBack(b[2], b[3]);
    assert WordBytes(WordOf(b)) == HalfBytes(low) + HalfBytes(high);
    assert b == [b[0], b[1]] + [b[2], b[3]];
  }

  /** Two's complement, low byte first. */
  function SampleBytes(s: Int16): seq<Byte> { HalfBytes(if s < 0 then s + 0x1_0000 else s) }

  function SampleOf(low: Byte, high: Byte): Int16 {
    var u := HalfOf(low, high);
    if u < 0x8000 then u else u - 0x1_0000
  }

  function SamplesBytes(samples: seq<Int16>): (b: seq<Byte>)
    ensures |b| == 2 * |samples|
  {
    if samples == [] then [] else SamplesBytes(samples[..|samples| - 1]) + SampleBytes(samples[|samples| - 1])
  }

  function SamplesOf(b: seq<Byte>, n: nat): (samples: seq<Int16>)
    requires |b| == 2 * n
    ensures |samples| == n
  {
    seq(n, i requires 0 <= i < n => SampleOf(b[2 * i], b[2 * i + 1]))
  }

  /** The Receiver's reply. */
  function Encode(rssi: Word, p: Packet): seq<Byte> {
    WordBytes(|p.controls| % 0x1_0000_0000) + WordBytes(rssi) + p.controls + SamplesBytes(p.samples)
  }

  /** The same message as MMDVM-IQ sends it back: without the RSSI word. */
  function DropRssi(m: seq<Byte>): seq<Byte>
    requires |m| >= 8
  {
    m[..4] + m[8..]
  }

  /** What readNetwork makes of a datagram: messages of another size or count are passed over. */
  function Parse(m: seq<Byte>): Option<Packet> {
    if |m| != NETWORK_RX_PACKET_SIZE then None
    else if WordOf(m[..4]) != SAMPLES_PER_SLOT then None
    else Some(Packet(m[4..4 + SAMPLES_PER_SLOT], SamplesOf(m[4 + SAMPLES_PER_SLOT..], SAMPLES_PER_SLOT)))
  }

  lemma {:induction false} SampleBytesAt(samples: seq<Int16>, i: nat)
    requires i < |samples|
    ensures SamplesBytes(samples)[2 * i..2 * i + 2] == SampleBytes(samples[i])
  {
    var n := |samples| - 1;
    if i == n {
    } else {
      SampleBytesAt(samples[..n], i);
    }
  }

  lemma SampleThere(s: Int16)
    ensures |SampleBytes(s)| == 2 && SampleOf(SampleBytes(s)[0], SampleBytes(s)[1]) == s
  {
    HalfRoundTrip(if s < 0 then s + 0x1_0000 else s);
  }

  lemma SampleReadBack(samples: seq<Int16>, i: nat)
    requires i < |samples|
    ensures SamplesOf(SamplesBytes(samples), |samples|)[i] == samples[i]
  {
    hide SampleBytes, SampleOf, SamplesBytes;
    var b, at := SamplesBytes(samples), 2 * i;
    SampleBytesAt(samples, i);
    SampleThere(samples[i]);
    assert b[at..at + 2][0] == b[at] && b[at..at + 2][1] == b[at + 1];
  }

  lemma SamplesRoundTrip(samples: seq<Int16>)
    ensures SamplesOf(SamplesBytes(samples), |samples|) == samples
  {
    hide SamplesOf, SamplesBytes;
    forall i | 0 <= i < |samples|
      ensures SamplesOf(SamplesBytes(samples), |samples|)[i] == samples[i]
    {
      SampleReadBack(samples, i);
    }
  }

  lemma SampleBack(low: Byte, high: Byte)
    ensures SampleBytes(SampleOf(low, high)) == [low, high]
  {
    HalfBytesBack(low, high);
  }

  lemma SampleBytesBack(b: seq<Byte>, n: nat)
    requires |b| == 2 * n
    ensures SamplesBytes(SamplesOf(b, n)) == b
  {
    var s := SamplesOf(b, n);
    forall k | 0 <= k < |b|
      ensures SamplesBytes(s)[k] == b[k]
    {
      var i := k / 2;
      SampleBytesAt(s, i);
      SampleBack(b[2 * i], b[2 * i + 1]);
      hide SampleBytes, SampleOf;
      assert SamplesBytes(s)[k] == SamplesBytes(s)[2 * i..2 * i + 2][k - 2 * i];
    }
  }

  /** The Receiver's message has the fixed size, and without its RSSI word the Transmitter reads the same packet. */
  lemma LayoutRoundTrip(rssi: Word, p: Packet)
    requires FullPacket(p)
    ensures |Encode(rssi, p)| == NETWORK_TX_PACKET_SIZE
    ensures Parse(DropRssi(Encode(rssi, p))) == Some(p)
    ensures WordOf(Encode(rssi, p)[4..8]) == rssi
  {
    var m := DropRssi(Encode(rssi, p));
    assert m == WordBytes(SAMPLES_PER_SLOT) + p.controls + SamplesBytes(p.samples);
    assert m[..4] == WordBytes(SAMPLES_PER_SLOT);
    assert m[4..4 + SAMPLES_PER_SLOT] == p.controls;
    assert m[4 + SAMPLES_PER_SLOT..] == SamplesBytes(p.samples);
    assert Encode(rssi, p)[4..8] == WordBytes(rssi);
    WordRoundTrip(SAMPLES_PER_SLOT);
    WordRoundTrip(rssi);
    SamplesRoundTrip(p.samples);
  }

  /** Exactly one message carries each packet: parsing loses nothing of what it accepts. */
  lemma ParseIsInjective(m: seq<Byte>, rssi: Word)
    requires Parse(m).Some?
    ensures FullPacket(Parse(m).value)
    ensures DropRssi(Encode(rssi, Parse(m).value)) == m
  {
    hide HalfOf, HalfBytes, WordOf, WordBytes, SamplesOf, SamplesBytes;
    var p := Parse(m).value;
    BytesRoundTrip(m[..4]);
    SampleBytesBack(m[4 + SAMPLES_PER_SLOT..], SAMPLES_PER_SLOT);
    assert DropRssi(Encode(rssi, p)) == WordBytes(SAMPLES_PER_SLOT) + p.controls + SamplesBytes(p.samples);
    assert m == m[..4] + m[4..4 + SAMPLES_PER_SLOT] + m[4 + SAMPLES_PER_SLOT..];
  }

  // ---------- Byte by byte ----------

  /** The value of two bytes in two's complement. */
  function Signed(low: Byte, high: Byte): int {
    if high < 128 then low + 256 * high else low + 256 * high - 65_536
  }

  lemma SampleOfBytes(low: Byte, high: Byte)
    ensures SampleOf(low, high) == Signed(low, high)
  {
  }

  lemma SampleBytesAre(s: Int16)
    ensures |SampleBytes(s)| == 2 && Signed(SampleBytes(s)[0], SampleBytes(s)[1]) == s
  {
    SampleThere(s);
    SampleOfBytes(SampleBytes(s)[0], SampleBytes(s)[1]);
    hide SampleBytes, SampleOf, Signed;
  }

  function LittleEndian(b0: int, b1: int, b2: int, b3: int): int {
    b0 + 256 * b1 + 65_536 * b2 + 16_777_216 * b3
  }

  lemma WordOfBytes(b: seq<Byte>)
    requires |b| == 4
    ensures WordOf(b) == LittleEndian(b[0], b[1], b[2], b[3])
  {
  }

  /** Four little-endian bytes. */
  ghost predicate CarriesWord(b: seq<Byte>, at: nat, w: int)
    requires at + 4 <= |b|
  {
    LittleEndian(b[at], b[at + 1], b[at + 2], b[at + 3]) == w
  }

  lemma WordIsCarried(w: Word)
    ensures CarriesWord(WordBytes(w), 0, w)
  {
    WordRoundTrip(w);
    WordOfBytes(WordBytes(w));
    hide WordBytes, WordOf;
  }

  /** Where everything sits in the Receiver's message: count, RSSI, control bytes, samples, little end first. */
  lemma LayoutBytes(rssi: Word, p: Packet, i: nat)
    requires FullPacket(p) && i < 720
    ensures var m := Encode(rssi, p);
            && |m| == 2168
            && m[0] == 0xD0 && m[1] == 0x02 && m[2] == 0 && m[3] == 0
            && CarriesWord(m, 4, rssi)
            && m[8 + i] == p.controls[i]
            && Signed(m[728 + 2 * i], m[729 + 2 * i]) == p.samples[i]
  {
    var m, count, at := Encode(rssi, p), WordBytes(720), 2 * i;
    assert count == [0xD0, 0x02, 0, 0];
    WordIsCarried(rssi);
    var power := WordBytes(rssi);
    assert m == count + power + p.controls + SamplesBytes(p.samples);
    hide Encode, WordBytes, SamplesBytes, SampleBytes, Signed;
    assert m[4] == power[0] && m[5] == power[1] && m[6] == power[2] && m[7] == power[3];
    SampleBytesAt(p.samples, i);
    SampleBytesAre(p.samples[i]);
    var two := SamplesBytes(p.samples)[at..at + 2];
    assert m[728 + at] == two[0] && m[729 + at] == two[1];
  }

  /** A message is accepted exactly when it has 2164 bytes of which the first four count 720 items. */
  lemma AcceptedIff(m: seq<Byte>)
    ensures Parse(m).Some? <==> |m| == 2164 && CarriesWord(m, 0, 720)
  {
    if |m| == 2164 { WordOfBytes(m[..4]); }
    hide WordOf;
  }

  /** And its bytes are then the packet: 720 control bytes after the count, 720 samples after those. */
  lemma AcceptedBytes(m: seq<Byte>, i: nat)
    requires Parse(m).Some? && i < 720
    ensures FullPacket(Parse(m).value) && |m| == 2164
    ensures Parse(m).value.controls[i] == m[4 + i]
    ensures Parse(m).value.samples[i] == Signed(m[724 + 2 * i], m[725 + 2 * i])
  {
    var p, rest, at := Parse(m).value, m[724..], 2 * i;
    assert p.controls == m[4..724] && p.samples == SamplesOf(rest, 720);
    hide Parse, WordOf, SamplesOf, SampleOf, Signed;
    SampleAt(rest, 720, i);
    assert rest[at] == m[724 + at] && rest[at + 1] == m[725 + at];
  }

  lemma SampleAt(b: seq<Byte>, n: nat, i: nat)
    requires |b| == 2 * n && i < n
    ensures SamplesOf(b, n)[i] == Signed(b[2 * i], b[2 * i + 1])
  {
    SampleOfBytes(b[2 * i], b[2 * i + 1]);
    hide SampleOf, Signed;
  }
}

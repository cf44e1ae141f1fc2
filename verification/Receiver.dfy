/**
 * The receiver thread's state and one iteration of its loop. What the
 * filters and the demodulator make of a block is an input: 72 samples and a
 * power reading for each channel.
 */
module ReceiverThread {
  import opened Constants
  import opened SlotChannel
  import opened SlotHistory
  import opened StepMachine
  import opened MarkQueue
  import TransmitPlan
  import opened DmrTiming
  import opened Packets
  import opened Packetiser

  /** The control byte for an answer of checkTime. */
  function MarkByte(answer: nat): Byte {
    if answer == 1 then MARK_SLOT1 else if answer == 2 then MARK_SLOT2 else MARK_NONE
  }

  function MarkBytes(answers: seq<nat>): (b: seq<Byte>)
    ensures |b| == |answers|
    ensures forall i :: 0 <= i < |answers| ==> b[i] == MarkByte(answers[i])
  {
    seq(|answers|, i requires 0 <= i < |answers| => MarkByte(answers[i]))
  }

  /** The transmitter's scan reads back what the receiver writes for a slot. */
  lemma MarkByteRoundTrip(answer: nat)
    requires answer <= 2
    ensures TransmitPlan.MarkOf(MarkByte(answer)) == answer
    ensures MarkByte(answer) == MARK_NONE <==> answer == 0
  {
  }

  /** The bytes of a mark, as MMDVM-IQ defines them: 0x08 for slot 1, 0x04 for slot 2, 0 for none. */
  lemma MarkByteValues(answer: nat, control: nat)
    ensures MarkByte(answer) == 0x08 <==> answer == 1
    ensures MarkByte(answer) == 0x04 <==> answer == 2
    ensures answer != 1 && answer != 2 ==> MarkByte(answer) == 0x00
    ensures TransmitPlan.MarkOf(control) == 1 <==> control == 0x08
    ensures TransmitPlan.MarkOf(control) == 2 <==> control == 0x04
  {
  }

  /** Every datagram of a channel in step with its scheduler carries at most one mark. */
  lemma OneMarkPerDatagram(cfg: Config, es: seq<Event>, bs: seq<BlockIn>, k: nat, i: nat, j: nat)
    requires WholeBlocks(bs) && AllControls(bs) == MarkBytes(Run(cfg, es).answers)
    requires 10 * k + 10 <= |bs| && i < j < SAMPLES_PER_SLOT
    ensures var controls := AllControls(bs[10 * k..10 * k + 10]);
            |controls| == SAMPLES_PER_SLOT && (controls[i] == MARK_NONE || controls[j] == MARK_NONE)
  {
    PacketIsSlice(bs, k);
    OneMarkPerPacket(cfg, es, 720 * k + i, 720 * k + j);
  }

  /** C's conversion of a float to an integer drops the fraction. */
  function Truncate(x: real): int { if x < 0.0 then -(-x).Floor else x.Floor }

  /** A demodulated sample as a 16-bit value, held within +-32767. */
  function Quantise(sample: real, symbolDeviation: real): (q: Int16)
    requires symbolDeviation > 0.0
    ensures -32767 <= q <= 32767
  {
    var s := Truncate(32767.0 * sample / symbolDeviation);
    if s > 32767 then 32767 else if s < -32767 then -32767 else s
  }

  /** Within the range the fraction is dropped: less than a unit is lost, and never away from zero. */
  lemma QuantiseTruncates(sample: real, symbolDeviation: real)
    requires symbolDeviation > 0.0
    ensures var v, q := 32767.0 * sample / symbolDeviation, Quantise(sample, symbolDeviation) as real;
            && (0.0 <= v < 32768.0 ==> q <= v < q + 1.0)
            && (-32768.0 < v <= 0.0 ==> q - 1.0 < v <= q)
  {
  }

  /** The clamp: the extreme values are those of all samples at or beyond full scale. */
  lemma QuantiseClamps(sample: real, symbolDeviation: real)
    requires symbolDeviation > 0.0
    ensures Quantise(sample, symbolDeviation) == 32767 <==> sample >= symbolDeviation
    ensures Quantise(sample, symbolDeviation) == -32767 <==> sample <= -symbolDeviation
  {
    var v := 32767.0 * sample / symbolDeviation;
    assert v * symbolDeviation == 32767.0 * sample;
    FullScale(v, sample, symbolDeviation);
    FullScale(-v, -sample, symbolDeviation);
  }

  lemma FullScale(v: real, sample: real, symbolDeviation: real)
    requires symbolDeviation > 0.0 && v * symbolDeviation == 32767.0 * sample
    ensures v >= 32767.0 <==> sample >= symbolDeviation
  {
    assert (v - 32767.0) * symbolDeviation == 32767.0 * (sample - symbolDeviation);
  }

  /** Louder in, no quieter out. */
  lemma QuantiseIsMonotone(x: real, y: real, symbolDeviation: real)
    requires symbolDeviation > 0.0 && x <= y
    ensures Quantise(x, symbolDeviation) <= Quantise(y, symbolDeviation)
  {
    var v, w := 32767.0 * x / symbolDeviation, 32767.0 * y / symbolDeviation;
    assert (w - v) * symbolDeviation == 32767.0 * (y - x);
    assert v <= w;
  }

  function QuantiseAll(samples: seq<real>, symbolDeviation: real): (q: seq<Int16>)
    requires symbolDeviation > 0.0
    ensures |q| == |samples|
    ensures forall i :: 0 <= i < |samples| ==> q[i] == Quantise(samples[i], symbolDeviation)
  {
    seq(|samples|, i requires 0 <= i < |samples| => Quantise(samples[i], symbolDeviation))
  }

  /** The device stamp of a block is simulated when the device gives none. */
  function ReadTimeStep(ret: nat, pfbChannels: nat): nat
    requires pfbChannels > 0
  {
    ret * TIME_PER_SAMPLE * DECIMATION / INTERPOLATION / pfbChannels
  }

  /** For every number of channels both divisions are exact: a block is 72 sample times. */
  lemma SimulatedStepIsExact(pfbChannels: nat)
    requires pfbChannels > 0
    ensures ReadTimeStep(RX_INTERP_IN_SIZE * pfbChannels, pfbChannels) == RX_SAMP_OUT_SIZE * TIME_PER_SAMPLE
  {
    var block := RX_SAMP_OUT_SIZE * TIME_PER_SAMPLE;
    assert RX_INTERP_IN_SIZE * pfbChannels * TIME_PER_SAMPLE * DECIMATION == (block * pfbChannels) * INTERPOLATION;
    ExactDivision(block * pfbChannels, INTERPOLATION);
    ExactDivision(block, pfbChannels);
  }

  lemma ExactDivision(a: nat, b: nat)
    requires b > 0
    ensures a * b / b == a
  {
    DivisionIs(a * b, b, a);
  }

  lemma DivisionIs(x: nat, b: nat, a: nat)
    requires b > 0 && x == a * b
    ensures x / b == a
  {
    var q, r := x / b, x % b;
    Quotient(a, b, q, r);
  }

  lemma Quotient(a: int, b: nat, q: int, r: nat)
    requires b > 0 && r < b && a * b == q * b + r
    ensures a == q
  {
    NoMultipleBetween(a - q, b, r);
  }

  lemma NoMultipleBetween(d: int, b: nat, r: nat)
    requires b > 0 && r < b && d * b == r
    ensures d == 0
  {
    MultiplesAreFar(d, b);
  }

  lemma MultiplesAreFar(d: int, b: nat)
    ensures d >= 1 ==> d * b >= b
    ensures d <= -1 ==> d * b + b <= 0
  {
  }

  // ---------- The receiver's buffers as values ----------

  /** The scheduler calls and the output streams around a block. */
  datatype Reception = Reception(trace: seq<seq<Event>>, streams: seq<Stream>)

  /** What the filters hand a channel for a block: its quantised samples and its power reading. */
  datatype Given = Given(samples: seq<Int16>, power: Word)

  function GivenTo(outputs: seq<seq<real>>, powers: seq<Word>, symbolDeviation: real): (given: seq<Given>)
    requires |outputs| == |powers| && symbolDeviation > 0.0
    ensures |given| == |outputs|
    ensures forall c :: 0 <= c < |given| ==> given[c] == Given(QuantiseAll(outputs[c], symbolDeviation), powers[c])
  {
    seq(|outputs|, c requires 0 <= c < |outputs| => Given(QuantiseAll(outputs[c], symbolDeviation), powers[c]))
  }

  /** One block more: the samples and power given, stamped with the latch. */
  ghost predicate TookBlock(bs: seq<BlockIn>, cs: seq<BlockIn>, g: Given, initialized: bool) {
    |cs| == |bs| + 1 && cs == bs + [BlockIn(cs[|bs|].controls, g.samples, g.power, initialized)]
  }

  ghost predicate Pushed(cfg: Config, c: nat, timestamp: int, s: Reception, t: Reception, given: Given, b: BlockIn)
    requires c < |s.trace| == |t.trace| && c < |s.streams| == |t.streams|
  {
    && b.samples == given.samples && b.rssi == given.power
    && t.trace[c] == s.trace[c] + BlockEvents(timestamp)
    && t.streams[c] == Push(s.streams[c], b)
    && var h, g := Run(cfg, s.trace[c]), Run(cfg, t.trace[c]);
       && |b.controls| == |b.samples| == RX_SAMP_OUT_SIZE
       && MarkBytes(g.answers) == MarkBytes(h.answers) + b.controls
       && b.initialized == g.channel.initialized
  }

  /** The block on its first n channels: ins has what each of them received. */
  ghost predicate PushedUpTo(cfg: Config, n: nat, timestamp: int, s: Reception, t: Reception, given: seq<Given>,
                             ins: seq<BlockIn>)
  {
    && |s.trace| == |t.trace| == |s.streams| == |t.streams| == MAX_MMDVM_CHANNELS
    && |ins| == n <= MAX_MMDVM_CHANNELS && n <= |given|
    && (forall c :: 0 <= c < n ==> Pushed(cfg, c, timestamp, s, t, given[c], ins[c]))
    && (forall c :: n <= c < MAX_MMDVM_CHANNELS ==> t.trace[c] == s.trace[c] && t.streams[c] == s.streams[c])
  }

  lemma PushedOneMore(cfg: Config, n: nat, timestamp: int, s: Reception, t: Reception, u: Reception,
                      given: seq<Given>, ins: seq<BlockIn>, b: BlockIn)
    requires n < MAX_MMDVM_CHANNELS && n < |given| && PushedUpTo(cfg, n, timestamp, s, t, given, ins)
    requires SameElsewhere(n, t.trace, u.trace) && SameElsewhere(n, t.streams, u.streams)
    requires Pushed(cfg, n, timestamp, t, u, given[n], b)
    ensures PushedUpTo(cfg, n + 1, timestamp, s, u, given, ins + [b])
  {
    hide Push, BlockEvents, MarkBytes, Run;
    forall c | 0 <= c < n + 1
      ensures Pushed(cfg, c, timestamp, s, u, given[c], (ins + [b])[c])
    {
      if c < n { assert Pushed(cfg, c, timestamp, s, t, given[c], ins[c]); }
    }
  }

  /** What the packetisation of a channel relies on after the lock. */
  lemma AfterPush(cfg: Config, timestamp: int, s: Reception, t: Reception, given: seq<Given>, ins: seq<BlockIn>, c: nat)
    requires PushedUpTo(cfg, |ins|, timestamp, s, t, given, ins) && c < |ins|
    requires |s.streams[c].controls| == |s.streams[c].samples|
    ensures |t.streams[c].controls| == |t.streams[c].samples|
    ensures t.trace[c] == s.trace[c] + BlockEvents(timestamp)
    ensures ins[c] == BlockIn(ins[c].controls, given[c].samples, given[c].power,
                              Run(cfg, t.trace[c]).channel.initialized)
  {
    assert Pushed(cfg, c, timestamp, s, t, given[c], ins[c]);
    hide Run, BlockEvents;
  }

  /** Packetisation of the first n channels. */
  ghost predicate FlushedUpTo(n: nat, s: seq<Stream>, t: seq<Stream>, ins: seq<BlockIn>) {
    && |s| == |t| == MAX_MMDVM_CHANNELS && n <= |ins| <= MAX_MMDVM_CHANNELS
    && (forall c :: 0 <= c < n ==> t[c] == Flush(s[c], ins[c].initialized))
    && (forall c :: n <= c < MAX_MMDVM_CHANNELS ==> t[c] == s[c])
  }

  lemma FlushedNone(s: seq<Stream>, ins: seq<BlockIn>)
    requires |s| == MAX_MMDVM_CHANNELS >= |ins|
    ensures FlushedUpTo(0, s, s, ins)
  {
  }

  lemma FlushedNext(n: nat, s: seq<Stream>, t: seq<Stream>, ins: seq<BlockIn>)
    requires FlushedUpTo(n, s, t, ins) && n < MAX_MMDVM_CHANNELS
    ensures |s| == |t| == MAX_MMDVM_CHANNELS && t[n] == s[n]
  {
  }

  lemma FlushedOneMore(n: nat, s: seq<Stream>, t: seq<Stream>, ins: seq<BlockIn>, flushed: Stream)
    requires FlushedUpTo(n, s, t, ins) && n < |ins| <= MAX_MMDVM_CHANNELS
    requires flushed == Flush(t[n], ins[n].initialized)
    ensures FlushedUpTo(n + 1, s, t[n := flushed], ins)
  {
  }

  /**
   * A stream is the run of the blocks received, their control bytes are the
   * scheduler's answers, and their latch never reopened.
   */
  ghost predicate Agree(s: Stream, bs: seq<BlockIn>, answers: seq<nat>, initialized: bool) {
    && WholeBlocks(bs) && s == RunBlocks(bs) && AllControls(bs) == MarkBytes(answers)
    && Latched(bs) && (bs != [] && bs[|bs| - 1].initialized ==> initialized)
  }

  lemma NothingAgrees(cfg: Config)
    ensures Agree(EMPTY_STREAM, [], Run(cfg, []).answers, Run(cfg, []).channel.initialized)
  {
  }

  lemma AgreeLengths(s: Stream, bs: seq<BlockIn>, answers: seq<nat>, initialized: bool)
    requires Agree(s, bs, answers, initialized)
    ensures |s.controls| == |s.samples|
  {
    PacketsAreTens(bs);
  }

  lemma AgreeMore(s: Stream, bs: seq<BlockIn>, answers: seq<nat>, initialized: bool, b: BlockIn, more: seq<nat>)
    requires Agree(s, bs, answers, initialized) && |b.controls| == |b.samples| == RX_SAMP_OUT_SIZE
    requires MarkBytes(more) == MarkBytes(answers) + b.controls && (initialized ==> b.initialized)
    ensures Agree(Receive(s, b), bs + [b], more, b.initialized)
  {
    assert (bs + [b])[..|bs|] == bs;
    hide Receive, MarkBytes;
  }

  /** Once set the latch stays set through a block. */
  lemma LatchStays(cfg: Config, base: seq<Event>, timestamp: int)
    requires Run(cfg, base).channel.initialized
    ensures Run(cfg, base + BlockEvents(timestamp)).channel.initialized
  {
    RunAppend(cfg, START, base, BlockEvents(timestamp));
    BlockStep(cfg, Run(cfg, base), timestamp);
  }

  /** One more block of a channel whose stream and marks were in step. */
  lemma OneMoreBlock(cfg: Config, c: nat, timestamp: int, s: Reception, t: Reception, u: seq<Stream>, given: seq<Given>,
                     ins: seq<BlockIn>, bs: seq<BlockIn>)
    requires PushedUpTo(cfg, |ins|, timestamp, s, t, given, ins) && c < |ins|
    requires FlushedUpTo(|ins|, t.streams, u, ins)
    requires Agree(s.streams[c], bs, Run(cfg, s.trace[c]).answers, Run(cfg, s.trace[c]).channel.initialized)
    ensures Agree(u[c], bs + [ins[c]], Run(cfg, t.trace[c]).answers, Run(cfg, t.trace[c]).channel.initialized)
  {
    assert Pushed(cfg, c, timestamp, s, t, given[c], ins[c]);
    hide Push, Flush, Run, BlockEvents, Agree;
    if Run(cfg, s.trace[c]).channel.initialized { LatchStays(cfg, s.trace[c], timestamp); }
    AgreeMore(s.streams[c], bs, Run(cfg, s.trace[c]).answers, Run(cfg, s.trace[c]).channel.initialized, ins[c],
              Run(cfg, t.trace[c]).answers);
  }

  /** The same, with what the scheduler has answered channel j, inside a block. */
  datatype Midway = Midway(
    trace: seq<seq<Event>>, controls: seq<seq<Byte>>, samples: seq<seq<Int16>>, answers: seq<nat>)

  ghost predicate SameElsewhere<T>(j: nat, s: seq<T>, t: seq<T>) {
    |s| == |t| && forall c :: 0 <= c < |s| && c != j ==> s[c] == t[c]
  }

  /** Channel j has made the calls es, been answered, and pushed a control byte and a sample for each answer. */
  ghost predicate GrownBy(j: nat, es: seq<Event>, answers: seq<nat>, samples: seq<Int16>, s: Midway, t: Midway) {
    && SameElsewhere(j, s.trace, t.trace) && SameElsewhere(j, s.controls, t.controls)
    && SameElsewhere(j, s.samples, t.samples)
    && j < |s.trace| && j < |s.controls| && j < |s.samples|
    && t.trace[j] == s.trace[j] + es && t.answers == s.answers + answers
    && t.controls[j] == s.controls[j] + MarkBytes(answers) && t.samples[j] == s.samples[j] + samples
  }

  lemma GrownByMore(j: nat, es: seq<Event>, answers: seq<nat>, samples: seq<Int16>, s: Midway, t: Midway,
                    e: Event, answer: nat, sample: Int16, u: Midway)
    requires GrownBy(j, es, answers, samples, s, t) && GrownBy(j, [e], [answer], [sample], t, u)
    ensures GrownBy(j, es + [e], answers + [answer], samples + [sample], s, u)
  {
    assert MarkBytes(answers + [answer]) == MarkBytes(answers) + MarkBytes([answer]);
  }

  /** The i-th sample's call and value. */
  lemma NextSample(timestamp: int, output: seq<real>, symbolDeviation: real, i: nat)
    requires i < |output| == RX_SAMP_OUT_SIZE && symbolDeviation > 0.0
    ensures |BlockEvents(timestamp)| == RX_SAMP_OUT_SIZE + 1
    ensures BlockEvents(timestamp)[1..][..i + 1] == BlockEvents(timestamp)[1..][..i] + [Sample(i == 0)]
    ensures QuantiseAll(output, symbolDeviation)[..i + 1]
         == QuantiseAll(output, symbolDeviation)[..i] + [Quantise(output[i], symbolDeviation)]
  {
  }

  lemma GrownByNothing(j: nat, s: Midway)
    requires j < |s.trace| && j < |s.controls| && j < |s.samples|
    ensures GrownBy(j, [], [], [], s, s)
  {
  }

  ghost function StreamsFrom(controls: seq<seq<Byte>>, samples: seq<seq<Int16>>, rssi: seq<Word>,
                             sent: seq<seq<seq<Byte>>>): (r: seq<Stream>)
    requires |controls| == |samples| == |rssi| == |sent|
    ensures |r| == |controls|
    ensures forall c :: 0 <= c < |r| ==> r[c] == Stream(controls[c], samples[c], rssi[c], sent[c])
  {
    seq(|controls|, c requires 0 <= c < |controls| => Stream(controls[c], samples[c], rssi[c], sent[c]))
  }

  lemma StreamsUpdate(controls: seq<seq<Byte>>, samples: seq<seq<Int16>>, rssi: seq<Word>, sent: seq<seq<seq<Byte>>>,
                      j: nat, s: Stream)
    requires j < |controls| == |samples| == |rssi| == |sent|
    ensures StreamsFrom(controls[j := s.controls], samples[j := s.samples], rssi[j := s.rssi], sent[j := s.sent])
         == StreamsFrom(controls, samples, rssi, sent)[j := s]
  {
  }

  /** Timer, power reading and samples together are one Push. */
  lemma BlockIsPush(cfg: Config, j: nat, timestamp: int, s: Midway, t: Midway, base: seq<Event>,
                    r0: seq<Word>, r1: seq<Word>, sent: seq<seq<seq<Byte>>>,
                    answers: seq<nat>, samples: seq<Int16>, power: Word)
    returns (b: BlockIn)
    requires |s.trace| == |s.controls| == |s.samples| == |r0| == |r1| == |sent| == MAX_MMDVM_CHANNELS
    requires j < MAX_MMDVM_CHANNELS && s.trace[j] == base + [Timer(timestamp)]
    requires GrownBy(j, BlockEvents(timestamp)[1..], answers, samples, s, t)
    requires s.answers == Run(cfg, base).answers && t.answers == Run(cfg, t.trace[j]).answers
    requires r1 == r0[j := if power < r0[j] then power else r0[j]]
    requires |answers| == |samples| == RX_SAMP_OUT_SIZE
    ensures var before := Reception(s.trace[j := base], StreamsFrom(s.controls, s.samples, r0, sent));
            var after := Reception(t.trace, StreamsFrom(t.controls, t.samples, r1, sent));
            && Pushed(cfg, j, timestamp, before, after, Given(samples, power), b)
            && SameElsewhere(j, before.trace, after.trace) && SameElsewhere(j, before.streams, after.streams)
  {
    b := BlockIn(MarkBytes(answers), samples, power, Run(cfg, t.trace[j]).channel.initialized);
    assert base + [Timer(timestamp)] + BlockEvents(timestamp)[1..] == base + BlockEvents(timestamp);
    hide Run;
  }

  class Receiver {
    const activeChannels: nat
    const pfbChannels: nat
    const timestamping: bool
    const symbolDeviation: real
    const burstTimer: DMRTiming
    const rssi: array<Word>
    const controlBuf: array<seq<Byte>>
    const sampleBuf: array<seq<Int16>>

    /** The datagrams written to the network for each channel. */
    const sent: array<seq<seq<Byte>>>

    var readTime: int

    /** Every block each channel has received. */
    ghost var blocks: seq<seq<BlockIn>>

    ghost predicate Wired()
      reads this, burstTimer, burstTimer.Repr
    {
      && 1 <= activeChannels <= MAX_MMDVM_CHANNELS && pfbChannels > 0 && symbolDeviation > 0.0
      && rssi.Length == controlBuf.Length == sampleBuf.Length == sent.Length == MAX_MMDVM_CHANNELS
      && burstTimer.Valid() && {this, rssi, controlBuf, sampleBuf, sent} !! burstTimer.Repr
    }

    ghost function StreamOf(c: nat): Stream
      requires Wired() && c < MAX_MMDVM_CHANNELS
      reads this, rssi, controlBuf, sampleBuf, sent, burstTimer, burstTimer.Repr
    {
      Stream(controlBuf[c], sampleBuf[c], rssi[c], sent[c])
    }

    ghost predicate InStep(c: nat)
      requires Wired() && c < MAX_MMDVM_CHANNELS
      reads this, rssi, controlBuf, sampleBuf, sent, burstTimer, burstTimer.Repr
    {
      c < |blocks| && Agree(StreamOf(c), blocks[c], burstTimer.History(c).answers,
                                burstTimer.History(c).channel.initialized)
    }

    ghost predicate Valid()
      reads this, rssi, controlBuf, sampleBuf, sent, burstTimer, burstTimer.Repr
    {
      Wired() && |blocks| == MAX_MMDVM_CHANNELS && forall c :: 0 <= c < activeChannels ==> InStep(c)
    }

    constructor (burstTimer: DMRTiming, activeChannels: nat, pfbChannels: nat, timestamping: bool,
                 symbolDeviation: real)
      requires burstTimer.Valid() && forall c :: 0 <= c < MAX_MMDVM_CHANNELS ==> burstTimer.trace[c] == []
      requires 1 <= activeChannels <= MAX_MMDVM_CHANNELS && pfbChannels > 0 && symbolDeviation > 0.0
      ensures Valid() && readTime == 0
      ensures this.burstTimer == burstTimer && this.activeChannels == activeChannels
      ensures this.pfbChannels == pfbChannels && this.timestamping == timestamping
      ensures fresh(this) && fresh(rssi) && fresh(controlBuf) && fresh(sampleBuf) && fresh(sent)
    {
      this.burstTimer, this.activeChannels, this.pfbChannels := burstTimer, activeChannels, pfbChannels;
      this.timestamping, this.symbolDeviation := timestamping, symbolDeviation;
      rssi := new Word[MAX_MMDVM_CHANNELS](_ => NO_RSSI);
      controlBuf := new seq<Byte>[MAX_MMDVM_CHANNELS](_ => []);
      sampleBuf := new seq<Int16>[MAX_MMDVM_CHANNELS](_ => []);
      sent := new seq<seq<Byte>>[MAX_MMDVM_CHANNELS](_ => []);
      readTime := 0;
      blocks := seq(MAX_MMDVM_CHANNELS, _ => []);
      new;
      NothingAgrees(burstTimer.Cfg());
      hide Agree, Run, DMRTiming.Valid;
      forall c | 0 <= c < MAX_MMDVM_CHANNELS ensures InStep(c) {
        assert blocks[c] == [] && burstTimer.trace[c] == [];
      }
    }

    ghost function Mid(j: nat): Midway
      requires j < |burstTimer.trace|
      reads this, controlBuf, sampleBuf, burstTimer
    {
      Midway(burstTimer.trace, controlBuf[..], sampleBuf[..], burstTimer.History(j).answers)
    }

    /** One sample under the lock: ask the scheduler, then push the control byte and the clamped sample. */
    method ReceiveSample(i: nat, j: nat, output: real) returns (ghost answer: nat)
      requires Wired() && j < activeChannels && |burstTimer.trace| == MAX_MMDVM_CHANNELS
      modifies controlBuf, sampleBuf, burstTimer.Repr
      ensures Wired() && burstTimer.Repr == old(burstTimer.Repr) && |burstTimer.trace| == MAX_MMDVM_CHANNELS
      ensures GrownBy(j, [Sample(i == 0)], [answer], [Quantise(output, symbolDeviation)], old(Mid(j)), Mid(j))
    {
      hide Run, DMRTiming.Valid;
      var control: Byte := MARK_NONE;
      var slotNo := burstTimer.CheckTime(j, i == 0);
      answer := slotNo;
      if slotNo == 1 {
        control := MARK_SLOT1;
      } else if slotNo == 2 {
        control := MARK_SLOT2;
      }
      var s := Truncate(32767.0 * output / symbolDeviation);
      s := if s > 32767 then 32767 else s;
      s := if s < -32767 then -32767 else s;
      sampleBuf[j] := sampleBuf[j] + [s];
      controlBuf[j] := controlBuf[j] + [control];
      assert MarkBytes([answer]) == [control];
      hide MarkBytes, Truncate;
    }

    ghost function Snap(): Reception
      requires Wired()
      reads this, rssi, controlBuf, sampleBuf, sent, burstTimer, burstTimer.Repr
    {
      Reception(burstTimer.trace, Streams())
    }

    ghost function Streams(): (r: seq<Stream>)
      requires Wired()
      reads this, rssi, controlBuf, sampleBuf, sent, burstTimer, burstTimer.Repr
      ensures |r| == MAX_MMDVM_CHANNELS
      ensures forall c :: 0 <= c < MAX_MMDVM_CHANNELS ==> r[c] == StreamOf(c)
    {
      StreamsFrom(controlBuf[..], sampleBuf[..], rssi[..], sent[..])
    }

    /** The 72 samples of one channel's block, after its timer has been set. */
    method ReceiveSamples(j: nat, timestamp: int, output: seq<real>) returns (ghost answers: seq<nat>)
      requires Wired() && j < activeChannels && |output| == RX_SAMP_OUT_SIZE
      requires |burstTimer.trace| == MAX_MMDVM_CHANNELS
      modifies controlBuf, sampleBuf, burstTimer.Repr
      ensures Wired() && burstTimer.Repr == old(burstTimer.Repr) && |burstTimer.trace| == MAX_MMDVM_CHANNELS
      ensures |answers| == RX_SAMP_OUT_SIZE
      ensures GrownBy(j, BlockEvents(timestamp)[1..], answers, QuantiseAll(output, symbolDeviation),
                      old(Mid(j)), Mid(j))
    {
      ghost var samples, quantised := BlockEvents(timestamp)[1..], QuantiseAll(output, symbolDeviation);
      ghost var start := Mid(j);
      answers := [];
      GrownByNothing(j, start);
      assert |samples| == RX_SAMP_OUT_SIZE;
      hide DMRTiming.Valid, GrownBy, BlockEvents, QuantiseAll, Quantise;
      for i := 0 to RX_SAMP_OUT_SIZE
        invariant Wired() && burstTimer.Repr == old(burstTimer.Repr) && |burstTimer.trace| == MAX_MMDVM_CHANNELS
        invariant |answers| == i && GrownBy(j, samples[..i], answers, quantised[..i], start, Mid(j))
      {
        ghost var mid := Mid(j);
        NextSample(timestamp, output, symbolDeviation, i);
        ghost var answer := ReceiveSample(i, j, output[i]);
        GrownByMore(j, samples[..i], answers, quantised[..i], start, mid, Sample(i == 0), answer,
                    Quantise(output[i], symbolDeviation), Mid(j));
        answers := answers + [answer];
      }
      assert samples[..RX_SAMP_OUT_SIZE] == samples && quantised[..RX_SAMP_OUT_SIZE] == quantised;
    }

    /** The timer of a block, and its power reading: the strongest of a packet is kept. */
    method StartBlock(j: nat, timestamp: int, power: Word)
      requires Wired() && j < activeChannels
      modifies rssi, burstTimer.Repr
      ensures Wired() && burstTimer.Repr == old(burstTimer.Repr)
      ensures burstTimer.trace == old(burstTimer.trace)[j := old(burstTimer.trace[j]) + [Timer(timestamp)]]
      ensures |burstTimer.trace| == MAX_MMDVM_CHANNELS
      ensures burstTimer.History(j).answers == old(burstTimer.History(j).answers)
      ensures rssi[..] == old(rssi[..])[j := if power < old(rssi[j]) then power else old(rssi[j])]
    {
      RunSnoc(burstTimer.Cfg(), burstTimer.trace[j], Timer(timestamp));
      burstTimer.SetTimer(timestamp, j);
      hide Run;
      if power < rssi[j] {
        rssi[j] := power;
      }
    }

    /** One channel's block under the lock. */
    method ReceiveChannel(j: nat, timestamp: int, output: seq<real>, power: Word) returns (ghost b: BlockIn)
      requires Wired() && j < activeChannels && |output| == RX_SAMP_OUT_SIZE
      modifies rssi, controlBuf, sampleBuf, burstTimer.Repr
      ensures Wired() && burstTimer.Repr == old(burstTimer.Repr)
      ensures |burstTimer.trace| == |old(burstTimer.trace)| == MAX_MMDVM_CHANNELS
      ensures SameElsewhere(j, old(burstTimer.trace), burstTimer.trace)
      ensures SameElsewhere(j, old(Streams()), Streams())
      ensures Pushed(burstTimer.Cfg(), j, timestamp, old(Snap()), Snap(),
                     Given(QuantiseAll(output, symbolDeviation), power), b)
    {
      ghost var base, r0, before := burstTimer.trace[j], rssi[..], burstTimer.trace;
      hide Run, Pushed, SameElsewhere, GrownBy, DMRTiming.Valid;
      StartBlock(j, timestamp, power);
      ghost var mid := Mid(j);
      assert mid.trace[j := base] == before;
      ghost var answers := ReceiveSamples(j, timestamp, output);
      b := BlockIsPush(burstTimer.Cfg(), j, timestamp, mid, Mid(j), base, r0, rssi[..], sent[..], answers,
                       QuantiseAll(output, symbolDeviation), power);
    }

    /** A full buffer becomes a datagram if the channel's clock has been initialised, and is erased either way. */
    method FlushChannel(j: nat) returns (ghost flushed: Stream)
      requires Wired() && j < activeChannels && |controlBuf[j]| == |sampleBuf[j]|
      modifies rssi, controlBuf, sampleBuf, sent
      ensures flushed == Flush(old(StreamOf(j)), burstTimer.History(j).channel.initialized)
      ensures controlBuf[..] == old(controlBuf[..])[j := flushed.controls]
      ensures sampleBuf[..] == old(sampleBuf[..])[j := flushed.samples]
      ensures rssi[..] == old(rssi[..])[j := flushed.rssi]
      ensures sent[..] == old(sent[..])[j := flushed.sent]
    {
      flushed := Flush(StreamOf(j), burstTimer.History(j).channel.initialized);
      FlushCases(StreamOf(j), burstTimer.History(j).channel.initialized);
      hide Run, Encode, DMRTiming.Valid, Flush;
      if |sampleBuf[j]| >= SAMPLES_PER_SLOT {
        var initialized := burstTimer.GetInit(j);
        if initialized {
          var reply := Encode(rssi[j], Packet(controlBuf[j][..SAMPLES_PER_SLOT], sampleBuf[j][..SAMPLES_PER_SLOT]));
          sent[j] := sent[j] + [reply];
        }
        sampleBuf[j] := sampleBuf[j][SAMPLES_PER_SLOT..];
        controlBuf[j] := controlBuf[j][SAMPLES_PER_SLOT..];
        rssi[j] := NO_RSSI;
      }
    }

    /** The stretch under the timing lock: every active channel receives its part of the block. */
    method ReceiveAll(timestamp: int, outputs: seq<seq<real>>, powers: seq<Word>) returns (ghost ins: seq<BlockIn>)
      requires Valid() && |outputs| == |powers| == activeChannels
      requires forall c :: 0 <= c < activeChannels ==> |outputs[c]| == RX_SAMP_OUT_SIZE
      modifies rssi, controlBuf, sampleBuf, burstTimer.Repr
      ensures Wired() && burstTimer.Repr == old(burstTimer.Repr)
      ensures PushedUpTo(burstTimer.Cfg(), activeChannels, timestamp, old(Snap()), Snap(),
                         GivenTo(outputs, powers, symbolDeviation), ins)
      ensures |ins| == activeChannels && |burstTimer.trace| == MAX_MMDVM_CHANNELS
    {
      ghost var before, given := Snap(), GivenTo(outputs, powers, symbolDeviation);
      ins := [];
      assert |before.trace| == MAX_MMDVM_CHANNELS;
      assert PushedUpTo(burstTimer.Cfg(), 0, timestamp, before, Snap(), given, ins);
      hide DMRTiming.Valid, PushedUpTo, Pushed, StreamsFrom, SameElsewhere, Run;
      for j := 0 to activeChannels
        invariant Wired() && burstTimer.Repr == old(burstTimer.Repr)
        invariant PushedUpTo(burstTimer.Cfg(), j, timestamp, before, Snap(), given, ins)
      {
        ghost var mid := Snap();
        ghost var b := ReceiveChannel(j, timestamp, outputs[j], powers[j]);
        PushedOneMore(burstTimer.Cfg(), j, timestamp, before, mid, Snap(), given, ins, b);
        ins := ins + [b];
      }
    }

    method FlushAll(ghost ins: seq<BlockIn>)
      requires Wired() && |ins| == activeChannels
      requires forall c :: 0 <= c < activeChannels ==>
                 |controlBuf[c]| == |sampleBuf[c]| && ins[c].initialized == burstTimer.History(c).channel.initialized
      modifies rssi, controlBuf, sampleBuf, sent
      ensures Wired() && FlushedUpTo(activeChannels, old(Streams()), Streams(), ins)
    {
      ghost var before := Streams();
      hide StreamsFrom, Run, DMRTiming.Valid, Flush, FlushedUpTo;
      FlushedNone(before, ins);
      for j := 0 to activeChannels
        invariant Wired() && FlushedUpTo(j, before, Streams(), ins)
      {
        ghost var mid, c, s, r, t := Streams(), controlBuf[..], sampleBuf[..], rssi[..], sent[..];
        FlushedNext(j, before, mid, ins);
        assert StreamOf(j) == mid[j];
        ghost var flushed := FlushChannel(j);
        StreamsUpdate(c, s, r, t, j, flushed);
        FlushedOneMore(j, before, mid, ins, flushed);
      }
    }

    /**
     * One iteration: a short read is dropped whole; a full block is one
     * command of the step machine, stamped by the device or, without a
     * hardware stamp, by the simulated clock that then moves on.
     */
    method ReceiveBlock(ret: int, hasTime: bool, timeNs: int, outputs: seq<seq<real>>, powers: seq<Word>,
                        ghost cmds: seq<Command>)
      returns (accepted: bool, timestamp: int)
      requires Valid() && Follows(burstTimer.trace, activeChannels, cmds) && |outputs| == |powers| == activeChannels
      requires forall c :: 0 <= c < activeChannels ==> |outputs[c]| == RX_SAMP_OUT_SIZE
      modifies this`readTime, this`blocks, rssi, controlBuf, sampleBuf, sent, burstTimer.Repr
      ensures Valid() && burstTimer.Repr == old(burstTimer.Repr)
      ensures accepted <==> ret == RX_INTERP_IN_SIZE * pfbChannels
      ensures !accepted ==>
                Follows(burstTimer.trace, activeChannels, cmds) && blocks == old(blocks) && readTime == old(readTime)
      ensures accepted ==>
                && Follows(burstTimer.trace, activeChannels, cmds + [Block(timestamp)])
                && timestamp == (if timestamping && hasTime then timeNs else old(readTime))
                && readTime == old(readTime) +
                               (if timestamping && hasTime then 0 else RX_SAMP_OUT_SIZE * TIME_PER_SAMPLE)
                && Took(old(blocks), outputs, powers)
    {
      accepted := false;
      timestamp := timeNs;
      if ret <= 0 {
        return;
      }
      if ret != RX_INTERP_IN_SIZE * pfbChannels {
        return;
      }
      accepted := true;
      if !timestamping || !hasTime {
        timestamp := readTime;
      }
      hide Project, DMRTiming.Valid, Valid;
      var step := 0;
      if !timestamping || !hasTime {
        SimulatedStepIsExact(pfbChannels);
        step := ReadTimeStep(ret, pfbChannels);
      }
      hide ReadTimeStep;
      AcceptBlock(timestamp, step, outputs, powers);
      ProjectBlock(cmds, timestamp);
    }

    /** Every active channel has one block more: the samples and power it was handed. */
    ghost predicate Took(before: seq<seq<BlockIn>>, outputs: seq<seq<real>>, powers: seq<Word>)
      requires Wired() && |outputs| == |powers| == activeChannels
      reads this, burstTimer, burstTimer.Repr
    {
      && |before| == |blocks| == MAX_MMDVM_CHANNELS && |burstTimer.trace| == MAX_MMDVM_CHANNELS
      && forall c :: 0 <= c < activeChannels ==>
           TookBlock(before[c], blocks[c], GivenTo(outputs, powers, symbolDeviation)[c],
                     burstTimer.History(c).channel.initialized)
    }

    /** What a full block does: the lock, the simulated clock's step, if any, and packetisation. */
    method AcceptBlock(timestamp: int, step: nat, outputs: seq<seq<real>>, powers: seq<Word>)
      requires Valid() && |outputs| == |powers| == activeChannels
      requires forall c :: 0 <= c < activeChannels ==> |outputs[c]| == RX_SAMP_OUT_SIZE
      modifies this`readTime, this`blocks, rssi, controlBuf, sampleBuf, sent, burstTimer.Repr
      ensures Valid() && burstTimer.Repr == old(burstTimer.Repr) && readTime == old(readTime) + step
      ensures Took(old(blocks), outputs, powers)
      ensures forall c :: 0 <= c < activeChannels ==>
                burstTimer.trace[c] == old(burstTimer.trace[c]) + BlockEvents(timestamp)
    {
      assert |burstTimer.trace| == MAX_MMDVM_CHANNELS;
      ghost var before := Snap();
      forall c | 0 <= c < activeChannels
        ensures AgreeIn(before, c)
      {
        assert InStep(c);
      }
      hide DMRTiming.Valid, Run, StreamsFrom, PushedUpTo, Agree, BlockEvents, AgreeIn, GivenTo, TookBlock;
      ghost var ins := ReceiveAll(timestamp, outputs, powers);
      FinishBlock(timestamp, step, before, GivenTo(outputs, powers, symbolDeviation), ins);
    }

    /** Channel c's stream and blocks agreed in the state `before`. */
    ghost predicate AgreeIn(before: Reception, c: nat)
      reads this
    {
      && c < |blocks| && c < |before.streams| && c < |before.trace|
      && var h := Run(burstTimer.Cfg(), before.trace[c]);
         Agree(before.streams[c], blocks[c], h.answers, h.channel.initialized)
    }

    /** After the lock: packetise, and record what each channel received. */
    method FinishBlock(timestamp: int, step: nat, ghost before: Reception, ghost given: seq<Given>,
                       ghost ins: seq<BlockIn>)
      requires Wired() && |ins| == |given| == activeChannels && |blocks| == MAX_MMDVM_CHANNELS
      requires PushedUpTo(burstTimer.Cfg(), activeChannels, timestamp, before, Snap(), given, ins)
      requires forall c :: 0 <= c < activeChannels ==> AgreeIn(before, c)
      modifies this`readTime, this`blocks, rssi, controlBuf, sampleBuf, sent
      ensures Valid() && readTime == old(readTime) + step
      ensures |burstTimer.trace| == |before.trace| == MAX_MMDVM_CHANNELS
      ensures forall c :: 0 <= c < activeChannels ==>
                && burstTimer.trace[c] == before.trace[c] + BlockEvents(timestamp)
                && TookBlock(old(blocks[c]), blocks[c], given[c], burstTimer.History(c).channel.initialized)
    {
      ghost var mid, blocks0 := Snap(), blocks;
      assert |mid.trace| == |before.trace| == MAX_MMDVM_CHANNELS;
      hide DMRTiming.Valid, Run, StreamsFrom, PushedUpTo, FlushedUpTo, Agree, BlockEvents;
      forall c | 0 <= c < activeChannels
        ensures |controlBuf[c]| == |sampleBuf[c]|
        ensures burstTimer.trace[c] == before.trace[c] + BlockEvents(timestamp)
        ensures ins[c] == BlockIn(ins[c].controls, given[c].samples, given[c].power,
                                  burstTimer.History(c).channel.initialized)
      {
        assert AgreeIn(before, c);
        AgreeLengths(before.streams[c], blocks[c], Run(burstTimer.Cfg(), before.trace[c]).answers,
                     Run(burstTimer.Cfg(), before.trace[c]).channel.initialized);
        AfterPush(burstTimer.Cfg(), timestamp, before, mid, given, ins, c);
        assert mid.streams[c] == StreamOf(c);
      }
      readTime := readTime + step;
      FlushAll(ins);
      blocks := Appended(blocks0, ins);
      forall c | 0 <= c < activeChannels
        ensures InStep(c)
      {
        assert old(AgreeIn(before, c));
        OneMoreBlock(burstTimer.Cfg(), c, timestamp, before, mid, Streams(), given, ins, blocks0[c]);
      }
    }
  }

  lemma FlushCases(s: Stream, initialized: bool)
    requires |s.controls| == |s.samples|
    ensures |s.samples| < SAMPLES_PER_SLOT ==> Flush(s, initialized) == s
    ensures |s.samples| >= SAMPLES_PER_SLOT ==>
              var packet := Packet(s.controls[..SAMPLES_PER_SLOT], s.samples[..SAMPLES_PER_SLOT]);
              Flush(s, initialized) == Stream(s.controls[SAMPLES_PER_SLOT..], s.samples[SAMPLES_PER_SLOT..], NO_RSSI,
                                              if initialized then s.sent + [Encode(s.rssi, packet)] else s.sent)
  {
    hide Encode;
  }

  lemma ProjectBlock(cmds: seq<Command>, timestamp: int)
    ensures forall c: nat :: Project(cmds + [Block(timestamp)], c) == Project(cmds, c) + BlockEvents(timestamp)
  {
    assert (cmds + [Block(timestamp)])[..|cmds|] == cmds;
  }

  ghost function Appended(blocks: seq<seq<BlockIn>>, ins: seq<BlockIn>): (r: seq<seq<BlockIn>>)
    requires |ins| <= |blocks|
    ensures |r| == |blocks|
    ensures forall c :: 0 <= c < |ins| ==> r[c] == blocks[c] + [ins[c]]
  {
    seq(|blocks|, c requires 0 <= c < |blocks| => if c < |ins| then blocks[c] + [ins[c]] else blocks[c])
  }
}

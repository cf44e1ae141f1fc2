/**
 * The transmitter thread's state and the two atomic halves of one iteration
 * of its loop: Prepare, up to the sleep, and Transmit, from the timing lock
 * on. The receiver may run between them. Network messages are what the
 * socket read returned for each channel.
 */
module TransmitterThread {
  import opened Constants
  import opened SlotChannel
  import opened SlotHistory
  import opened StepMachine
  import opened TransmitPlan
  import opened TransmitTime
  import opened DmrTiming
  import opened Packets
  import opened Pacing

  /** What a message adds to a channel's control buffer. */
  function ControlsOf(message: seq<Byte>): seq<nat> {
    match Parse(message)
    case None => []
    case Some(p) => p.controls
  }

  lemma PacketSizes(message: seq<Byte>)
    requires Parse(message).Some?
    ensures |Parse(message).value.controls| == |Parse(message).value.samples| == SAMPLES_PER_SLOT
  {
  }

  /** A message adds a whole slot to both buffers or nothing. */
  lemma PacketLengths(message: seq<Byte>, symbolDeviation: real)
    ensures |FloatsOf(message, symbolDeviation)| == |ControlsOf(message)|
    ensures |ControlsOf(message)| == 0 || |ControlsOf(message)| == SAMPLES_PER_SLOT
  {
  }

  function ToFloat(data: Int16, symbolDeviation: real): real {
    data as real * symbolDeviation / 32767.0
  }

  function FloatsOf(message: seq<Byte>, symbolDeviation: real): seq<real> {
    match Parse(message)
    case None => []
    case Some(p) => seq(|p.samples|, i requires 0 <= i < |p.samples| => ToFloat(p.samples[i], symbolDeviation))
  }

  /**
   * What the source does with a message, byte by byte: 2164 bytes that open
   * with the count 720 fill both buffers, anything else adds nothing.
   */
  ghost predicate Buffered(m: seq<Byte>, symbolDeviation: real, controls: seq<nat>, samples: seq<real>) {
    if |m| == 2164 && CarriesWord(m, 0, 720) then
      && |controls| == |samples| == 720
      && forall i :: 0 <= i < 720 ==> BufferedAt(m, symbolDeviation, controls, samples, i)
    else controls == [] && samples == []
  }

  ghost predicate BufferedAt(m: seq<Byte>, symbolDeviation: real, controls: seq<nat>, samples: seq<real>, i: nat)
    requires |m| == 2164 && |controls| == |samples| == 720 && i < 720
  {
    && controls[i] == m[4 + i]
    && samples[i] == Signed(m[724 + 2 * i], m[725 + 2 * i]) as real * symbolDeviation / 32767.0
  }

  lemma MessageIsBuffered(m: seq<Byte>, symbolDeviation: real)
    ensures Buffered(m, symbolDeviation, ControlsOf(m), FloatsOf(m, symbolDeviation))
  {
    AcceptedIff(m);
    var controls, floats := ControlsOf(m), FloatsOf(m, symbolDeviation);
    if Parse(m).Some? {
      PacketSizes(m);
      forall i | 0 <= i < 720
        ensures BufferedAt(m, symbolDeviation, controls, floats, i)
      {
        hide Parse, Signed;
        AcceptedBytes(m, i);
      }
    }
    hide Parse, CarriesWord, BufferedAt;
  }

  /** Every packet the Receiver can send comes back as its control bytes and its scaled samples. */
  lemma PacketIsBuffered(rssi: Word, p: Packet, symbolDeviation: real, i: nat)
    requires FullPacket(p) && i < 720
    ensures |Encode(rssi, p)| == 2168
    ensures var m := DropRssi(Encode(rssi, p));
            && ControlsOf(m) == p.controls && |FloatsOf(m, symbolDeviation)| == 720
            && FloatsOf(m, symbolDeviation)[i] == p.samples[i] as real * symbolDeviation / 32767.0
  {
    hide Parse, Encode, DropRssi;
    LayoutRoundTrip(rssi, p);
  }

  /** A byte 0x08 or 0x04, and no other, is a mark: of slot 1 or 2, at its place in the control bytes. */
  lemma MarksFromBytes(m: seq<Byte>, k: nat)
    requires |m| == 2164 && CarriesWord(m, 0, 720) && k < 720
    ensures Planned(1, k) in MarksIn(ControlsOf(m)) <==> m[4 + k] == 0x08
    ensures Planned(2, k) in MarksIn(ControlsOf(m)) <==> m[4 + k] == 0x04
  {
    var controls := ControlsOf(m);
    MessageIsBuffered(m, 1.0);
    assert BufferedAt(m, 1.0, controls, FloatsOf(m, 1.0), k);
    hide ControlsOf, FloatsOf, MarksIn, CarriesWord;
    if MarkOf(controls[k]) != 0 {
      var i := MarksInComplete(controls, k);
      MarksInSound(controls, i);
      assert MarksIn(controls)[i] in MarksIn(controls);
    }
    forall no: SlotNo | Planned(no, k) in MarksIn(controls)
      ensures MarkOf(controls[k]) == no
    {
      var i :| 0 <= i < |MarksIn(controls)| && MarksIn(controls)[i] == Planned(no, k);
      MarksInSound(controls, i);
    }
  }

  /** The plans of a pass over the given buffers. */
  ghost function PlansFor(sn: seq<SlotNo>, controls: seq<seq<nat>>): (plans: seq<seq<Planned>>)
    requires |sn| == |controls|
    ensures |plans| == |sn|
    ensures forall c :: 0 <= c < |sn| ==> plans[c] == PlanFor(sn[c], controls[c])
  {
    seq(|sn|, c requires 0 <= c < |sn| => PlanFor(sn[c], controls[c]))
  }

  /** The sentinel continues from a time found earlier in the pass. */
  function Latch(timeNs: int, times: seq<int>): int {
    if timeNs != 0 then timeNs else FirstNonzero(times)
  }

  /** One more allocation of a pass, in every quantity the pass accumulates. */
  lemma PlanGrows(cfg: Config, base: seq<Event>, plan: seq<Planned>, p: Planned, correction: int, timeNs: int)
    ensures var ch := Run(cfg, base).channel;
            var before := Run(cfg, base + PassEvents(plan)).channel;
            var after := Run(cfg, base + PassEvents(plan) + [Allocate(p.no)]).channel;
            && base + PassEvents(plan + [p]) == base + PassEvents(plan) + [Allocate(p.no)]
            && CorrectionAfter(cfg, ch, plan + [p], correction)
            == NextCorrection(before, CorrectionAfter(cfg, ch, plan, correction))
            && Latch(timeNs, PassTimes(cfg, ch, plan + [p]))
            == var t := Latch(timeNs, PassTimes(cfg, ch, plan));
               if t == 0 then after.lastSlot + cfg.rfDelay - p.position * TIME_PER_SAMPLE else t
  {
    var more := plan + [p];
    var h := Run(cfg, base);
    assert more[..|plan|] == plan;
    assert PassEvents(more) == PassEvents(plan) + [Allocate(p.no)];
    assert base + PassEvents(more) == base + PassEvents(plan) + [Allocate(p.no)];
    RunAppend(cfg, START, base, PassEvents(plan));
    RunAppend(cfg, START, base, PassEvents(more));
    PassIsAllocateAll(cfg, h, plan);
    PassIsAllocateAll(cfg, h, more);
    var times := PassTimes(cfg, h.channel, more);
    assert times[..|times| - 1] == PassTimes(cfg, h.channel, plan);
  }

  lemma LatchIsGate(cfg: Config, active: nat, cmds: seq<Command>, c: nat)
    requires Legal(active, cmds) && c < active
    ensures Run(cfg, Project(cmds, c)).channel.initialized <==> Gate(cmds)
  {
    BlockClock(cfg, active, cmds, c);
  }

  lemma MarksInSnoc(controls: seq<nat>, j: nat)
    requires j < |controls|
    ensures MarksIn(controls[..j + 1]) == MarksIn(controls[..j]) + MarkPlan(controls[j], j)
  {
    assert controls[..j + 1][..j] == controls[..j];
  }

  class Transmitter {
    const activeChannels: nat
    const symbolDeviation: real
    const burstTimer: DMRTiming
    const sn: array<SlotNo>
    const controlBuf: array<seq<nat>>
    const sampleBuf: array<seq<real>>

    var timingInit: bool
    var tx: bool
    var timingCorrection: int

    /** The last setTx the device was given. */
    var deviceTx: bool

    ghost predicate Wired()
      reads this, burstTimer, burstTimer.Repr
    {
      && 1 <= activeChannels <= MAX_MMDVM_CHANNELS
      && sn.Length == controlBuf.Length == sampleBuf.Length == MAX_MMDVM_CHANNELS
      && burstTimer.Valid() && {this, sn, controlBuf, sampleBuf} !! burstTimer.Repr
      && timingCorrection >= 0
    }

    ghost predicate LengthsAgree()
      requires Wired()
      reads this, controlBuf, sampleBuf, burstTimer, burstTimer.Repr
    {
      forall c :: 0 <= c < activeChannels ==> |sampleBuf[c]| == |controlBuf[c]|
    }

    ghost predicate Valid()
      reads this, controlBuf, sampleBuf, burstTimer, burstTimer.Repr
    {
      && Wired()
      && LengthsAgree()
      && (if timingInit then deviceTx == tx else !tx)
    }

    /** No channel holds samples: the state between passes. */
    ghost predicate Drained()
      requires controlBuf.Length == MAX_MMDVM_CHANNELS >= activeChannels
      reads controlBuf
    {
      forall c :: 0 <= c < activeChannels ==> controlBuf[c] == []
    }

    /** Each channel holds one whole packet or nothing: the state in which marks are scanned. */
    ghost predicate Loaded()
      requires controlBuf.Length == MAX_MMDVM_CHANNELS >= activeChannels
      reads controlBuf
    {
      forall c :: 0 <= c < activeChannels ==> |controlBuf[c]| == 0 || |controlBuf[c]| == SAMPLES_PER_SLOT
    }

    constructor (burstTimer: DMRTiming, activeChannels: nat, symbolDeviation: real)
      requires burstTimer.Valid() && 1 <= activeChannels <= MAX_MMDVM_CHANNELS
      ensures Valid() && Drained() && !timingInit && !tx && timingCorrection == 0
      ensures this.burstTimer == burstTimer && this.activeChannels == activeChannels
      ensures this.symbolDeviation == symbolDeviation
      ensures fresh(this) && fresh(sn) && fresh(controlBuf) && fresh(sampleBuf)
      ensures forall c :: 0 <= c < activeChannels ==> sn[c] == 1
    {
      this.burstTimer, this.activeChannels, this.symbolDeviation := burstTimer, activeChannels, symbolDeviation;
      sn := new SlotNo[MAX_MMDVM_CHANNELS](_ => 1);
      controlBuf := new seq<nat>[MAX_MMDVM_CHANNELS](_ => []);
      sampleBuf := new seq<real>[MAX_MMDVM_CHANNELS](_ => []);
      timingInit, tx, timingCorrection, deviceTx := false, false, 0, false;
    }

    method NextSlot(channel: nat)
      requires channel < sn.Length
      modifies sn
      ensures sn[..] == old(sn[..])[channel := Other(old(sn[channel]))]
    {
      if sn[channel] == 2 {
        sn[channel] := 1;
      } else {
        sn[channel] := 2;
      }
    }

    /** Only channel 0 writes the correction. */
    ghost function CorrectionOf(i: nat, ch: Channel, plan: seq<Planned>, correction: int): int {
      if i == 0 then CorrectionAfter(burstTimer.Cfg(), ch, plan, correction) else correction
    }

    /** What a pass has done on channel i, from calls `base` on, when its plan so far is `plan`. */
    ghost predicate PassedSoFar(i: nat, base: seq<Event>, plan: seq<Planned>, t0: int, correction: int, time: int)
      reads this, burstTimer
    {
      var ch := Run(burstTimer.Cfg(), base).channel;
      && i < |burstTimer.trace|
      && burstTimer.trace[i] == base + PassEvents(plan)
      && time == Latch(t0, PassTimes(burstTimer.Cfg(), ch, plan))
      && timingCorrection == CorrectionOf(i, ch, plan, correction)
    }

    /** One allocation with its transmit time; the first nonzero time of a pass is kept. */
    method Allocate(p: Planned, i: nat, timeNs: int, ghost base: seq<Event>, ghost plan: seq<Planned>,
                    ghost t0: int, ghost correction: int)
      returns (time: int)
      requires Wired() && i < activeChannels && PassedSoFar(i, base, plan, t0, correction, timeNs)
      modifies this`timingCorrection, burstTimer.Repr
      ensures Wired() && fresh(burstTimer.Repr - old(burstTimer.Repr))
      ensures PassedSoFar(i, base, plan + [p], t0, correction, time)
      ensures SameExcept(i, old(burstTimer.trace), burstTimer.trace)
    {
      hide Run, PassTimes, PassEvents, CorrectionAfter;
      PlanGrows(burstTimer.Cfg(), base, plan, p, correction, t0);
      var nsec, next := burstTimer.AllocateSlot(p.no, timingCorrection, i);
      timingCorrection := next;
      time := timeNs;
      if time == 0 {
        time := nsec - p.position * TIME_PER_SAMPLE;
      }
    }

    /** A mark found at position j sets the channel's slot number and allocates that slot. */
    method ScanByte(j: nat, i: nat, timeNs: int, ghost base: seq<Event>, ghost plan: seq<Planned>,
                    ghost t0: int, ghost correction: int)
      returns (time: int, found: bool)
      requires Wired() && i < activeChannels && j < |controlBuf[i]|
      requires PassedSoFar(i, base, plan, t0, correction, timeNs)
      modifies this`timingCorrection, sn, burstTimer.Repr
      ensures Wired() && fresh(burstTimer.Repr - old(burstTimer.Repr))
      ensures PassedSoFar(i, base, plan + MarkPlan(controlBuf[i][j], j), t0, correction, time)
      ensures SameExcept(i, old(burstTimer.trace), burstTimer.trace)
      ensures found == (MarkPlan(controlBuf[i][j], j) != [])
      ensures Renumbered(i, old(sn[..]), sn[..], MarkPlan(controlBuf[i][j], j))
    {
      hide PassedSoFar, DMRTiming.Valid;
      time, found := timeNs, false;
      var control := controlBuf[i][j];
      if control == MARK_SLOT1 {
        found := true;
        sn[i] := 1;
        time := Allocate(Planned(1, j), i, time, base, plan, t0, correction);
      } else if control == MARK_SLOT2 {
        found := true;
        sn[i] := 2;
        time := Allocate(Planned(2, j), i, time, base, plan, t0, correction);
      } else {
        assert plan + [] == plan;
      }
    }

    /** The scan of a channel's control bytes: one allocation for each mark, at its position. */
    method ScanMarks(i: nat, timeNs: int) returns (time: int, chanTiming: bool)
      requires Wired() && i < activeChannels
      modifies this`timingCorrection, sn, burstTimer.Repr
      ensures Wired() && fresh(burstTimer.Repr - old(burstTimer.Repr))
      ensures PassedSoFar(i, old(burstTimer.trace[i]), MarksIn(controlBuf[i]), timeNs, old(timingCorrection), time)
      ensures SameExcept(i, old(burstTimer.trace), burstTimer.trace)
      ensures chanTiming == (MarksIn(controlBuf[i]) != [])
      ensures Renumbered(i, old(sn[..]), sn[..], MarksIn(controlBuf[i]))
    {
      ghost var base, correction, controls := burstTimer.trace[i], timingCorrection, controlBuf[i];
      time, chanTiming := timeNs, false;
      assert base + PassEvents([]) == base && controls[..0] == [];
      assert PassedSoFar(i, base, MarksIn(controls[..0]), timeNs, correction, time);
      ghost var trace0, sn0 := burstTimer.trace, sn[..];
      assert Renumbered(i, sn0, sn[..], MarksIn(controls[..0]));
      hide PassedSoFar, DMRTiming.Valid, MarksIn, MarkPlan, SameExcept, Renumbered;
      for j := 0 to |controlBuf[i]|
        invariant Wired() && fresh(burstTimer.Repr - old(burstTimer.Repr))
        invariant PassedSoFar(i, base, MarksIn(controls[..j]), timeNs, correction, time)
        invariant SameExcept(i, trace0, burstTimer.trace)
        invariant chanTiming == (MarksIn(controls[..j]) != [])
        invariant Renumbered(i, sn0, sn[..], MarksIn(controls[..j]))
      {
        MarksInSnoc(controls, j);
        ghost var trace1, sn1 := burstTimer.trace, sn[..];
        var t, found := ScanByte(j, i, time, base, MarksIn(controls[..j]), timeNs, correction);
        SameExceptTwice(i, trace0, trace1, burstTimer.trace);
        RenumberedTwice(i, sn0, sn1, sn[..], MarksIn(controls[..j]), MarkPlan(controls[j], j));
        time := t;
        chanTiming := chanTiming || found;
      }
      assert controls[..|controls|] == controls;
    }

    /** Everything a pass does for one channel under the timing lock. */
    method AllocateChannel(i: nat, timeNs: int) returns (time: int, idle: bool)
      requires Wired() && i < activeChannels && |sampleBuf[i]| == |controlBuf[i]|
      modifies this`timingCorrection, sn, controlBuf, sampleBuf, burstTimer.Repr
      ensures Wired() && fresh(burstTimer.Repr - old(burstTimer.Repr))
      ensures PassedSoFar(i, old(burstTimer.trace[i]), PlanFor(old(sn[i]), old(controlBuf[i])), timeNs,
                          old(timingCorrection), time)
      ensures SameExcept(i, old(burstTimer.trace), burstTimer.trace)
      ensures sn[..] == old(sn[..])[i := NextNumber(old(sn[i]), old(controlBuf[i]))]
      ensures idle == (old(controlBuf[i]) == [])
      ensures controlBuf[..] == old(controlBuf[..])[i := FilledControls(old(controlBuf[i]))]
      ensures sampleBuf[..] == old(sampleBuf[..])[i := FilledSamples(old(sampleBuf[i]))]
      ensures ControlsFor(controlBuf[i], old(controlBuf[i]))
      ensures |old(sampleBuf[i])| == 0 || |old(sampleBuf[i])| == 720 ==> SlotOf(sampleBuf[i], old(sampleBuf[i]))
    {
      FilledIsSlot(controlBuf[i], sampleBuf[i]);
      hide ControlsFor, SlotOf;
      ghost var base, correction := burstTimer.trace[i], timingCorrection;
      assert base + PassEvents([]) == base;
      assert PassedSoFar(i, base, [], timeNs, correction, timeNs);
      hide PassedSoFar, DMRTiming.Valid, MarksIn, FilledSamples, FilledControls;
      idle := false;
      var chanTiming := false;
      time := timeNs;
      if |sampleBuf[i]| < 1 {
        idle := true;
        MarksInNothing();
        time := AllocateIdle(i, time, base, correction);
        chanTiming := true;
      } else {
        FilledAlready(controlBuf[i], sampleBuf[i]);
        time, chanTiming := ScanMarks(i, time);
      }
      if !chanTiming {
        time := AllocateUnmarked(i, time, base, correction);
        chanTiming := true;
      }
    }

    /** A slot of silent, unmarked samples in front of an empty buffer. */
    method InsertSilence(i: nat)
      requires i < controlBuf.Length && i < sampleBuf.Length && controlBuf[i] == [] && sampleBuf[i] == []
      modifies controlBuf, sampleBuf
      ensures controlBuf[..] == old(controlBuf[..])[i := FilledControls([])]
      ensures sampleBuf[..] == old(sampleBuf[..])[i := FilledSamples([])]
    {
      sampleBuf[i] := seq(SAMPLES_PER_SLOT, _ => 0.0) + sampleBuf[i];
      controlBuf[i] := seq(SAMPLES_PER_SLOT, _ => MARK_NONE) + controlBuf[i];
      assert sampleBuf[i] == FilledSamples([]) && controlBuf[i] == FilledControls([]);
    }

    /** An idle channel transmits a slot of silence. */
    method AllocateIdle(i: nat, timeNs: int, ghost base: seq<Event>, ghost correction: int) returns (time: int)
      requires Wired() && i < activeChannels && controlBuf[i] == [] && sampleBuf[i] == []
      requires PassedSoFar(i, base, [], timeNs, correction, timeNs)
      modifies this`timingCorrection, sn, controlBuf, sampleBuf, burstTimer.Repr
      ensures Wired() && fresh(burstTimer.Repr - old(burstTimer.Repr))
      ensures PassedSoFar(i, base, [Planned(old(sn[i]), MMDVM_MARK_POSITION)], timeNs, correction, time)
      ensures SameExcept(i, old(burstTimer.trace), burstTimer.trace)
      ensures sn[..] == old(sn[..])[i := Other(old(sn[i]))]
      ensures controlBuf[..] == old(controlBuf[..])[i := FilledControls([])]
      ensures sampleBuf[..] == old(sampleBuf[..])[i := FilledSamples([])]
    {
      hide PassedSoFar, DMRTiming.Valid, FilledSamples, FilledControls;
      InsertSilence(i);
      time := AllocateUnmarked(i, timeNs, base, correction);
    }

    /** An idle channel or a packet without marks takes the alternating slot, its mark at the start of the CACH. */
    method AllocateUnmarked(i: nat, timeNs: int, ghost base: seq<Event>, ghost correction: int) returns (time: int)
      requires Wired() && i < activeChannels
      requires PassedSoFar(i, base, [], timeNs, correction, timeNs)
      modifies this`timingCorrection, sn, burstTimer.Repr
      ensures Wired() && fresh(burstTimer.Repr - old(burstTimer.Repr))
      ensures PassedSoFar(i, base, [Planned(old(sn[i]), MMDVM_MARK_POSITION)], timeNs, correction, time)
      ensures SameExcept(i, old(burstTimer.trace), burstTimer.trace)
      ensures sn[..] == old(sn[..])[i := Other(old(sn[i]))]
    {
      hide PassedSoFar, DMRTiming.Valid;
      assert [] + [Planned(sn[i], MMDVM_MARK_POSITION)] == [Planned(sn[i], MMDVM_MARK_POSITION)];
      time := Allocate(Planned(sn[i], MMDVM_MARK_POSITION), i, timeNs, base, [], timeNs, correction);
      NextSlot(i);
    }

    ghost function Snap(time: int, idle: seq<bool>): Snapshot
      reads this, sn, controlBuf, sampleBuf, burstTimer
    {
      Snapshot(burstTimer.trace, sn[..], controlBuf[..], sampleBuf[..], timingCorrection, time, idle)
    }

    /** AllocateChannel, with its contract as a relation between snapshots. */
    method RecordChannel(i: nat, timeNs: int, ghost flags: seq<bool>) returns (time: int, idle: bool)
      requires Wired() && i < activeChannels && |sampleBuf[i]| == |controlBuf[i]|
      modifies this`timingCorrection, sn, controlBuf, sampleBuf, burstTimer.Repr
      ensures Wired() && fresh(burstTimer.Repr - old(burstTimer.Repr))
      ensures ChannelDone(burstTimer.Cfg(), i, old(Snap(timeNs, flags)), Snap(time, flags + [idle]))
    {
      hide PassedSoFar, PlanFor, NextNumber, FilledControls, FilledSamples;
      ghost var mid := Snap(timeNs, flags);
      assert |mid.trace| == MAX_MMDVM_CHANNELS;
      hide DMRTiming.Valid;
      time, idle := AllocateChannel(i, timeNs);
      ShowDone(i, mid, idle, time);
    }

    /** One more channel of the pass that started from `before`. */
    method PassChannel(i: nat, timeNs: int, channelIdle: seq<bool>, ghost before: Snapshot)
      returns (time: int, idle: bool)
      requires Wired() && i < activeChannels
      requires Progress(burstTimer.Cfg(), i, before, Snap(timeNs, channelIdle))
      requires EvenBuffers(activeChannels, before)
      modifies this`timingCorrection, sn, controlBuf, sampleBuf, burstTimer.Repr
      ensures Wired() && fresh(burstTimer.Repr - old(burstTimer.Repr))
      ensures Progress(burstTimer.Cfg(), i + 1, before, Snap(time, channelIdle + [idle]))
    {
      ghost var mid := Snap(timeNs, channelIdle);
      ProgressAhead(burstTimer.Cfg(), i, before, mid);
      hide Progress, ChannelDone, DMRTiming.Valid;
      assert |before.samples[i]| == |before.controls[i]|;
      time, idle := RecordChannel(i, timeNs, channelIdle);
      ProgressStep(burstTimer.Cfg(), i, before, mid, Snap(time, channelIdle + [idle]));
    }

    /** The scan of all active channels under the timing lock. */
    method AllocatePass() returns (timeNs: int, channelIdle: seq<bool>)
      requires Valid()
      modifies this`timingCorrection, sn, controlBuf, sampleBuf, burstTimer.Repr
      ensures Wired() && fresh(burstTimer.Repr - old(burstTimer.Repr))
      ensures Progress(burstTimer.Cfg(), activeChannels, old(Snap(0, [])), Snap(timeNs, channelIdle))
    {
      ghost var before := Snap(0, []);
      channelIdle := [];
      timeNs := 0;
      ProgressStart(burstTimer.Cfg(), before);
      assert EvenBuffers(activeChannels, before);
      hide Progress, DMRTiming.Valid, EvenBuffers, LengthsAgree;
      for i := 0 to activeChannels
        invariant Wired() && fresh(burstTimer.Repr - old(burstTimer.Repr))
        invariant Progress(burstTimer.Cfg(), i, before, Snap(timeNs, channelIdle))
      {
        var idle;
        timeNs, idle := PassChannel(i, timeNs, channelIdle, before);
        channelIdle := channelIdle + [idle];
      }
    }

    /** AllocateChannel's contract, read off the snapshots around it. */
    lemma ShowDone(i: nat, mid: Snapshot, idle: bool, time: int)
      requires Wired() && i < activeChannels && |mid.sn| == |mid.controls| == |mid.samples| == MAX_MMDVM_CHANNELS
      requires |mid.trace| == MAX_MMDVM_CHANNELS
      requires PassedSoFar(i, mid.trace[i], PlanFor(mid.sn[i], mid.controls[i]), mid.time, mid.correction, time)
      requires SameExcept(i, mid.trace, burstTimer.trace)
      requires sn[..] == mid.sn[i := NextNumber(mid.sn[i], mid.controls[i])]
      requires idle == (mid.controls[i] == [])
      requires controlBuf[..] == mid.controls[i := FilledControls(mid.controls[i])]
      requires sampleBuf[..] == mid.samples[i := FilledSamples(mid.samples[i])]
      ensures ChannelDone(burstTimer.Cfg(), i, mid, Snap(time, mid.idle + [idle]))
    {
    }

    method PushSample(control: nat, sample: real, j: nat)
      requires j < controlBuf.Length && j < sampleBuf.Length
      modifies controlBuf, sampleBuf
      ensures controlBuf[j] == old(controlBuf[j]) + [control] && sampleBuf[j] == old(sampleBuf[j]) + [sample]
      ensures forall c :: 0 <= c < controlBuf.Length && c != j ==> controlBuf[c] == old(controlBuf[c])
      ensures forall c :: 0 <= c < sampleBuf.Length && c != j ==> sampleBuf[c] == old(sampleBuf[c])
    {
      controlBuf[j] := controlBuf[j] + [control];
      sampleBuf[j] := sampleBuf[j] + [sample];
    }

    /** A whole packet is pushed sample by sample; any other message is passed over. */
    method PushPacket(message: seq<Byte>, j: nat)
      requires j < controlBuf.Length && j < sampleBuf.Length && controlBuf[j] == [] && sampleBuf[j] == []
      modifies controlBuf, sampleBuf
      ensures controlBuf[j] == ControlsOf(message) && sampleBuf[j] == FloatsOf(message, symbolDeviation)
      ensures forall c :: 0 <= c < controlBuf.Length && c != j ==> controlBuf[c] == old(controlBuf[c])
      ensures forall c :: 0 <= c < sampleBuf.Length && c != j ==> sampleBuf[c] == old(sampleBuf[c])
    {
      var parsed := Parse(message);
      hide Parse;
      if parsed.Some? {
        PacketSizes(message);
        var controls, data := parsed.value.controls, parsed.value.samples;
        ghost var floats := FloatsOf(message, symbolDeviation);
        for i := 0 to SAMPLES_PER_SLOT
          invariant controlBuf[j] == controls[..i] && sampleBuf[j] == floats[..i]
          invariant forall c :: 0 <= c < controlBuf.Length && c != j ==> controlBuf[c] == old(controlBuf[c])
          invariant forall c :: 0 <= c < sampleBuf.Length && c != j ==> sampleBuf[c] == old(sampleBuf[c])
        {
          PushSample(controls[i], ToFloat(data[i], symbolDeviation), j);
        }
        assert controls[..SAMPLES_PER_SLOT] == controls && floats[..SAMPLES_PER_SLOT] == floats;
      }
    }

    method ReadNetwork(messages: seq<seq<Byte>>)
      requires Valid() && Drained() && |messages| == activeChannels
      modifies controlBuf, sampleBuf
      ensures Valid() && Loaded()
      ensures forall c :: 0 <= c < activeChannels ==>
                controlBuf[c] == ControlsOf(messages[c]) && sampleBuf[c] == FloatsOf(messages[c], symbolDeviation)
      ensures forall c :: 0 <= c < activeChannels ==>
                Buffered(messages[c], symbolDeviation, controlBuf[c], sampleBuf[c])
    {
      hide ControlsOf, FloatsOf, DMRTiming.Valid, Buffered;
      for j := 0 to activeChannels
        invariant forall c :: 0 <= c < j ==>
                    controlBuf[c] == ControlsOf(messages[c]) && sampleBuf[c] == FloatsOf(messages[c], symbolDeviation)
        invariant forall c :: j <= c < activeChannels ==> controlBuf[c] == [] && sampleBuf[c] == []
      {
        PushPacket(messages[j], j);
      }
      forall c | 0 <= c < activeChannels
        ensures |sampleBuf[c]| == |controlBuf[c]|
        ensures |controlBuf[c]| == 0 || |controlBuf[c]| == SAMPLES_PER_SLOT
        ensures Buffered(messages[c], symbolDeviation, controlBuf[c], sampleBuf[c])
      {
        PacketLengths(messages[c], symbolDeviation);
        MessageIsBuffered(messages[c], symbolDeviation);
      }
    }

    method AllInitialized() returns (hasTime: bool)
      requires Wired()
      ensures hasTime <==> forall c :: 0 <= c < activeChannels ==> burstTimer.History(c).channel.initialized
    {
      hide Run;
      hasTime := true;
      for i := 0 to activeChannels
        invariant hasTime <==> forall c :: 0 <= c < i ==> burstTimer.History(c).channel.initialized
      {
        var initialized := burstTimer.GetInit(i);
        if !initialized {
          hasTime := false;
          break;
        }
      }
    }

    /** The timing gate: opens once every active channel's clock has been set past four slots. */
    method CheckGate(ghost cmds: seq<Command>)
      requires Valid() && Legal(activeChannels, cmds) && Follows(burstTimer.trace, activeChannels, cmds)
      modifies this`timingInit, this`deviceTx
      ensures Valid()
      ensures timingInit <==> old(timingInit) || Gate(cmds)
      ensures !old(timingInit) && timingInit ==> !deviceTx
    {
      if !timingInit {
        hide Gate, Run, DMRTiming.Valid, Legal, Project;
        var hasTime := AllInitialized();
        forall c | 0 <= c < activeChannels
          ensures burstTimer.History(c).channel.initialized <==> Gate(cmds)
        {
          LatchIsGate(burstTimer.Cfg(), activeChannels, cmds, c);
        }
        assert hasTime <==> burstTimer.History(0).channel.initialized;
        if hasTime {
          timingInit := true;
          deviceTx := false;
        }
      }
    }

    /**
     * The first half of an iteration: the gate, then, if it is open, the
     * network and the wait owed by the last pass.
     */
    method Prepare(messages: seq<seq<Byte>>, ghost cmds: seq<Command>) returns (ready: bool, sleep: int)
      requires Valid() && Drained() && |messages| == activeChannels
      requires Legal(activeChannels, cmds) && Follows(burstTimer.trace, activeChannels, cmds)
      requires timingInit ==> Gate(cmds)
      modifies this`timingInit, this`deviceTx, this`timingCorrection, controlBuf, sampleBuf
      ensures Valid() && ready == timingInit == Gate(cmds)
      ensures !ready ==> Drained() && sleep == 0 && timingCorrection == old(timingCorrection)
      ensures ready ==> Loaded() && sleep == old(timingCorrection) && timingCorrection == 0
      ensures ready ==> forall c :: 0 <= c < activeChannels ==>
                controlBuf[c] == ControlsOf(messages[c]) && sampleBuf[c] == FloatsOf(messages[c], symbolDeviation)
    {
      CheckGate(cmds);
      ready := timingInit;
      sleep := 0;
      if ready {
        ReadNetwork(messages);
        if timingCorrection > 0 {
          sleep := timingCorrection;
          timingCorrection := 0;
        }
      }
    }

    /** The carrier is on exactly while some channel is not idle; the device is told only of changes. */
    method SetTx(channelIdle: seq<bool>)
      requires |channelIdle| == activeChannels && deviceTx == tx
      modifies this`tx, this`deviceTx
      ensures tx == deviceTx == !(forall c :: 0 <= c < activeChannels ==> channelIdle[c])
    {
      var active := false;
      for i := 0 to activeChannels
        invariant !active && forall c :: 0 <= c < i ==> channelIdle[c]
        modifies {}
      {
        if !channelIdle[i] {
          active := true;
          break;
        }
      }
      if !tx && active {
        tx := true;
        deviceTx := true;
      } else if tx && !active {
        tx := false;
        deviceTx := false;
      }
    }

    /** Each channel gives up one slot of samples; what remains stays in its buffers. */
    method TakeSlots() returns (slots: seq<seq<real>>)
      requires Wired() && forall c :: 0 <= c < activeChannels ==> |sampleBuf[c]| == |controlBuf[c]| == SAMPLES_PER_SLOT
      modifies controlBuf, sampleBuf
      ensures slots == old(sampleBuf[..activeChannels])
      ensures forall c :: 0 <= c < activeChannels ==> controlBuf[c] == [] && sampleBuf[c] == []
    {
      slots := [];
      for i := 0 to activeChannels
        invariant slots == old(sampleBuf[..i])
        invariant forall c :: 0 <= c < i ==> controlBuf[c] == [] && sampleBuf[c] == []
        invariant forall c :: i <= c < activeChannels ==>
                    controlBuf[c] == old(controlBuf[c]) && sampleBuf[c] == old(sampleBuf[c])
      {
        assert old(sampleBuf[..i + 1]) == old(sampleBuf[..i]) + [sampleBuf[i]];
        if |sampleBuf[i]| >= SAMPLES_PER_SLOT {
          assert sampleBuf[i][..SAMPLES_PER_SLOT] == sampleBuf[i];
          slots := slots + [sampleBuf[i][..SAMPLES_PER_SLOT]];
          sampleBuf[i] := sampleBuf[i][SAMPLES_PER_SLOT..];
          controlBuf[i] := controlBuf[i][SAMPLES_PER_SLOT..];
        }
      }
    }

    /** The stretch of entry between taking and releasing the timing lock, as one command of the step machine. */
    method LockedPass(ghost cmds: seq<Command>, ghost before: Snapshot) returns (timeNs: int, channelIdle: seq<bool>)
      requires Valid() && before == Snap(0, []) && PassReady(activeChannels, cmds, before)
      modifies this`timingCorrection, sn, controlBuf, sampleBuf, burstTimer.Repr
      ensures Wired() && fresh(burstTimer.Repr - old(burstTimer.Repr))
      ensures PassCompleted(burstTimer.Cfg(), activeChannels, cmds, before, Snap(timeNs, channelIdle))
    {
      hide PassReady, Progress, PassCompleted;
      timeNs, channelIdle := AllocatePass();
      PassCompletes(burstTimer.Cfg(), activeChannels, cmds, before, Snap(timeNs, channelIdle));
    }

    /**
     * The second half of an iteration. `done` is the state in which the lock
     * is released: the pass the buffered packets ask for, completed. After
     * it the buffers end empty, each channel's slot handed on, and the
     * carrier is on unless every channel was idle.
     */
    method Transmit(ghost cmds: seq<Command>, ghost before: Snapshot)
      returns (timeNs: int, slots: seq<seq<real>>, ghost done: Snapshot)
      requires Valid() && timingInit && before == Snap(0, []) && PassReady(activeChannels, cmds, before)
      modifies this`timingCorrection, this`tx, this`deviceTx, sn, controlBuf, sampleBuf, burstTimer.Repr
      ensures Valid() && Drained() && fresh(burstTimer.Repr - old(burstTimer.Repr))
      ensures PassCompleted(burstTimer.Cfg(), activeChannels, cmds, before, done)
      ensures burstTimer.trace == done.trace && sn[..] == done.sn && timingCorrection == done.correction
      ensures timeNs == done.time && slots == done.samples[..activeChannels]
      ensures |slots| == activeChannels && forall c :: 0 <= c < activeChannels ==> SlotOf(slots[c], old(sampleBuf[c]))
      ensures tx <==> !(forall c :: 0 <= c < activeChannels ==> done.idle[c])
    {
      hide PassReady, DMRTiming.Valid, SlotOf;
      var channelIdle: seq<bool>;
      timeNs, channelIdle := LockedPass(cmds, before);
      done := Snap(timeNs, channelIdle);
      CompletedSizes(burstTimer.Cfg(), activeChannels, cmds, before, done);
      hide PassCompleted;
      slots := HandOn(channelIdle, done);
    }

    /** After the lock: the carrier, then one slot of every channel to the modulator. */
    method HandOn(channelIdle: seq<bool>, ghost done: Snapshot) returns (slots: seq<seq<real>>)
      requires Wired() && timingInit && deviceTx == tx && Sized(done) && |channelIdle| == activeChannels
      requires controlBuf[..] == done.controls && sampleBuf[..] == done.samples
      requires forall c :: 0 <= c < activeChannels ==> |done.samples[c]| == |done.controls[c]| == SAMPLES_PER_SLOT
      modifies this`tx, this`deviceTx, controlBuf, sampleBuf
      ensures Valid() && Drained()
      ensures slots == done.samples[..activeChannels]
      ensures tx <==> !(forall c :: 0 <= c < activeChannels ==> channelIdle[c])
    {
      hide DMRTiming.Valid;
      SetTx(channelIdle);
      slots := TakeSlots();
    }
  }

  lemma CompletedSizes(cfg: Config, active: nat, cmds: seq<Command>, s: Snapshot, t: Snapshot)
    requires PassReady(active, cmds, s) && PassCompleted(cfg, active, cmds, s, t)
    ensures Sized(s) && Sized(t) && active <= MAX_MMDVM_CHANNELS && |t.idle| == active
    ensures forall c :: 0 <= c < active ==> |t.samples[c]| == |t.controls[c]| == SAMPLES_PER_SLOT
    ensures forall c :: 0 <= c < active ==> SlotOf(t.samples[c], s.samples[c])
  {
    hide Legal, Gate, Project, PlansFor, TimeNs, Correction, FilledSamples, SlotOf, NextNumber;
    forall c | 0 <= c < active
      ensures SlotOf(t.samples[c], s.samples[c])
    {
      FilledIsSlot(s.controls[c], s.samples[c]);
    }
  }

  lemma PassFills(cfg: Config, active: nat, cmds: seq<Command>, s: Snapshot, t: Snapshot)
    requires PassReady(active, cmds, s) && Progress(cfg, active, s, t)
    ensures Sized(s) && Sized(t) && 1 <= active <= MAX_MMDVM_CHANNELS
    ensures forall c :: 0 <= c < active ==>
              && |t.samples[c]| == |t.controls[c]| == SAMPLES_PER_SLOT
              && t.samples[c] == FilledSamples(s.samples[c])
              && t.sn[c] == NextNumber(s.sn[c], s.controls[c])
    ensures |t.idle| == active && forall c :: 0 <= c < active ==> t.idle[c] == (s.controls[c] == [])
  {
    hide Timed, Legal, Gate, Project, PlanFor, NextNumber, PassEvents;
    forall c | 0 <= c < active
      ensures |t.samples[c]| == |t.controls[c]| == SAMPLES_PER_SLOT
      ensures t.samples[c] == FilledSamples(s.samples[c]) && t.sn[c] == NextNumber(s.sn[c], s.controls[c])
    {
      assert Advanced(c, s, t);
    }
  }

  /** A pass as one more command: what the scheduler has seen, the timestamp, the correction, the filled buffers. */
  ghost predicate PassCompleted(cfg: Config, active: nat, cmds: seq<Command>, s: Snapshot, t: Snapshot) {
    && Sized(s) && Sized(t) && 1 <= active <= MAX_MMDVM_CHANNELS && |t.idle| == active
    && var plans := PlansFor(s.sn[..active], s.controls[..active]);
       && Legal(active, cmds + [Pass(plans)]) && InPacket(plans)
       && (forall c :: 0 <= c < active ==> t.trace[c] == Project(cmds + [Pass(plans)], c))
       && t.time == TimeNs(cfg, active, cmds, plans) && t.correction == Correction(cfg, cmds + [Pass(plans)])
       && (forall c :: 0 <= c < active ==>
             && |t.samples[c]| == |t.controls[c]| == SAMPLES_PER_SLOT && t.samples[c] == FilledSamples(s.samples[c])
             && t.sn[c] == NextNumber(s.sn[c], s.controls[c]) && t.idle[c] == (s.controls[c] == []))
  }

  lemma PassCompletes(cfg: Config, active: nat, cmds: seq<Command>, s: Snapshot, t: Snapshot)
    requires PassReady(active, cmds, s) && Progress(cfg, active, s, t)
    ensures PassCompleted(cfg, active, cmds, s, t)
  {
    hide PassReady, Progress, Legal, InPacket, PlansFor, Project, TimeNs, Correction;
    PassFollows(cfg, active, cmds, s, t);
    PassFills(cfg, active, cmds, s, t);
  }

  /** A finished pass is one more command, with the timestamp and correction of that command. */
  lemma PassFollows(cfg: Config, active: nat, cmds: seq<Command>, s: Snapshot, t: Snapshot)
    requires PassReady(active, cmds, s) && Progress(cfg, active, s, t)
    ensures Sized(s) && Sized(t) && active <= MAX_MMDVM_CHANNELS
    ensures var plans := PlansFor(s.sn[..active], s.controls[..active]);
            && Legal(active, cmds + [Pass(plans)]) && InPacket(plans)
            && (forall c :: 0 <= c < active ==> t.trace[c] == Project(cmds + [Pass(plans)], c))
            && t.time == TimeNs(cfg, active, cmds, plans)
            && t.correction == Correction(cfg, cmds + [Pass(plans)])
  {
    var plans := PlansFor(s.sn[..active], s.controls[..active]);
    PlansAllowed(active, cmds, s.sn[..active], s.controls[..active]);
    LegalMore(active, cmds, Pass(plans));
    PassTimed(cfg, active, cmds, s, t);
    hide Legal, InPacket, PassAllowed, TimeNs, Correction;
    forall c | 0 <= c < active
      ensures t.trace[c] == Project(cmds + [Pass(plans)], c)
    {
      assert Advanced(c, s, t);
      ProjectPass(cmds, plans, c);
    }
  }

  lemma ProjectPass(cmds: seq<Command>, plans: seq<seq<Planned>>, c: nat)
    requires c < |plans|
    ensures Project(cmds + [Pass(plans)], c) == Project(cmds, c) + PassEvents(plans[c])
  {
    assert (cmds + [Pass(plans)])[..|cmds|] == cmds;
  }

  lemma PassTimed(cfg: Config, active: nat, cmds: seq<Command>, s: Snapshot, t: Snapshot)
    requires PassReady(active, cmds, s) && Progress(cfg, active, s, t)
    ensures var plans := PlansFor(s.sn[..active], s.controls[..active]);
            && t.time == TimeNs(cfg, active, cmds, plans)
            && t.correction == Correction(cfg, cmds + [Pass(plans)])
  {
    hide Shared, Legal, Gate, AllTimes, FirstNonzero, CorrectionAfter;
    var plans := PlansFor(s.sn[..active], s.controls[..active]);
    var all := cmds + [Pass(plans)];
    assert all[..|cmds|] == cmds && all[|cmds|] == Pass(plans);
    assert ChannelsOf(cfg, s.trace[..active]) == Channels(cfg, active, cmds);
  }

  lemma PlansAllowed(active: nat, cmds: seq<Command>, sn: seq<SlotNo>, controls: seq<seq<nat>>)
    requires |sn| == |controls| == active && Gate(cmds)
    requires forall c :: 0 <= c < active ==> |controls[c]| <= SAMPLES_PER_SLOT
    ensures PassAllowed(active, cmds, PlansFor(sn, controls)) && InPacket(PlansFor(sn, controls))
  {
    var plans: seq<seq<Planned>> := PlansFor(sn, controls);
    forall c: nat, i: nat | c < |plans| && i < |plans[c]|
      ensures plans[c][i].position < SAMPLES_PER_SLOT
    {
      if MarksIn(controls[c]) != [] { MarksInSound(controls[c], i); }
    }
  }

  // ---------- A pass as a relation between snapshots ----------

  datatype Snapshot = Snapshot(
    trace: seq<seq<Event>>, sn: seq<SlotNo>, controls: seq<seq<nat>>, samples: seq<seq<real>>,
    correction: int, time: int, idle: seq<bool>)

  ghost predicate Sized(s: Snapshot) {
    |s.trace| == |s.sn| == |s.controls| == |s.samples| == MAX_MMDVM_CHANNELS
  }

  ghost predicate EvenBuffers(active: nat, s: Snapshot) {
    && active <= |s.samples| && active <= |s.controls|
    && forall c :: 0 <= c < active ==> |s.samples[c]| == |s.controls[c]|
  }

  /** The state a pass starts from, after the commands cmds. */
  ghost predicate PassReady(active: nat, cmds: seq<Command>, s: Snapshot) {
    && 1 <= active <= MAX_MMDVM_CHANNELS && Sized(s) && s.correction == 0
    && Legal(active, cmds) && Gate(cmds)
    && (forall c :: 0 <= c < active ==> s.trace[c] == Project(cmds, c))
    && (forall c :: 0 <= c < active ==>
          |s.samples[c]| == |s.controls[c]| && (|s.controls[c]| == 0 || |s.controls[c]| == SAMPLES_PER_SLOT))
  }

  /** One channel's share of a pass. */
  ghost predicate ChannelDone(cfg: Config, i: nat, s: Snapshot, t: Snapshot) {
    && Sized(s) && Sized(t) && i < MAX_MMDVM_CHANNELS && SameExcept(i, s.trace, t.trace)
    && var plan, ch := PlanFor(s.sn[i], s.controls[i]), Run(cfg, s.trace[i]).channel;
       && t.trace[i] == s.trace[i] + PassEvents(plan)
       && t.time == Latch(s.time, PassTimes(cfg, ch, plan))
       && t.correction == (if i == 0 then CorrectionAfter(cfg, ch, plan, s.correction) else s.correction)
       && t.sn == s.sn[i := NextNumber(s.sn[i], s.controls[i])]
       && t.controls == s.controls[i := FilledControls(s.controls[i])]
       && t.samples == s.samples[i := FilledSamples(s.samples[i])]
       && t.idle == s.idle + [s.controls[i] == []]
  }

  /** What channel c of s has become once its share is done. */
  ghost predicate Advanced(c: nat, s: Snapshot, t: Snapshot)
    requires Sized(s) && Sized(t) && c < MAX_MMDVM_CHANNELS
  {
    && t.trace[c] == s.trace[c] + PassEvents(PlanFor(s.sn[c], s.controls[c]))
    && t.sn[c] == NextNumber(s.sn[c], s.controls[c])
    && t.controls[c] == FilledControls(s.controls[c]) && t.samples[c] == FilledSamples(s.samples[c])
  }

  ghost predicate Untouched(c: nat, s: Snapshot, t: Snapshot)
    requires Sized(s) && Sized(t) && c < MAX_MMDVM_CHANNELS
  {
    && t.trace[c] == s.trace[c] && t.sn[c] == s.sn[c]
    && t.controls[c] == s.controls[c] && t.samples[c] == s.samples[c]
  }

  /** The channels after the first n have had their share. */
  ghost predicate Shared(n: nat, s: Snapshot, t: Snapshot) {
    && Sized(s) && Sized(t) && n <= MAX_MMDVM_CHANNELS
    && (forall c :: 0 <= c < n ==> Advanced(c, s, t))
    && (forall c :: n <= c < MAX_MMDVM_CHANNELS ==> Untouched(c, s, t))
    && |t.idle| == n && (forall c :: 0 <= c < n ==> t.idle[c] == (s.controls[c] == []))
  }

  /** The timestamp and the correction after the first n channels. */
  ghost predicate Timed(cfg: Config, n: nat, s: Snapshot, t: Snapshot) {
    && Sized(s) && n <= MAX_MMDVM_CHANNELS
    && var chs, plans := ChannelsOf(cfg, s.trace[..n]), PlansFor(s.sn[..n], s.controls[..n]);
       && t.time == FirstNonzero(AllTimes(cfg, chs, plans))
       && t.correction == if n == 0 then s.correction else CorrectionAfter(cfg, chs[0], plans[0], s.correction)
  }

  ghost predicate Progress(cfg: Config, n: nat, s: Snapshot, t: Snapshot) {
    Shared(n, s, t) && Timed(cfg, n, s, t)
  }

  lemma ProgressStart(cfg: Config, s: Snapshot)
    requires Sized(s) && s.time == 0 && s.idle == []
    ensures Progress(cfg, 0, s, s)
  {
  }

  lemma ProgressAhead(cfg: Config, n: nat, s: Snapshot, t: Snapshot)
    requires Progress(cfg, n, s, t) && n < MAX_MMDVM_CHANNELS
    ensures Sized(s) && Sized(t) && Untouched(n, s, t)
  {
  }

  /** The times and the correction of n + 1 channels from those of n. */
  lemma TimesStep(cfg: Config, n: nat, s: Snapshot)
    requires Sized(s) && n < MAX_MMDVM_CHANNELS
    ensures var chs, plans := ChannelsOf(cfg, s.trace[..n + 1]), PlansFor(s.sn[..n + 1], s.controls[..n + 1]);
            && chs[..n] == ChannelsOf(cfg, s.trace[..n]) && plans[..n] == PlansFor(s.sn[..n], s.controls[..n])
            && chs[n] == Run(cfg, s.trace[n]).channel && plans[n] == PlanFor(s.sn[n], s.controls[n])
            && FirstNonzero(AllTimes(cfg, chs, plans))
            == Latch(FirstNonzero(AllTimes(cfg, chs[..n], plans[..n])), PassTimes(cfg, chs[n], plans[n]))
  {
    hide PassTimes, PlanFor, Run, FirstNonzero;
    var chs, plans := ChannelsOf(cfg, s.trace[..n + 1]), PlansFor(s.sn[..n + 1], s.controls[..n + 1]);
    FirstNonzeroAppend(AllTimes(cfg, chs[..n], plans[..n]), PassTimes(cfg, chs[n], plans[n]));
    assert chs[..n] == ChannelsOf(cfg, s.trace[..n]);
    assert plans[..n] == PlansFor(s.sn[..n], s.controls[..n]);
  }

  lemma SharedStep(cfg: Config, n: nat, s: Snapshot, t: Snapshot, u: Snapshot)
    requires n < MAX_MMDVM_CHANNELS && Shared(n, s, t) && ChannelDone(cfg, n, t, u)
    ensures Shared(n + 1, s, u)
  {
    hide PlanFor, NextNumber, FilledControls, FilledSamples, PassEvents;
    assert Untouched(n, s, t);
    forall c | 0 <= c < n ensures Advanced(c, s, u) { assert Advanced(c, s, t); }
    assert Advanced(n, s, u);
    forall c | n + 1 <= c < MAX_MMDVM_CHANNELS ensures Untouched(c, s, u) { assert Untouched(c, s, t); }
  }

  lemma TimedStep(cfg: Config, n: nat, s: Snapshot, t: Snapshot, u: Snapshot)
    requires Sized(s) && Sized(t) && n < MAX_MMDVM_CHANNELS && Untouched(n, s, t)
    requires Timed(cfg, n, s, t) && ChannelDone(cfg, n, t, u)
    ensures Timed(cfg, n + 1, s, u)
  {
    TimesStep(cfg, n, s);
    hide ChannelsOf, PlansFor, AllTimes, PassTimes, FirstNonzero, Latch, PlanFor, Run, CorrectionAfter;
    var chs, plans := ChannelsOf(cfg, s.trace[..n + 1]), PlansFor(s.sn[..n + 1], s.controls[..n + 1]);
    if n > 0 { assert chs[0] == chs[..n][0] && plans[0] == plans[..n][0]; }
  }

  lemma ProgressStep(cfg: Config, n: nat, s: Snapshot, t: Snapshot, u: Snapshot)
    requires n < MAX_MMDVM_CHANNELS && Progress(cfg, n, s, t) && ChannelDone(cfg, n, t, u)
    ensures Progress(cfg, n + 1, s, u)
  {
    ProgressAhead(cfg, n, s, t);
    hide Shared, Timed, ChannelDone, Untouched;
    SharedStep(cfg, n, s, t, u);
    TimedStep(cfg, n, s, t, u);
  }

  lemma MarksInNothing()
    ensures MarksIn([]) == []
  {
  }

  lemma FilledAlready(controls: seq<nat>, samples: seq<real>)
    requires controls != [] && samples != []
    ensures FilledControls(controls) == controls && FilledSamples(samples) == samples
  {
  }

  /** The slot a channel sends: 720 zeros if it had nothing buffered, what it had otherwise. */
  ghost predicate SlotOf(slot: seq<real>, buffered: seq<real>) {
    |slot| == 720 && if buffered == [] then forall k :: 0 <= k < 720 ==> slot[k] == 0.0 else slot == buffered
  }

  /** And the control bytes behind it: none marked in a slot of silence. */
  ghost predicate ControlsFor(controls: seq<nat>, buffered: seq<nat>) {
    if buffered == [] then |controls| == 720 && forall k :: 0 <= k < 720 ==> controls[k] == 0x00
    else controls == buffered
  }

  lemma FilledIsSlot(controls: seq<nat>, samples: seq<real>)
    ensures ControlsFor(FilledControls(controls), controls)
    ensures |samples| == 0 || |samples| == 720 ==> SlotOf(FilledSamples(samples), samples)
  {
  }

  function FilledControls(controls: seq<nat>): seq<nat> {
    if controls == [] then seq(SAMPLES_PER_SLOT, _ => MARK_NONE) else controls
  }

  function FilledSamples(samples: seq<real>): seq<real> {
    if samples == [] then seq(SAMPLES_PER_SLOT, _ => 0.0) else samples
  }

  /** Channel i, and only channel i, has taken the number of the plan's last mark, if there is one. */
  ghost predicate Renumbered(i: nat, s: seq<SlotNo>, t: seq<SlotNo>, plan: seq<Planned>) {
    i < |s| && t == s[i := LastNumber(s[i], plan)]
  }

  lemma RenumberedTwice(i: nat, s: seq<SlotNo>, t: seq<SlotNo>, u: seq<SlotNo>,
                        plan: seq<Planned>, more: seq<Planned>)
    requires Renumbered(i, s, t, plan) && Renumbered(i, t, u, more)
    ensures Renumbered(i, s, u, plan + more)
  {
  }

  /** What one control byte adds to the plan. */
  function MarkPlan(control: nat, j: nat): seq<Planned> {
    if MarkOf(control) == 0 then [] else [Planned(MarkOf(control), j)]
  }

  function LastNumber(sn: SlotNo, plan: seq<Planned>): SlotNo {
    if plan == [] then sn else plan[|plan| - 1].no
  }
}

/**
 * The scheduler object the two threads share: per-channel arrays updated in
 * place and a queue of slot objects per channel. A ghost trace records the
 * calls made on each channel; Valid ties the fields to the run of that trace,
 * so every theorem about runs is a theorem about the live object.
 */
module DmrTiming {
  import opened Constants
  import opened SlotChannel
  import opened SlotHistory

  class DMRTimeSlot {
    var slotNo: SlotNo
    var slotTime: int
    var slotSampleCounter: nat

    // Whose queue the slot was pushed on, and how many were pushed there before it.
    ghost const owner: nat
    ghost const serial: nat

    constructor (slotNo: SlotNo, slotTime: int, slotSampleCounter: nat, ghost owner: nat, ghost serial: nat)
      ensures Value() == Slot(slotNo, slotTime, slotSampleCounter)
      ensures this.owner == owner && this.serial == serial
    {
      this.slotNo, this.slotTime, this.slotSampleCounter := slotNo, slotTime, slotSampleCounter;
      this.owner, this.serial := owner, serial;
    }

    ghost function Value(): Slot
      reads this
    {
      Slot(slotNo, slotTime, slotSampleCounter)
    }
  }

  /** The channel values a trace of calls leads to. */
  ghost function ChannelsOf(cfg: Config, trace: seq<seq<Event>>): (chs: seq<Channel>)
    ensures |chs| == |trace|
    ensures forall c :: 0 <= c < |trace| ==> chs[c] == Run(cfg, trace[c]).channel
  {
    seq(|trace|, c requires 0 <= c < |trace| => Run(cfg, trace[c]).channel)
  }

  lemma ChannelsOfNothing(cfg: Config, trace: seq<seq<Event>>)
    requires forall c :: 0 <= c < |trace| ==> trace[c] == []
    ensures forall c :: 0 <= c < |trace| ==> ChannelsOf(cfg, trace)[c] == FRESH_CHANNEL
  {
  }

  lemma ChannelsStep(cfg: Config, trace: seq<seq<Event>>, cn: nat, e: Event)
    requires cn < |trace|
    ensures Run(cfg, trace[cn] + [e]) == Step(cfg, Run(cfg, trace[cn]), e)
    ensures ChannelsOf(cfg, trace[cn := trace[cn] + [e]])
         == ChannelsOf(cfg, trace)[cn := Step(cfg, Run(cfg, trace[cn]), e).channel]
  {
    RunSnoc(cfg, trace[cn], e);
  }

  /** Only channel i has seen new calls. */
  ghost predicate SameExcept(i: nat, s: seq<seq<Event>>, t: seq<seq<Event>>) {
    |s| == |t| && forall c :: 0 <= c < |s| && c != i ==> s[c] == t[c]
  }

  lemma SameExceptTwice(i: nat, s: seq<seq<Event>>, t: seq<seq<Event>>, u: seq<seq<Event>>)
    requires SameExcept(i, s, t) && SameExcept(i, t, u)
    ensures SameExcept(i, s, u)
  {
  }

  class DMRTiming {
    const sampleDelay: int
    const rfDelay: nat
    const timingInitialized: array<bool>
    const sampleCounter: array<int>
    const lastSlot: array<int>
    const timeBase: array<int>
    const timeSlots: array<seq<DMRTimeSlot>>

    ghost var trace: seq<seq<Event>>
    ghost var erased: seq<nat>
    ghost var Repr: set<object>

    ghost function Cfg(): Config { Config(rfDelay, sampleDelay) }

    ghost function History(c: nat): SlotHistory.History
      requires c < |trace|
      reads this
    {
      Run(Cfg(), trace[c])
    }

    ghost predicate Shape()
      reads this
    {
      && {this, timingInitialized, sampleCounter, lastSlot, timeBase, timeSlots} <= Repr
      && timingInitialized.Length == sampleCounter.Length == lastSlot.Length == MAX_MMDVM_CHANNELS
      && timeBase.Length == timeSlots.Length == |trace| == |erased| == MAX_MMDVM_CHANNELS
      && sampleCounter != lastSlot && sampleCounter != timeBase && lastSlot != timeBase
    }

    /** The queue objects of channel c carry the values q, and belong to no other place in any queue. */
    ghost predicate Holds(c: nat, q: seq<Slot>)
      requires Shape() && c < MAX_MMDVM_CHANNELS
      reads this, Repr
    {
      && |timeSlots[c]| == |q|
      && forall i :: 0 <= i < |q| ==>
           var s := timeSlots[c][i];
           s in Repr && s.owner == c && s.serial == erased[c] + i && s.Value() == q[i]
    }

    /** The fields of channel c are those of the value ch. */
    ghost predicate Shows(c: nat, ch: Channel)
      requires Shape() && c < MAX_MMDVM_CHANNELS
      reads this, Repr
    {
      && timeBase[c] == ch.timeBase && sampleCounter[c] == ch.sampleCounter
      && lastSlot[c] == ch.lastSlot && timingInitialized[c] == ch.initialized
      && Holds(c, ch.queue)
    }

    ghost predicate ShowsAll(chs: seq<Channel>)
      requires Shape()
      reads this, Repr
    {
      |chs| == MAX_MMDVM_CHANNELS && forall c :: 0 <= c < MAX_MMDVM_CHANNELS ==> Shows(c, chs[c])
    }

    ghost predicate Valid()
      reads this, Repr
      ensures Valid() ==> this in Repr
    {
      Shape() && ShowsAll(ChannelsOf(Cfg(), trace))
    }

    lemma QueueLength(c: nat)
      requires Valid() && c < MAX_MMDVM_CHANNELS
      ensures |timeSlots[c]| == |History(c).channel.queue|
    {
      assert Shows(c, ChannelsOf(Cfg(), trace)[c]);
    }

    constructor (rfDelayMs: nat, sampleDelaySamples: int)
      ensures Valid() && fresh(Repr)
      ensures rfDelay == rfDelayMs * 1_000_000 && sampleDelay == sampleDelaySamples * TIME_PER_SAMPLE
      ensures forall c :: 0 <= c < MAX_MMDVM_CHANNELS ==> trace[c] == []
    {
      rfDelay := rfDelayMs * 1_000_000;
      sampleDelay := sampleDelaySamples * TIME_PER_SAMPLE;
      timingInitialized := new bool[MAX_MMDVM_CHANNELS](_ => false);
      sampleCounter := new int[MAX_MMDVM_CHANNELS](_ => 0);
      lastSlot := new int[MAX_MMDVM_CHANNELS](_ => 0);
      timeBase := new int[MAX_MMDVM_CHANNELS](_ => 0);
      timeSlots := new seq<DMRTimeSlot>[MAX_MMDVM_CHANNELS](_ => []);
      trace := seq(MAX_MMDVM_CHANNELS, _ => []);
      erased := seq(MAX_MMDVM_CHANNELS, _ => 0);
      new;
      Repr := {this, timingInitialized, sampleCounter, lastSlot, timeBase, timeSlots};
      ChannelsOfNothing(Cfg(), trace);
      hide ChannelsOf;
      forall c | 0 <= c < MAX_MMDVM_CHANNELS ensures Shows(c, FRESH_CHANNEL) {}
    }

    method GetTimeDelta(cn: nat) returns (elapsed: int)
      requires Valid() && cn < MAX_MMDVM_CHANNELS
      ensures elapsed == Elapsed(History(cn).channel)
    {
      elapsed := timeBase[cn] + sampleCounter[cn] * TIME_PER_SAMPLE;
    }

    method GetInit(cn: nat) returns (initialized: bool)
      requires Valid() && cn < MAX_MMDVM_CHANNELS
      ensures initialized == History(cn).channel.initialized
    {
      initialized := timingInitialized[cn];
    }

    method SetTimer(value: int, cn: nat)
      requires Valid() && cn < MAX_MMDVM_CHANNELS
      modifies this`trace, sampleCounter, timeBase, timingInitialized
      ensures Valid() && trace == old(trace)[cn := old(trace)[cn] + [Timer(value)]]
    {
      ghost var chs := ChannelsOf(Cfg(), trace);
      ChannelsStep(Cfg(), trace, cn, Timer(value));
      sampleCounter[cn] := 0;
      timeBase[cn] := value;
      if timeBase[cn] > 4 * SLOT_TIME {
        timingInitialized[cn] := true;
      }
      trace := trace[cn := trace[cn] + [Timer(value)]];
      ghost var after := chs[cn := SlotChannel.SetTimer(chs[cn], value)];
      forall c | 0 <= c < MAX_MMDVM_CHANNELS
        ensures Shows(c, after[c])
      {
        assert old(Shows(c, chs[c]));
      }
    }

    /** The counter of the head, set in place; no other queue holds that object. */
    method SetHeadCounter(counter: nat, cn: nat, ghost chs: seq<Channel>)
      requires Shape() && cn < MAX_MMDVM_CHANNELS && ShowsAll(chs) && timeSlots[cn] != []
      requires |chs| == MAX_MMDVM_CHANNELS && chs[cn].queue != []
      modifies timeSlots[cn][0]
      ensures Shape() && Repr == old(Repr) && trace == old(trace)
      ensures var q := chs[cn].queue;
              ShowsAll(chs[cn := chs[cn].(queue := [q[0].(counter := counter)] + q[1..])])
    {
      ghost var q := chs[cn].queue;
      ghost var after := chs[cn := chs[cn].(queue := [q[0].(counter := counter)] + q[1..])];
      assert Shows(cn, chs[cn]);
      timeSlots[cn][0].slotSampleCounter := counter;
      forall c | 0 <= c < MAX_MMDVM_CHANNELS
        ensures Shows(c, after[c])
      {
        assert old(Shows(c, chs[c]));
      }
    }

    method EraseHead(cn: nat, ghost chs: seq<Channel>)
      requires Shape() && cn < MAX_MMDVM_CHANNELS && ShowsAll(chs) && timeSlots[cn] != []
      requires |chs| == MAX_MMDVM_CHANNELS && chs[cn].queue != []
      modifies this`erased, timeSlots
      ensures Shape() && Repr == old(Repr) && trace == old(trace)
      ensures ShowsAll(chs[cn := chs[cn].(queue := chs[cn].queue[1..])])
    {
      ghost var after := chs[cn := chs[cn].(queue := chs[cn].queue[1..])];
      timeSlots[cn] := timeSlots[cn][1..];
      erased := erased[cn := erased[cn] + 1];
      forall c | 0 <= c < MAX_MMDVM_CHANNELS
        ensures Shows(c, after[c])
      {
        assert old(Shows(c, chs[c]));
      }
    }

    lemma HeadIs(cn: nat, chs: seq<Channel>)
      requires Shape() && cn < MAX_MMDVM_CHANNELS && ShowsAll(chs) && timeSlots[cn] != []
      ensures |chs| == MAX_MMDVM_CHANNELS && chs[cn].queue != []
      ensures timeSlots[cn][0].Value() == chs[cn].queue[0]
    {
      assert Shows(cn, chs[cn]);
    }

    /** What checkTime does with the head of the queue once the sample's time is known. */
    method ServeHead(sampleTime: int, cn: nat, ghost chs: seq<Channel>) returns (mark: nat)
      requires Shape() && cn < MAX_MMDVM_CHANNELS && ShowsAll(chs) && timeSlots[cn] != []
      requires |chs| == MAX_MMDVM_CHANNELS
      modifies this`erased, timeSlots, timeSlots[cn][0]
      ensures Shape() && Repr == old(Repr) && trace == old(trace)
      ensures mark == Serve(chs[cn].queue, sampleTime).answer
      ensures ShowsAll(chs[cn := chs[cn].(queue := Serve(chs[cn].queue, sampleTime).queue)])
    {
      HeadIs(cn, chs);
      assert chs[cn := chs[cn].(queue := chs[cn].queue)] == chs;
      hide ShowsAll;
      var s := timeSlots[cn][0];
      mark := 0;
      if sampleTime >= s.slotTime && s.slotSampleCounter == 0 {
        mark := s.slotNo;
        SetHeadCounter(s.slotSampleCounter + 1, cn, chs);
      } else if sampleTime >= s.slotTime {
        if s.slotSampleCounter >= SAMPLES_PER_SLOT - 1 {
          EraseHead(cn, chs);
        } else {
          SetHeadCounter(s.slotSampleCounter + 1, cn, chs);
        }
      }
    }

    /** The sample counter moves on, except at the first sample of a batch. */
    method Advance(cn: nat, timeBaseReceived: bool, ghost chs: seq<Channel>)
      requires Shape() && cn < MAX_MMDVM_CHANNELS && |chs| == MAX_MMDVM_CHANNELS && ShowsAll(chs)
      modifies this`trace, sampleCounter
      ensures Shape() && ShowsAll(chs[cn := Tick(chs[cn], timeBaseReceived)])
      ensures timeBase[cn] + sampleCounter[cn] * TIME_PER_SAMPLE == Elapsed(Tick(chs[cn], timeBaseReceived))
      ensures |timeSlots[cn]| == |chs[cn].queue| && timeSlots[cn] == old(timeSlots[cn])
      ensures forall i :: 0 <= i < |timeSlots[cn]| ==> timeSlots[cn][i] in Repr
      ensures trace == old(trace)[cn := old(trace)[cn] + [Sample(timeBaseReceived)]]
    {
      ghost var after := chs[cn := Tick(chs[cn], timeBaseReceived)];
      if !timeBaseReceived {
        sampleCounter[cn] := sampleCounter[cn] + 1;
      }
      trace := trace[cn := trace[cn] + [Sample(timeBaseReceived)]];
      forall c | 0 <= c < MAX_MMDVM_CHANNELS
        ensures Shows(c, after[c])
      {
        assert old(Shows(c, chs[c]));
      }
      assert Shows(cn, after[cn]);
    }

    method CheckTime(cn: nat, timeBaseReceived: bool) returns (mark: nat)
      requires Valid() && cn < MAX_MMDVM_CHANNELS
      modifies Repr
      ensures Valid() && Repr == old(Repr)
      ensures trace == old(trace)[cn := old(trace)[cn] + [Sample(timeBaseReceived)]]
      ensures History(cn).answers == old(History(cn).answers) + [mark]
      ensures History(cn).times == old(History(cn).times) +
                [timeBase[cn] + sampleCounter[cn] * 41_667 - 6_000_048 - sampleDelay]
    {
      hide ChannelsOf, Run, Shows, ShowsAll;
      ghost var chs := ChannelsOf(Cfg(), trace);
      ChannelsStep(Cfg(), trace, cn, Sample(timeBaseReceived));
      Advance(cn, timeBaseReceived, chs);
      ghost var ch := Tick(chs[cn], timeBaseReceived);
      assert chs[cn := ch][cn := ch.(queue := Serve(ch.queue, SampleTime(Cfg(), ch)).queue)]
          == ChannelsOf(Cfg(), trace);
      mark := 0;
      if |timeSlots[cn]| >= 1 {
        var sampleTime := timeBase[cn] + sampleCounter[cn] * TIME_PER_SAMPLE - TOTAL_FILTER_DELAY - sampleDelay;
        mark := ServeHead(sampleTime, cn, chs[cn := ch]);
      }
    }

    /** The four branches of allocateSlot; the correction is written on channel 0 only. */
    method MoveLastSlot(elapsed: int, correction: int, cn: nat, ghost chs: seq<Channel>) returns (next: int)
      requires Shape() && cn < MAX_MMDVM_CHANNELS && |chs| == MAX_MMDVM_CHANNELS && ShowsAll(chs)
      requires elapsed == Elapsed(chs[cn])
      modifies lastSlot
      ensures Shape() && ShowsAll(chs[cn := chs[cn].(lastSlot := NextSlotTime(chs[cn].lastSlot, elapsed))])
      ensures lastSlot[cn] == NextSlotTime(chs[cn].lastSlot, elapsed)
      ensures next == if cn == 0 then NextCorrection(chs[cn], correction) else correction
    {
      assert Shows(cn, chs[cn]);
      next := correction;
      if elapsed <= lastSlot[cn] {
        if cn == 0 {
          next := lastSlot[cn] - elapsed;
        }
        lastSlot[cn] := lastSlot[cn] + SLOT_TIME;
      } else if lastSlot[cn] == 0 {
        lastSlot[cn] := elapsed;
      } else if elapsed - lastSlot[cn] >= SLOT_TIME {
        lastSlot[cn] := elapsed;
      } else {
        lastSlot[cn] := lastSlot[cn] + SLOT_TIME;
      }
      ghost var after := chs[cn := chs[cn].(lastSlot := lastSlot[cn])];
      forall c | 0 <= c < MAX_MMDVM_CHANNELS
        ensures Shows(c, after[c])
      {
        assert old(Shows(c, chs[c]));
      }
    }

    method PushBack(slotNo: SlotNo, nsec: int, cn: nat, ghost chs: seq<Channel>)
      requires Shape() && cn < MAX_MMDVM_CHANNELS && |chs| == MAX_MMDVM_CHANNELS && ShowsAll(chs)
      modifies this`trace, this`Repr, timeSlots
      ensures Shape() && fresh(Repr - old(Repr))
      ensures trace == old(trace)[cn := old(trace)[cn] + [Allocate(slotNo)]]
      ensures ShowsAll(chs[cn := chs[cn].(queue := chs[cn].queue + [Slot(slotNo, nsec, 0)])])
    {
      ghost var after := chs[cn := chs[cn].(queue := chs[cn].queue + [Slot(slotNo, nsec, 0)])];
      var s := new DMRTimeSlot(slotNo, nsec, 0, cn, erased[cn] + |timeSlots[cn]|);
      timeSlots[cn] := timeSlots[cn] + [s];
      Repr := Repr + {s};
      trace := trace[cn := trace[cn] + [Allocate(slotNo)]];
      forall c | 0 <= c < MAX_MMDVM_CHANNELS
        ensures Shows(c, after[c])
      {
        assert old(Shows(c, chs[c]));
      }
    }

    method AllocateSlot(slotNo: SlotNo, correction: int, cn: nat) returns (nsec: int, next: int)
      requires Valid() && cn < MAX_MMDVM_CHANNELS
      modifies Repr
      ensures Valid() && fresh(Repr - old(Repr))
      ensures trace == old(trace)[cn := old(trace)[cn] + [Allocate(slotNo)]]
      ensures nsec == History(cn).channel.lastSlot + rfDelay
      ensures next == if cn == 0 then NextCorrection(old(History(cn).channel), correction) else correction
    {
      var elapsed := GetTimeDelta(cn);
      hide ChannelsOf, Run, Shows, ShowsAll;
      ghost var chs := ChannelsOf(Cfg(), trace);
      ChannelsStep(Cfg(), trace, cn, Allocate(slotNo));
      next := MoveLastSlot(elapsed, correction, cn, chs);
      nsec := lastSlot[cn] + rfDelay;
      ghost var ch := chs[cn].(lastSlot := lastSlot[cn]);
      PushBack(slotNo, nsec, cn, chs[cn := ch]);
      assert chs[cn := ch][cn := ch.(queue := ch.queue + [Slot(slotNo, nsec, 0)])] == ChannelsOf(Cfg(), trace);
    }
  }
}

/**
 * The timestamp handed to the device with each transmit buffer, over every
 * interleaving: always positive, always that of channel 0's first slot, far
 * enough from the timestamp before it, and right for exactly the marks that
 * sit where channel 0's does.
 */
module TransmitTime {
  import opened Constants
  import opened SlotChannel
  import opened SlotHistory
  import opened StepMachine
  import opened TransmitPlan
  import opened MarkPlacement
  import opened Lockstep
  import opened Pacing

  function Channels(cfg: Config, active: nat, cmds: seq<Command>): seq<Channel> {
    seq(active, c requires 0 <= c < active => ChannelRun(cfg, cmds, c).channel)
  }

  /** What entry computes as timeNs in a pass with these plans after cmds. */
  function TimeNs(cfg: Config, active: nat, cmds: seq<Command>, plans: seq<seq<Planned>>): int
    requires |plans| == active
  {
    FirstNonzero(AllTimes(cfg, Channels(cfg, active, cmds), plans))
  }

  /** A packet has 720 samples, so no mark sits beyond. */
  ghost predicate InPacket(plans: seq<seq<Planned>>) {
    forall c, i :: 0 <= c < |plans| && 0 <= i < |plans[c]| ==> plans[c][i].position < SAMPLES_PER_SLOT
  }

  /** When channel 0's first slot of the pass is on the air. */
  function FirstSlot(cfg: Config, cmds: seq<Command>): int {
    var ch := ChannelRun(cfg, cmds, 0).channel;
    NextSlotTime(ch.lastSlot, Elapsed(ch)) + cfg.rfDelay
  }

  /**
   * Behind the gate every computed time is positive, so zero is a sound
   * sentinel and the timestamp is channel 0's first slot less the samples
   * before its mark.
   */
  lemma TimestampIsFirstSlot(cfg: Config, active: nat, cmds: seq<Command>, plans: seq<seq<Planned>>)
    requires 0 < active && Legal(active, cmds) && PassAllowed(active, cmds, plans)
    requires StampsNondecreasing(cmds) && InPacket(plans)
    ensures forall t :: t in AllTimes(cfg, Channels(cfg, active, cmds), plans) ==> t > 0
    ensures TimeNs(cfg, active, cmds, plans) == FirstSlot(cfg, cmds) - plans[0][0].position * TIME_PER_SAMPLE > 0
  {
    var chs := Channels(cfg, active, cmds);
    forall c | 0 <= c < active
      ensures Elapsed(chs[c]) > 4 * SLOT_TIME
    {
      GateOpensClock(cfg, active, cmds, c);
    }
    SentinelIsSound(cfg, chs, plans);
  }

  lemma {:induction false} LastSlotGrows(cfg: Config, h: History, es: seq<Event>)
    requires h.channel.lastSlot > 0
    ensures RunFrom(cfg, h, es).channel.lastSlot >= h.channel.lastSlot
  {
    if es == [] {
    } else {
      LastSlotGrows(cfg, h, es[..|es| - 1]);
    }
  }

  lemma {:induction false} LastSlotGrowsOver(cfg: Config, cmds: seq<Command>, more: seq<Command>)
    requires ChannelRun(cfg, cmds, 0).channel.lastSlot > 0
    ensures ChannelRun(cfg, cmds + more, 0).channel.lastSlot >= ChannelRun(cfg, cmds, 0).channel.lastSlot
  {
    if more == [] {
      assert cmds + more == cmds;
    } else {
      var k := |more| - 1;
      LastSlotGrowsOver(cfg, cmds, more[..k]);
      assert cmds + more == cmds + more[..k] + [more[k]];
      ChannelStep(cfg, cmds + more[..k], more[k], 0);
      LastSlotGrows(cfg, ChannelRun(cfg, cmds + more[..k], 0), EventsOf(more[k], 0));
    }
  }

  /** First slots of two passes are a slot time apart for every slot channel 0 asked for in the earlier one. */
  lemma FirstSlotsApart(cfg: Config, cmds: seq<Command>, plans: seq<seq<Planned>>, more: seq<Command>)
    requires plans != [] && plans[0] != []
    requires Elapsed(ChannelRun(cfg, cmds, 0).channel) > 0
    ensures FirstSlot(cfg, cmds + [Pass(plans)] + more) >= FirstSlot(cfg, cmds) + |plans[0]| * SLOT_TIME
  {
    hide ChannelRun, RunFrom, AllocateAll, PassEvents;
    var h := ChannelRun(cfg, cmds, 0);
    ChannelStep(cfg, cmds, Pass(plans), 0);
    PassIsAllocateAll(cfg, h, plans[0]);
    PassAdvances(cfg, h.channel, plans[0]);
    LastSlotGrowsOver(cfg, cmds + [Pass(plans)], more);
  }

  /**
   * Consecutive timestamps are apart by a slot for every slot asked for, less
   * how much later in its packet the next mark sits. A buffer lasts one slot,
   * so equal mark positions never give overlapping buffers.
   */
  lemma TimestampsApart(cfg: Config, active: nat, cmds: seq<Command>, plans: seq<seq<Planned>>,
                        more: seq<Command>, next: seq<seq<Planned>>)
    requires 0 < active && Legal(active, cmds) && PassAllowed(active, cmds, plans) && InPacket(plans)
    requires StampsNondecreasing(cmds)
    requires var later := cmds + [Pass(plans)] + more;
             Legal(active, later) && PassAllowed(active, later, next) && InPacket(next) && StampsNondecreasing(later)
    ensures TimeNs(cfg, active, cmds + [Pass(plans)] + more, next) - TimeNs(cfg, active, cmds, plans)
         >= |plans[0]| * SLOT_TIME - (next[0][0].position - plans[0][0].position) * TIME_PER_SAMPLE
  {
    TimestampIsFirstSlot(cfg, active, cmds, plans);
    TimestampIsFirstSlot(cfg, active, cmds + [Pass(plans)] + more, next);
    GateOpensClock(cfg, active, cmds, 0);
    FirstSlotsApart(cfg, cmds, plans, more);
  }

  // ---------- One timestamp for all channels ----------

  lemma {:induction false} PassRequests(cfg: Config, h: History, plan: seq<Planned>, i: nat)
    requires i < |plan|
    ensures var r := RunFrom(cfg, h, PassEvents(plan)).requests;
            && |r| == |h.requests| + |plan|
            && r[|h.requests| + i].time
               == NextSlotTime(h.channel.lastSlot, Elapsed(h.channel)) + i * SLOT_TIME + cfg.rfDelay
  {
    var n := |plan| - 1;
    var before := RunFrom(cfg, h, PassEvents(plan[..n]));
    assert PassEvents(plan)[..n] == PassEvents(plan[..n]);
    assert RunFrom(cfg, h, PassEvents(plan)) == Step(cfg, before, Allocate(plan[n].no));
    PassStep(cfg, h, plan[..n]);
    PassIsAllocateAll(cfg, h, plan[..n]);
    PassAdvances(cfg, h.channel, plan[..n]);
    hide RunFrom, PassEvents, AllocateAll;
    if i < n { PassRequests(cfg, h, plan[..n], i); }
  }

  /** The slot time that allocateSlot returns for the i-th slot a pass asks for on channel c. */
  ghost function Allocated(cfg: Config, cmds: seq<Command>, plans: seq<seq<Planned>>, c: nat, i: nat): int
    requires c < |plans| && i < |plans[c]|
  {
    var h := ChannelRun(cfg, cmds, c);
    PassRequests(cfg, h, plans[c], i);
    RunFrom(cfg, h, PassEvents(plans[c])).requests[|h.requests| + i].time
  }

  /** When the sample that carries that slot's mark leaves in a buffer stamped TimeNs. */
  ghost function AirTime(cfg: Config, active: nat, cmds: seq<Command>, plans: seq<seq<Planned>>, c: nat, i: nat): int
    requires |plans| == active && c < active && i < |plans[c]|
  {
    TimeNs(cfg, active, cmds, plans) + plans[c][i].position * TIME_PER_SAMPLE
  }

  /**
   * All channels leave in one buffer under channel 0's timestamp. In lockstep
   * a mark is on the air at its slot time exactly when it is the first of its
   * packet and sits where channel 0's first mark sits.
   */
  lemma OnTimeIff(cfg: Config, active: nat, cmds: seq<Command>, plans: seq<seq<Planned>>, c: nat, i: nat)
    requires Legal(active, cmds) && PassAllowed(active, cmds, plans) && StampsNondecreasing(cmds) && InPacket(plans)
    requires c < active && i < |plans[c]| && Balanced(cmds, 0, c)
    ensures Allocated(cfg, cmds, plans, c, i) - AirTime(cfg, active, cmds, plans, c, i)
         == i * SLOT_TIME - (plans[c][i].position - plans[0][0].position) * TIME_PER_SAMPLE
    ensures AirTime(cfg, active, cmds, plans, c, i) == Allocated(cfg, cmds, plans, c, i) <==>
            i == 0 && plans[c][0].position == plans[0][0].position
  {
    TimestampIsFirstSlot(cfg, active, cmds, plans);
    AllocatedFrom(cfg, cmds, plans, c, i);
    var p, q := plans[c][i].position, plans[0][0].position;
    assert p < SAMPLES_PER_SLOT && q < SAMPLES_PER_SLOT;
    hide TimeNs, FirstSlot, Allocated, AllTimes, Balanced, Legal, PassAllowed, StampsNondecreasing, InPacket;
    assert i * SLOT_TIME == (p - q) * TIME_PER_SAMPLE <==> i == 0 && p == q;
  }

  /** In lockstep every channel's slots count from channel 0's first. */
  lemma AllocatedFrom(cfg: Config, cmds: seq<Command>, plans: seq<seq<Planned>>, c: nat, i: nat)
    requires c < |plans| && i < |plans[c]| && Balanced(cmds, 0, c)
    ensures Allocated(cfg, cmds, plans, c, i) == FirstSlot(cfg, cmds) + i * SLOT_TIME
  {
    BalancedLockstep(cfg, cmds, 0, c);
    PassRequests(cfg, ChannelRun(cfg, cmds, c), plans[c], i);
    hide ChannelRun, RunFrom, NextSlotTime, TwinSlots, TwinMarks, TwinRequests, Balanced;
  }

  /**
   * Two channels, nothing received for channel 0 and a packet that opens with
   * its mark for channel 1: the first pass sends that mark 29.58 ms early.
   */
  lemma MisalignedMark(cfg: Config, start: int, controls: seq<nat>)
    requires start > 4 * SLOT_TIME
    requires |controls| == SAMPLES_PER_SLOT && MarkOf(controls[0]) != 0
    ensures var run, plans := [Block(start)], [PlanFor(1, []), PlanFor(1, controls)];
            && Legal(2, run) && PassAllowed(2, run, plans)
            && AirTime(cfg, 2, run, plans, 1, 0) == Allocated(cfg, run, plans, 1, 0) - 29_583_570
  {
    var run, plans := [Block(start)], [PlanFor(1, []), PlanFor(1, controls)];
    MarkUpFront(controls);
    assert plans[0] == [Planned(1, MMDVM_MARK_POSITION)] && plans[1] == PlanFor(1, controls);
    hide MarksIn, PlanFor, Gate, Stamps, Allocated, AirTime, Legal;
    OneBlock(cfg, start);
    OneStamp(start);
    OnTimeIff(cfg, 2, run, plans, 1, 0);
  }

  lemma OneStamp(start: int)
    ensures Stamps([Block(start)]) == [start]
    ensures Legal(2, [Block(start)])
  {
    StampsStep([], Block(start));
    assert [] + [Block(start)] == [Block(start)];
  }

  /** The plan of a packet that opens with a mark. */
  lemma MarkUpFront(controls: seq<nat>)
    requires controls != [] && MarkOf(controls[0]) != 0
    ensures var plan := PlanFor(1, controls);
            plan != [] && plan[0].position == 0 && forall i :: 0 <= i < |plan| ==> plan[i].position < |controls|
  {
    var k := MarksInComplete(controls, 0);
    hide MarksIn;
    MarksInSound(controls, 0);
    if k > 0 { MarksIncrease(controls, 0, k); }
    forall i | 0 <= i < |MarksIn(controls)|
      ensures MarksIn(controls)[i].position < |controls|
    {
      MarksInSound(controls, i);
    }
  }

  lemma {:induction false} MarksIncrease(controls: seq<nat>, i: nat, k: nat)
    requires i < k < |MarksIn(controls)|
    ensures MarksIn(controls)[i].position < MarksIn(controls)[k].position
    decreases k
  {
    MarksInSound(controls, k);
    if i < k - 1 { MarksIncrease(controls, i, k - 1); }
  }
}

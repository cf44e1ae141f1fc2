/**
 * Where pacing and the bounded queue end: packets with more marks than a
 * second has slots, and the simulated clock.
 */
module PacingLimits {
  import opened Constants
  import opened SlotChannel
  import opened SlotHistory
  import opened MarkQueue
  import opened SlotSpacing
  import opened StepMachine
  import opened TransmitPlan
  import opened MarkPlacement
  import opened Lockstep
  import opened Pacing

  /** Channel 0 starts every pass of every run at most a slot ahead, if sleeps last to the nanosecond. */
  ghost predicate PacesAll(cfg: Config, most: nat) {
    forall active: nat, cmds: seq<Command>, i: nat ::
      SleepingRun(cfg, active, cmds, 0, most) && i < |cmds| && cmds[i].Pass? ==> Lead(cfg, cmds[..i]) <= SLOT_TIME
  }

  /** A run goes on with a block stamped no earlier than the last, or with a pass once the sleep is over. */
  ghost predicate MayFollow(cfg: Config, active: nat, cmds: seq<Command>, slack: nat, most: nat, cmd: Command) {
    match cmd
    case Block(timestamp) => forall b :: 0 <= b < |Stamps(cmds)| ==> Stamps(cmds)[b] <= timestamp
    case Pass(plans) =>
      PassAllowed(active, cmds, plans) && SleepHonouredAt(cfg, cmds, slack) && plans != [] && |plans[0]| <= most
  }

  lemma MarksStayFew(cmds: seq<Command>, most: nat, cmd: Command)
    requires AtMostMarks(cmds, most) && (cmd.Pass? && cmd.plans != [] ==> |cmd.plans[0]| <= most)
    ensures AtMostMarks(cmds + [cmd], most)
  {
    var all := cmds + [cmd];
    forall i | 0 <= i < |all| && all[i].Pass? && all[i].plans != []
      ensures |all[i].plans[0]| <= most
    {
      if i < |cmds| { assert all[i] == cmds[i]; }
    }
  }

  lemma StampsStayOrdered(cmds: seq<Command>, cmd: Command)
    requires StampsNondecreasing(cmds)
    requires cmd.Block? ==> forall b :: 0 <= b < |Stamps(cmds)| ==> Stamps(cmds)[b] <= cmd.timestamp
    ensures StampsNondecreasing(cmds + [cmd])
  {
    StampsStep(cmds, cmd);
    hide Stamps, ChannelRun;
  }

  lemma SleepingRunGrows(cfg: Config, active: nat, cmds: seq<Command>, slack: nat, most: nat, cmd: Command)
    requires SleepingRun(cfg, active, cmds, slack, most) && MayFollow(cfg, active, cmds, slack, most, cmd)
    ensures SleepingRun(cfg, active, cmds + [cmd], slack, most)
  {
    hide Legal, StampsNondecreasing, SleepHonoured, AtMostMarks, SleepHonouredAt, PassAllowed, Stamps;
    LegalMore(active, cmds, cmd);
    StampsStayOrdered(cmds, cmd);
    SleepHonouredGrows(cfg, cmds, slack, cmd);
    MarksStayFew(cmds, most, cmd);
  }

  /** What a block changes of what pacing looks at: the clock. */
  lemma BlockPaces(cfg: Config, cmds: seq<Command>, timestamp: int)
    ensures var all := cmds + [Block(timestamp)];
            && Clock(cfg, all) == timestamp + (RX_SAMP_OUT_SIZE - 1) * TIME_PER_SAMPLE
            && ChannelRun(cfg, all, 0).channel.lastSlot == ChannelRun(cfg, cmds, 0).channel.lastSlot
            && Correction(cfg, all) == Correction(cfg, cmds) && PassClock(cfg, all) == PassClock(cfg, cmds)
  {
    assert (cmds + [Block(timestamp)])[..|cmds|] == cmds;
    ChannelStep(cfg, cmds, Block(timestamp), 0);
    BlockStep(cfg, ChannelRun(cfg, cmds, 0), timestamp);
  }

  /** And a pass: it stops the clock, moves the last slot on and asks for a wait of all but one slot of the new lead. */
  lemma PassPaces(cfg: Config, cmds: seq<Command>, plan: seq<Planned>)
    requires plan != []
    ensures var all := cmds + [Pass([plan])];
            && Clock(cfg, all) == PassClock(cfg, all) == Clock(cfg, cmds)
            && ChannelRun(cfg, all, 0).channel.lastSlot
               == NextSlotTime(ChannelRun(cfg, cmds, 0).channel.lastSlot, Clock(cfg, cmds)) + (|plan| - 1) * SLOT_TIME
            && 0 <= Correction(cfg, all) && 0 <= Lead(cfg, all) <= Correction(cfg, all) + SLOT_TIME
            && (Correction(cfg, all) > 0 ==> Lead(cfg, all) == Correction(cfg, all) + SLOT_TIME)
  {
    var h := ChannelRun(cfg, cmds, 0);
    assert (cmds + [Pass([plan])])[..|cmds|] == cmds;
    ChannelStep(cfg, cmds, Pass([plan]), 0);
    PassIsAllocateAll(cfg, h, plan);
    PassAdvances(cfg, h.channel, plan);
    CorrectionCoversLead(cfg, h.channel, plan);
    hide CorrectionAfter, AllocateAll, ChannelRun, RunFrom, NextSlotTime;
  }

  /** A packet of n marks on consecutive samples. */
  function BusyPlan(n: nat): (plan: seq<Planned>)
    ensures |plan| == n
  {
    seq(n, i requires 0 <= i < n => Planned(1, i))
  }

  /** A block, 34 marks, a block as late as the sleep asks, and 34 marks more. */
  function BusyRun(start: int): seq<Command> {
    BusyStart(start) + [Pass([BusyPlan(34)])]
  }

  function BusyStart(start: int): seq<Command> {
    [Block(start)] + [Pass([BusyPlan(34)])] + [Block(start + 32 * SLOT_TIME)]
  }

  /** A pass of many marks on one channel that may be made. */
  lemma BusyPass(cfg: Config, cmds: seq<Command>, n: nat)
    requires SleepingRun(cfg, 1, cmds, 0, n) && Gate(cmds) && SleepHonouredAt(cfg, cmds, 0) && n > 0
    ensures var all := cmds + [Pass([BusyPlan(n)])];
            SleepingRun(cfg, 1, all, 0, n) && Gate(all) && HasPass(all) && Stamps(all) == Stamps(cmds)
  {
    var pass := Pass([BusyPlan(n)]);
    hide BusyPlan, Legal, StampsNondecreasing, SleepHonoured, AtMostMarks, SleepHonouredAt, SleepingRun, Gate;
    assert PassAllowed(1, cmds, [BusyPlan(n)]);
    SleepingRunGrows(cfg, 1, cmds, 0, n, pass);
    ChannelStep(cfg, cmds, pass, 0);
    assert (cmds + [pass])[|cmds|].Pass?;
    GateIsOfStamps(cmds, cmds + [pass]);
  }

  lemma GateIsOfStamps(cmds: seq<Command>, all: seq<Command>)
    requires Gate(cmds) && Stamps(cmds) <= Stamps(all)
    ensures Gate(all)
  {
    var b :| 0 <= b < |Stamps(cmds)| && Stamps(cmds)[b] > 4 * SLOT_TIME;
    assert Stamps(all)[b] == Stamps(cmds)[b];
    hide Stamps;
  }

  lemma OneBlockSleeps(cfg: Config, start: int, most: nat)
    requires Legal(1, [Block(start)])
    ensures SleepingRun(cfg, 1, [Block(start)], 0, most) && SleepHonouredAt(cfg, [Block(start)], 0)
    ensures Stamps([Block(start)]) == [start]
  {
    hide Correction, Clock, PassClock, Legal, Gate;
    ChannelStep(cfg, [], Block(start), 0);
    assert [] + [Block(start)] == [Block(start)];
    assert !HasPass([Block(start)]);
  }

  lemma FirstBusyPass(cfg: Config, start: int)
    requires start > 4 * SLOT_TIME
    ensures var run := [Block(start)] + [Pass([BusyPlan(34)])];
            && SleepingRun(cfg, 1, run, 0, 34) && Gate(run) && HasPass(run) && Stamps(run) == [start]
            && Lead(cfg, run) == 33 * SLOT_TIME && Correction(cfg, run) == 32 * SLOT_TIME
            && Clock(cfg, run) == PassClock(cfg, run) == start + 71 * TIME_PER_SAMPLE
  {
    hide BusyPlan, ChannelRun, Correction, PassClock, SleepingRun, Gate, Stamps, HasPass, SleepHonouredAt;
    var block := [Block(start)];
    OneBlock(cfg, start);
    OneBlockSleeps(cfg, start, 34);
    BusyPass(cfg, block, 34);
    PassPaces(cfg, block, BusyPlan(34));
    hide Clock;
  }

  /** A block stamped late enough after such a pass. */
  lemma NextBlock(cfg: Config, run: seq<Command>, start: int, next: int, most: nat)
    requires SleepingRun(cfg, 1, run, 0, most) && Gate(run) && Stamps(run) == [start] && start <= next
    ensures SleepingRun(cfg, 1, run + [Block(next)], 0, most) && Gate(run + [Block(next)])
  {
    hide SleepingRun, Stamps, Gate;
    StampsStep(run, Block(next));
    SleepingRunGrows(cfg, 1, run, 0, most, Block(next));
    GateIsOfStamps(run, run + [Block(next)]);
  }

  /** The first of two busy packets is slept off whole. */
  lemma BusyStartPaces(cfg: Config, start: int)
    requires start > 4 * SLOT_TIME
    ensures var run := BusyStart(start);
            && SleepingRun(cfg, 1, run, 0, 34) && Gate(run) && SleepHonouredAt(cfg, run, 0)
            && Lead(cfg, run) == SLOT_TIME && Clock(cfg, run) > 0
  {
    var run, next := [Block(start)] + [Pass([BusyPlan(34)])], start + 32 * SLOT_TIME;
    assert BusyStart(start) == run + [Block(next)];
    SleepIsWholeIff(32 * SLOT_TIME);
    hide BusyPlan, BusyStart, ChannelRun, Correction, PassClock, SleepingRun, Gate, Stamps, HasPass, Clock, Slept;
    FirstBusyPass(cfg, start);
    NextBlock(cfg, run, start, next, 34);
    BlockPaces(cfg, run, next);
  }

  /**
   * 34 marks a packet are too many. The first such packet is slept off whole;
   * the second asks for 1.02 s, nanosleep refuses, and the next pass may find
   * channel 0 a full 35 slots ahead.
   */
  lemma OverlongPackets(cfg: Config, start: int)
    requires start > 4 * SLOT_TIME
    ensures var run := BusyRun(start);
            && SleepingRun(cfg, 1, run, 0, 34) && Gate(run) && SleepHonouredAt(cfg, run, 0)
            && Correction(cfg, run) == 34 * SLOT_TIME && Slept(34 * SLOT_TIME) == 0
            && Lead(cfg, run) == 35 * SLOT_TIME
  {
    var before := BusyStart(start);
    assert Slept(34 * SLOT_TIME) == 0;
    assert BusyRun(start) == before + [Pass([BusyPlan(34)])];
    hide BusyPlan, BusyStart, BusyRun, ChannelRun, Correction, PassClock, SleepingRun, Gate, Stamps, HasPass;
    hide Clock, Slept;
    BusyStartPaces(cfg, start);
    BusyPass(cfg, before, 34);
    PassPaces(cfg, before, BusyPlan(34));
  }

  /** Pacing holds on every run exactly while no packet's marks can add up to a second. */
  lemma PacingIff(cfg: Config, most: nat)
    ensures PacesAll(cfg, most) <==> most * SLOT_TIME < NANOSECONDS_PER_SECOND
  {
    if most * SLOT_TIME < NANOSECONDS_PER_SECOND {
      forall active: nat, cmds: seq<Command>, i: nat |
        SleepingRun(cfg, active, cmds, 0, most) && i < |cmds| && cmds[i].Pass?
        ensures Lead(cfg, cmds[..i]) <= SLOT_TIME
      {
        PacedLead(cfg, active, cmds, 0, most, i);
      }
    } else {
      var start := 5 * SLOT_TIME;
      var before, pass := BusyRun(start), Pass([BusyPlan(34)]);
      OverlongPackets(cfg, start);
      assert SleepingRun(cfg, 1, before, 0, most);
      assert PassAllowed(1, before, pass.plans);
      hide BusyRun, SleepingRun, SleepHonouredAt, Lead;
      SleepingRunGrows(cfg, 1, before, 0, most, pass);
      assert (before + [pass])[..|before|] == before && (before + [pass])[|before|] == pass;
    }
  }

  // ---------- The simulated clock ----------

  const BLOCK_SAMPLES_TIME := RX_SAMP_OUT_SIZE * TIME_PER_SAMPLE

  /** The clock when the gate opens: after 41 simulated blocks. */
  const GATE_CLOCK := 40 * BLOCK_SAMPLES_TIME + (RX_SAMP_OUT_SIZE - 1) * TIME_PER_SAMPLE

  /** A paced run of one channel on the simulated clock, with one slot a packet. */
  ghost predicate SimulatedRun(cfg: Config, cmds: seq<Command>) {
    SleepingRun(cfg, 1, cmds, 0, 1) && OneEach(1, cmds) && SimulatedClock(Stamps(cmds))
  }

  /** One slot a pass stays so with one more block, or one more such pass. */
  lemma OneEachMore(cmds: seq<Command>, cmd: Command)
    requires OneEach(1, cmds) && (cmd.Pass? ==> AsksOnce(cmd.plans, 0))
    ensures OneEach(1, cmds + [cmd])
  {
    var all := cmds + [cmd];
    hide AsksOnce;
    forall i, c | 0 <= i < |all| && all[i].Pass? && 0 <= c < 1
      ensures AsksOnce(all[i].plans, c)
    {
      if i < |cmds| { assert all[i] == cmds[i] && AsksOnce(cmds[i].plans, c); }
    }
  }

  /** The simulated clock's next stamp, and the gate it opens. */
  lemma SimulatedStamp(cmds: seq<Command>)
    requires SimulatedClock(Stamps(cmds))
    ensures var block := Block(|Stamps(cmds)| * RX_SAMP_OUT_SIZE * TIME_PER_SAMPLE);
            && SimulatedClock(Stamps(cmds + [block])) && |Stamps(cmds + [block])| == |Stamps(cmds)| + 1
            && (forall b :: 0 <= b < |Stamps(cmds)| ==> Stamps(cmds)[b] <= block.timestamp)
            && (Gate(cmds) || |Stamps(cmds)| == 40 ==> Gate(cmds + [block]))
  {
    var block := Block(|Stamps(cmds)| * RX_SAMP_OUT_SIZE * TIME_PER_SAMPLE);
    StampsStep(cmds, block);
    if Gate(cmds) { GateIsOfStamps(cmds, cmds + [block]); }
    hide Stamps;
    assert Stamps(cmds + [block])[|Stamps(cmds)|] == block.timestamp;
  }

  lemma SimulatedBlock(cfg: Config, cmds: seq<Command>)
    requires SimulatedRun(cfg, cmds)
    ensures var all := cmds + [Block(|Stamps(cmds)| * RX_SAMP_OUT_SIZE * TIME_PER_SAMPLE)];
            && SimulatedRun(cfg, all) && |Stamps(all)| == |Stamps(cmds)| + 1
            && ChannelRun(cfg, all, 0).requests == ChannelRun(cfg, cmds, 0).requests
            && (Gate(cmds) || |Stamps(cmds)| == 40 ==> Gate(all))
  {
    hide Stamps, SleepingRun, ChannelRun, SimulatedClock, OneEach, Gate;
    var block := Block(|Stamps(cmds)| * RX_SAMP_OUT_SIZE * TIME_PER_SAMPLE);
    BlockAsksNothing(cfg, cmds, block.timestamp);
    SimulatedStamp(cmds);
    OneEachMore(cmds, block);
    SleepingRunGrows(cfg, 1, cmds, 0, 1, block);
  }

  lemma PassAsksOnce(cfg: Config, cmds: seq<Command>)
    ensures |ChannelRun(cfg, cmds + [Pass([BusyPlan(1)])], 0).requests| == |ChannelRun(cfg, cmds, 0).requests| + 1
  {
    ChannelStep(cfg, cmds, Pass([BusyPlan(1)]), 0);
    PassStep(cfg, ChannelRun(cfg, cmds, 0), BusyPlan(1));
  }

  lemma SimulatedPass(cfg: Config, cmds: seq<Command>)
    requires SimulatedRun(cfg, cmds) && Gate(cmds) && SleepHonouredAt(cfg, cmds, 0)
    ensures var all := cmds + [Pass([BusyPlan(1)])];
            && SimulatedRun(cfg, all) && Gate(all) && Stamps(all) == Stamps(cmds)
            && |ChannelRun(cfg, all, 0).requests| == |ChannelRun(cfg, cmds, 0).requests| + 1
  {
    hide Stamps, SleepingRun, ChannelRun, BusyPlan, SleepHonouredAt, SimulatedClock, OneEach, Gate;
    PassAsksOnce(cfg, cmds);
    BusyPass(cfg, cmds, 1);
    OneEachMore(cmds, Pass([BusyPlan(1)]));
  }

  /** Before the gate opens: n blocks and nothing else. */
  lemma {:induction false} IdleBlocks(cfg: Config, n: nat) returns (cmds: seq<Command>)
    requires n <= 41
    ensures SimulatedRun(cfg, cmds) && |Stamps(cmds)| == n && !HasPass(cmds) && (n == 41 ==> Gate(cmds))
    ensures ChannelRun(cfg, cmds, 0).requests == [] && ChannelRun(cfg, cmds, 0).channel.lastSlot == 0
  {
    if n == 0 {
      cmds := [];
    } else {
      cmds := IdleBlocks(cfg, n - 1);
      var stamp := |Stamps(cmds)| * RX_SAMP_OUT_SIZE * TIME_PER_SAMPLE;
      hide SimulatedRun, ChannelRun, Stamps, Correction, PassClock, Clock, Gate;
      SimulatedBlock(cfg, cmds);
      BlockPaces(cfg, cmds, stamp);
      cmds := cmds + [Block(stamp)];
    }
  }

  /** Channel 0 is ahead of the clock and has skipped no slot; it may pass again once at most a slot ahead. */
  ghost predicate Ahead(cfg: Config, cmds: seq<Command>) {
    && SimulatedRun(cfg, cmds) && Gate(cmds)
    && ChannelRun(cfg, cmds, 0).requests != []
    && ChannelRun(cfg, cmds, 0).channel.lastSlot
       == GATE_CLOCK + (|ChannelRun(cfg, cmds, 0).requests| - 1) * SLOT_TIME
    && 0 <= Lead(cfg, cmds) <= SLOT_TIME + BLOCK_SAMPLES_TIME
    && PassClock(cfg, cmds) <= Clock(cfg, cmds)
    && 0 <= Correction(cfg, cmds) <= 2 * SLOT_TIME
    && (Correction(cfg, cmds) > 0 ==>
          ChannelRun(cfg, cmds, 0).channel.lastSlot == PassClock(cfg, cmds) + Correction(cfg, cmds) + SLOT_TIME)
  }

  lemma SimulatedClockReads(cfg: Config, cmds: seq<Command>)
    requires SimulatedRun(cfg, cmds) && Stamps(cmds) != []
    ensures Clock(cfg, cmds) == (|Stamps(cmds)| - 1) * BLOCK_SAMPLES_TIME + (RX_SAMP_OUT_SIZE - 1) * TIME_PER_SAMPLE
  {
    hide Clock, Stamps, Legal, StampsNondecreasing, SleepHonoured, AtMostMarks, OneEach;
    ClockReads(cfg, 1, cmds);
  }

  lemma AheadBlock(cfg: Config, cmds: seq<Command>)
    requires Ahead(cfg, cmds) && Lead(cfg, cmds) >= BLOCK_SAMPLES_TIME
    ensures var all := cmds + [Block(|Stamps(cmds)| * RX_SAMP_OUT_SIZE * TIME_PER_SAMPLE)];
            Ahead(cfg, all) && |Stamps(all)| == |Stamps(cmds)| + 1
  {
    hide SimulatedRun, ChannelRun, Stamps, Correction, PassClock, Clock, Gate;
    GateHasStamp(cmds);
    SimulatedClockReads(cfg, cmds);
    SimulatedBlock(cfg, cmds);
    BlockPaces(cfg, cmds, |Stamps(cmds)| * RX_SAMP_OUT_SIZE * TIME_PER_SAMPLE);
  }

  lemma AheadPass(cfg: Config, cmds: seq<Command>)
    requires Ahead(cfg, cmds) && Lead(cfg, cmds) <= BLOCK_SAMPLES_TIME
    ensures var all := cmds + [Pass([BusyPlan(1)])];
            Ahead(cfg, all) && Stamps(all) == Stamps(cmds) && Lead(cfg, all) >= SLOT_TIME
  {
    hide SimulatedRun, ChannelRun, Stamps, Correction, PassClock, Clock, Gate, BusyPlan;
    SleepIsWholeIff(Correction(cfg, cmds));
    assert SleepHonouredAt(cfg, cmds, 0);
    SimulatedPass(cfg, cmds);
    PassPaces(cfg, cmds, BusyPlan(1));
  }

  /** Runs of any length in which channel 0 never falls behind. */
  lemma {:induction false} StaysAhead(cfg: Config, n: nat) returns (cmds: seq<Command>)
    ensures Ahead(cfg, cmds) && |Stamps(cmds)| == 41 + n
  {
    hide SimulatedRun, ChannelRun, Stamps, Correction, PassClock, Clock, Gate, BusyPlan, Ahead, Lead;
    if n == 0 {
      cmds := FirstPass(cfg);
    } else {
      cmds := StaysAhead(cfg, n - 1);
      if Lead(cfg, cmds) < BLOCK_SAMPLES_TIME {
        AheadPass(cfg, cmds);
        cmds := cmds + [Pass([BusyPlan(1)])];
      }
      AheadBlock(cfg, cmds);
      cmds := cmds + [Block(|Stamps(cmds)| * RX_SAMP_OUT_SIZE * TIME_PER_SAMPLE)];
    }
  }

  lemma FirstPass(cfg: Config) returns (cmds: seq<Command>)
    ensures Ahead(cfg, cmds) && |Stamps(cmds)| == 41
  {
    hide SimulatedRun, ChannelRun, Stamps, Correction, PassClock, Clock, Gate, BusyPlan, HasPass;
    var idle := IdleBlocks(cfg, 41);
    assert SleepHonouredAt(cfg, idle, 0);
    GateHasStamp(idle);
    SimulatedClockReads(cfg, idle);
    SimulatedPass(cfg, idle);
    PassPaces(cfg, idle, BusyPlan(1));
    cmds := idle + [Pass([BusyPlan(1)])];
  }

  /** Marks lie 720 samples apart, so b blocks hold at most b / 10 + 1 of them. */
  lemma FewMarks(cfg: Config, cmds: seq<Command>)
    requires Legal(1, cmds)
    ensures var h := ChannelRun(cfg, cmds, 0);
            && 10 * (|h.marks| - 1) <= |Stamps(cmds)|
            && |h.marks| + |h.channel.queue| >= |h.requests|
            && |h.marks| <= |h.requests|
  {
    var h := ChannelRun(cfg, cmds, 0);
    BlockClock(cfg, 1, cmds, 0);
    RunIsSound(cfg, Project(cmds, 0));
    if h.marks != [] {
      MarkSeparation(cfg, Project(cmds, 0), 0, |h.marks| - 1);
      NeverEarly(cfg, Project(cmds, 0), |h.marks| - 1);
    }
    hide Run, Stamps, Legal;
  }

  /** Slot n of such a run is due no later than n slots after the first. */
  lemma {:induction false} DueInTime(cfg: Config, cmds: seq<Command>, n: nat)
    requires Ahead(cfg, cmds) && n < |ChannelRun(cfg, cmds, 0).requests|
    ensures ChannelRun(cfg, cmds, 0).requests[n].time <= GATE_CLOCK + n * SLOT_TIME + cfg.rfDelay
    decreases |ChannelRun(cfg, cmds, 0).requests| - n
  {
    hide SimulatedRun, Gate, Correction, PassClock, Clock, RunFrom, Project, Lead;
    var r := ChannelRun(cfg, cmds, 0).requests;
    if n == |r| - 1 {
      RequestsSpaced(cfg, Project(cmds, 0), n);
    } else {
      RequestsSpaced(cfg, Project(cmds, 0), n + 1);
      hide Ahead;
      DueInTime(cfg, cmds, n + 1);
    }
  }

  /**
   * On the simulated clock nothing bounds the queue: 720 samples take 240 ns
   * more than a slot. For every bound there is a paced run of one slot a
   * packet that ends with more slots than that in the queue, and the next of
   * them overdue by more than that.
   */
  lemma SimulatedQueueGrows(cfg: Config, bound: nat) returns (cmds: seq<Command>)
    ensures SimulatedRun(cfg, cmds)
    ensures var h := ChannelRun(cfg, cmds, 0);
            && |h.channel.queue| > bound
            && |h.marks| < |h.requests| && SampleTime(cfg, h.channel) - h.requests[|h.marks|].time > bound
  {
    var late := if cfg.Delay() < 0 then 0 else cfg.Delay();
    var n := 1_250_000 * (bound + 6) + bound + cfg.rfDelay + late + 200_000_000;
    hide ChannelRun, Stamps, Legal, StampsNondecreasing, SleepHonoured, AtMostMarks, OneEach, SimulatedClock, Gate;
    hide Correction, PassClock;
    cmds := StaysAhead(cfg, n);
    FewMarks(cfg, cmds);
    SimulatedClockReads(cfg, cmds);
    var h := ChannelRun(cfg, cmds, 0);
    Excess(|h.requests| - 1, |h.marks| - 1, n, bound);
    DueInTime(cfg, cmds, |h.marks|);
  }

  lemma Excess(r: int, m: int, n: nat, bound: nat)
    requires r * SLOT_TIME >= n * BLOCK_SAMPLES_TIME && 10 * m <= n + 41
    requires n >= 1_250_000 * (bound + 6)
    ensures r - m > bound
  {
  }
}

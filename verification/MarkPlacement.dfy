/**
 * Where marks fall on the air, over every interleaving of the two threads.
 * On a hardware clock each slot is marked at the first sample of the whole
 * run whose filter-adjusted time reaches it, exactly when the configured
 * delays add up to something positive. On the simulated clock the lateness
 * can grow, by at most 240 ns a slot.
 */
module MarkPlacement {
  import opened Constants
  import opened SlotChannel
  import opened SlotHistory
  import opened MarkQueue
  import opened SlotSpacing
  import opened StepMachine

  // ---------- Clocks on which 720 samples fit into a slot ----------

  ghost predicate KeepsUp(times: seq<int>) {
    forall i, j :: 0 <= i <= j < |times| && j <= i + SAMPLES_PER_SLOT ==> times[j] <= times[i] + SLOT_TIME
  }

  /** Slot n is marked at the first sample ever to reach it, and stays unmarked only if none has. */
  ghost predicate ExactAt(h: History, n: nat)
    requires n < |h.requests|
  {
    var first := First(h.times, 0, h.requests[n].time);
    && (n < |h.marks| <==> first < |h.times|)
    && (n < |h.marks| ==> h.marks[n].index == first)
  }

  ghost predicate Exact(h: History) {
    forall n {:trigger ExactAt(h, n)} :: 0 <= n < |h.requests| ==> ExactAt(h, n)
  }

  /** Each slot is asked for before any sample reaches it, SLOT_TIME after the one before. */
  ghost predicate AskedInTime(requests: seq<Request>, times: seq<int>) {
    && (forall n :: 0 <= n < |requests| ==>
          0 < requests[n].at <= |times| && times[requests[n].at - 1] < requests[n].time)
    && (forall m, n :: 0 <= m && n == m + 1 < |requests| ==> requests[m].time + SLOT_TIME <= requests[n].time)
  }

  /** The first index does not change when the search starts later but misses nothing. */
  lemma FirstFrom(times: seq<int>, from: nat, due: int)
    requires forall j :: 0 <= j < from && j < |times| ==> times[j] < due
    ensures First(times, from, due) == First(times, 0, due)
  {
  }

  lemma NothingBeforeEarliest(h: History, n: nat)
    requires PromptHistory(h) && Nondecreasing(h.times) && KeepsUp(h.times) && AskedInTime(h.requests, h.times)
    requires n < |h.requests| && n <= |h.marks|
    requires n > 0 ==> h.marks[n - 1].index == First(h.times, 0, h.requests[n - 1].time) < |h.times|
    ensures First(h.times, Earliest(h.marks, n, h.requests[n].at), h.requests[n].time)
         == First(h.times, 0, h.requests[n].time)
  {
    var times, r := h.times, h.requests[n];
    var from := Earliest(h.marks, n, r.at);
    forall j | 0 <= j < from && j < |times|
      ensures times[j] < r.time
    {
      if j < r.at {
        assert times[j] <= times[r.at - 1];
      } else {
        var m := h.marks[n - 1].index;
        assert MarkedRight(h.marks[n - 1], h.requests[n - 1], times);
        assert times[m - 1] < h.requests[n - 1].time;
        assert times[j] <= times[m - 1] + SLOT_TIME;
      }
    }
    FirstFrom(times, from, r.time);
  }

  /** Slot n is exact if the slot before it is. */
  lemma NextExact(h: History, n: nat)
    requires PromptHistory(h) && Nondecreasing(h.times) && KeepsUp(h.times) && AskedInTime(h.requests, h.times)
    requires n < |h.requests| && n <= |h.marks|
    requires n > 0 ==> ExactAt(h, n - 1)
    ensures ExactAt(h, n)
  {
    NothingBeforeEarliest(h, n);
    hide Sound, KeepsUp, Nondecreasing, AskedInTime;
    if n < |h.marks| {
      assert InPlace(h.marks, n, h.requests[n], h.times);
    } else {
      assert Pending(h.marks, h.requests[n], h.times);
    }
  }

  lemma {:induction false} ExactMarks(h: History, n: nat)
    requires PromptHistory(h) && Nondecreasing(h.times) && KeepsUp(h.times) && AskedInTime(h.requests, h.times)
    requires n < |h.requests|
    ensures ExactAt(h, n)
  {
    if n == 0 {
    } else {
      ExactMarks(h, n - 1);
    }
    hide PromptHistory, KeepsUp, Nondecreasing;
    if n <= |h.marks| {
      hide AskedInTime, ExactAt;
      NextExact(h, n);
    } else {
      assert First(h.times, 0, h.requests[n - 1].time) == |h.times|;
      assert h.requests[n - 1].time < h.requests[n].time;
    }
  }

  /** What AskedInTime needs holds of every run whose delays add up to something positive. */
  lemma RunAsksInTime(cfg: Config, active: nat, cmds: seq<Command>, c: nat)
    requires Legal(active, cmds) && c < active && cfg.rfDelay + cfg.Delay() > 0
    ensures var h := ChannelRun(cfg, cmds, c); AskedInTime(h.requests, h.times)
  {
    var h := ChannelRun(cfg, cmds, c);
    BlockClock(cfg, active, cmds, c);
    forall n | 0 <= n < |h.requests|
      ensures 0 < h.requests[n].at <= |h.times| && h.times[h.requests[n].at - 1] < h.requests[n].time
      ensures n > 0 ==> h.requests[n - 1].time + SLOT_TIME <= h.requests[n].time
    {
      assert AskedAtRest(cfg, h.requests[n], h.times);
      RequestsSpaced(cfg, Project(cmds, c), n);
    }
  }

  // ---------- Hardware timestamps ----------

  /** No block is dropped and each is stamped 3 ms after the one before. */
  ghost predicate HardwareClock(stamps: seq<int>, start: int) {
    forall b :: 0 <= b < |stamps| ==> stamps[b] == start + b * BLOCK_TIME
  }

  /** The offset of sample g from the first on the hardware clock. */
  function Offset(g: nat): int { (g / 72) * BLOCK_TIME + (g % 72) * TIME_PER_SAMPLE }

  /** 72 * 41667 is not 3000000, yet samples never step back and ten blocks are one slot. */
  lemma OffsetSteps(g: nat)
    ensures Offset(g) < Offset(g + 1)
    ensures Offset(g + SAMPLES_PER_SLOT) == Offset(g) + SLOT_TIME
  {
    assert (g + 720) / 72 == g / 72 + 10 && (g + 720) % 72 == g % 72;
    if g % 72 == 71 {
      assert (g + 1) / 72 == g / 72 + 1 && (g + 1) % 72 == 0;
    } else {
      assert (g + 1) / 72 == g / 72 && (g + 1) % 72 == g % 72 + 1;
    }
  }

  lemma {:induction false} OffsetGrows(g: nat, k: nat)
    ensures Offset(g) <= Offset(g + k)
    decreases k
  {
    if k == 0 {
    } else {
      OffsetGrows(g, k - 1);
      OffsetSteps(g + k - 1);
    }
  }

  lemma OffsetsKeepUp(times: seq<int>, base: int)
    requires forall g :: 0 <= g < |times| ==> times[g] == base + Offset(g)
    ensures Nondecreasing(times) && KeepsUp(times)
  {
    hide Offset;
    forall i, j | 0 <= i <= j < |times|
      ensures times[i] <= times[j]
      ensures j <= i + SAMPLES_PER_SLOT ==> times[j] <= times[i] + SLOT_TIME
    {
      OffsetGrows(i, j - i);
      if j <= i + SAMPLES_PER_SLOT {
        OffsetGrows(j, i + SAMPLES_PER_SLOT - j);
        OffsetSteps(i);
      }
    }
  }

  lemma HardwareTimes(cfg: Config, cmds: seq<Command>, c: nat, start: int)
    requires OnBlockClock(cfg, cmds, c) && HardwareClock(Stamps(cmds), start)
    ensures var times := ChannelRun(cfg, cmds, c).times;
            && Nondecreasing(times) && KeepsUp(times)
            && forall g :: 0 <= g < |times| ==> times[g] == start - cfg.Delay() + Offset(g)
  {
    var times := ChannelRun(cfg, cmds, c).times;
    forall g | 0 <= g < |times|
      ensures times[g] == start - cfg.Delay() + Offset(g)
    {
      assert times[g] == SampleInstant(cfg, Stamps(cmds), g);
    }
    OffsetsKeepUp(times, start - cfg.Delay());
  }

  /**
   * Exact marking. In every interleaving on a hardware clock, each slot of
   * every channel is marked at the first sample of the run that reaches it.
   */
  lemma ExactMarking(cfg: Config, active: nat, cmds: seq<Command>, start: int, c: nat)
    requires Legal(active, cmds) && HardwareClock(Stamps(cmds), start) && c < active
    requires cfg.rfDelay + cfg.Delay() > 0
    ensures Exact(ChannelRun(cfg, cmds, c))
    ensures var times := ChannelRun(cfg, cmds, c).times;
            forall g :: 0 <= g < |times| ==> times[g] == start + Offset(g) - 6_000_048 - cfg.sampleDelay
  {
    var h := ChannelRun(cfg, cmds, c);
    BlockClock(cfg, active, cmds, c);
    HardwareTimes(cfg, cmds, c, start);
    RunIsPrompt(cfg, Project(cmds, c));
    RunAsksInTime(cfg, active, cmds, c);
    forall n | 0 <= n < |h.requests| ensures ExactAt(h, n) { ExactMarks(h, n); }
  }

  ghost predicate ExactOnEveryRun(cfg: Config) {
    forall active, cmds, start, c ::
      Legal(active, cmds) && HardwareClock(Stamps(cmds), start) && c < active ==> Exact(ChannelRun(cfg, cmds, c))
  }

  /** One block, one pass, one more block. */
  function ShortRun(start: int): seq<Command> {
    [Block(start), Pass([[Planned(1, MMDVM_MARK_POSITION)]]), Block(start + BLOCK_TIME)]
  }

  lemma ShortRunIsLegal(start: int)
    requires start > 4 * SLOT_TIME
    ensures Legal(1, ShortRun(start)) && Stamps(ShortRun(start)) == [start, start + BLOCK_TIME]
    ensures HardwareClock(Stamps(ShortRun(start)), start)
  {
    var run := ShortRun(start);
    assert run[..1] == [Block(start)] && run[..2][..1] == run[..1] && run[..1][..0] == [];
    assert Stamps(run[..1]) == [start] && Stamps(run[..2]) == [start];
    assert Stamps(run[..1])[0] > 4 * SLOT_TIME;
    assert PassAllowed(1, run[..1], run[1].plans);
  }

  /** Without a positive total delay the slot is already overdue when asked for, and marked late. */
  lemma LateWithoutDelay(cfg: Config, start: int)
    requires cfg.rfDelay + cfg.Delay() <= 0 && start > 4 * SLOT_TIME
    ensures !Exact(ChannelRun(cfg, ShortRun(start), 0))
  {
    var run := ShortRun(start);
    var before := run[..1];
    ShortRunIsLegal(start);
    BlockClock(cfg, 1, run, 0);
    HardwareTimes(cfg, run, 0, start);
    var h := ChannelRun(cfg, run, 0);
    ShortRunRequest(cfg, start);
    RunIsSound(cfg, Project(run, 0));
    assert h.times[71] == start - cfg.Delay() + Offset(71);
    assert ExactAt(h, 0) ==> MarkedRight(h.marks[0], h.requests[0], h.times);
  }

  lemma OneRequest(cfg: Config, before: seq<Command>, p: Planned)
    requires ChannelRun(cfg, before, 0).requests == []
    ensures var h, g := ChannelRun(cfg, before, 0), ChannelRun(cfg, before + [Pass([[p]])], 0);
            && |g.requests| == 1 && g.requests[0].at == |h.times|
            && g.requests[0].time == NextSlotTime(h.channel.lastSlot, Elapsed(h.channel)) + cfg.rfDelay
  {
    var h := ChannelRun(cfg, before, 0);
    ChannelStep(cfg, before, Pass([[p]]), 0);
    assert PassEvents([p]) == [] + [Allocate(p.no)];
    RunAppend(cfg, h, [], [Allocate(p.no)]);
    assert [Allocate(p.no)][..0] == [];
    assert RunFrom(cfg, h, [Allocate(p.no)]) == Step(cfg, RunFrom(cfg, h, []), Allocate(p.no));
  }

  lemma OneBlock(cfg: Config, start: int)
    requires start > 4 * SLOT_TIME
    ensures var ch := ChannelRun(cfg, [Block(start)], 0).channel;
            ch.lastSlot == 0 && Elapsed(ch) == start + 71 * TIME_PER_SAMPLE
    ensures var h := ChannelRun(cfg, [Block(start)], 0); h.requests == [] && |h.times| == 72
    ensures Legal(1, [Block(start)]) && Gate([Block(start)])
  {
    ChannelStep(cfg, [], Block(start), 0);
    assert [] + [Block(start)] == [Block(start)];
    BlockStep(cfg, START, start);
    assert Stamps([Block(start)])[0] > 4 * SLOT_TIME;
  }

  lemma BlockAsksNothing(cfg: Config, cmds: seq<Command>, timestamp: int)
    ensures ChannelRun(cfg, cmds + [Block(timestamp)], 0).requests == ChannelRun(cfg, cmds, 0).requests
  {
    ChannelStep(cfg, cmds, Block(timestamp), 0);
    BlockStep(cfg, ChannelRun(cfg, cmds, 0), timestamp);
  }

  lemma ShortRunRequest(cfg: Config, start: int)
    requires start > 4 * SLOT_TIME
    ensures var r := ChannelRun(cfg, ShortRun(start), 0).requests;
            |r| == 1 && r[0].at == 72 && r[0].time == start + 71 * TIME_PER_SAMPLE + cfg.rfDelay
  {
    var plan := Planned(1, MMDVM_MARK_POSITION);
    assert ShortRun(start) == [Block(start)] + [Pass([[plan]])] + [Block(start + BLOCK_TIME)];
    hide ChannelRun, ShortRun;
    OneBlock(cfg, start);
    OneRequest(cfg, [Block(start)], plan);
    BlockAsksNothing(cfg, [Block(start)] + [Pass([[plan]])], start + BLOCK_TIME);
  }

  /** Exact marking holds on every hardware-clocked run exactly when the delays add up to more than zero. */
  lemma ExactMarkingIff(cfg: Config)
    ensures ExactOnEveryRun(cfg) <==> cfg.rfDelay + cfg.Delay() > 0
  {
    if cfg.rfDelay + cfg.Delay() > 0 {
      forall active, cmds, start, c |
        Legal(active, cmds) && HardwareClock(Stamps(cmds), start) && c < active
        ensures Exact(ChannelRun(cfg, cmds, c))
      {
        ExactMarking(cfg, active, cmds, start, c);
      }
    } else {
      var start := 5 * SLOT_TIME;
      ShortRunIsLegal(start);
      LateWithoutDelay(cfg, start);
    }
  }

  // ---------- Simulated timestamps ----------

  /** m_readTime starts at zero and grows by 72 sample times a block. */
  ghost predicate SimulatedClock(stamps: seq<int>) {
    forall b :: 0 <= b < |stamps| ==> stamps[b] == b * RX_SAMP_OUT_SIZE * TIME_PER_SAMPLE
  }

  /** On the simulated clock global sample g is judged at exactly g * 41667 less the delays. */
  lemma SimulatedTimes(cfg: Config, cmds: seq<Command>, c: nat)
    requires OnBlockClock(cfg, cmds, c) && SimulatedClock(Stamps(cmds))
    ensures var times := ChannelRun(cfg, cmds, c).times;
            && Nondecreasing(times)
            && forall g :: 0 <= g < |times| ==> times[g] == g * TIME_PER_SAMPLE - cfg.Delay()
  {
    var times := ChannelRun(cfg, cmds, c).times;
    forall g | 0 <= g < |times|
      ensures times[g] == g * TIME_PER_SAMPLE - cfg.Delay()
    {
      assert times[g] == SampleInstant(cfg, Stamps(cmds), g);
      assert g == (g / 72) * 72 + g % 72;
    }
  }

  /** How far past its slot time slot n was marked. */
  function Lateness(h: History, n: nat): int
    requires n < |h.marks| && n < |h.requests| && h.marks[n].index < |h.times|
  {
    h.times[h.marks[n].index] - h.requests[n].time
  }

  ghost predicate LatenessRule(h: History, n: nat) {
    && n < |h.marks| <= |h.requests| && h.marks[n].index < |h.times|
    && (n > 0 ==> h.marks[n - 1].index < |h.times|)
    && 0 <= Lateness(h, n)
    && (Lateness(h, n) <= TIME_PER_SAMPLE - 1 || (n > 0 && Lateness(h, n) <= Lateness(h, n - 1) + 240))
  }

  /** What the lateness of marks on the simulated clock rests on. */
  ghost predicate OnSampleGrid(h: History, delay: int) {
    && PromptHistory(h) && AskedInTime(h.requests, h.times)
    && forall g :: 0 <= g < |h.times| ==> h.times[g] == g * TIME_PER_SAMPLE - delay
  }

  lemma SimulatedGrid(cfg: Config, active: nat, cmds: seq<Command>, c: nat)
    requires Legal(active, cmds) && SimulatedClock(Stamps(cmds)) && c < active && cfg.rfDelay + cfg.Delay() > 0
    ensures OnSampleGrid(ChannelRun(cfg, cmds, c), cfg.Delay())
  {
    BlockClock(cfg, active, cmds, c);
    SimulatedTimes(cfg, cmds, c);
    hide PromptHistory, AskedInTime, Nondecreasing, SimulatedClock, Legal, OnBlockClock, RunFrom;
    RunIsPrompt(cfg, Project(cmds, c));
    RunAsksInTime(cfg, active, cmds, c);
  }

  /** Lateness is under one sample, or at most 240 ns more than that of the slot before. */
  lemma SimulatedLateness(cfg: Config, active: nat, cmds: seq<Command>, c: nat, n: nat)
    requires Legal(active, cmds) && SimulatedClock(Stamps(cmds)) && c < active
    requires cfg.rfDelay + cfg.Delay() > 0 && n < |ChannelRun(cfg, cmds, c).marks|
    ensures LatenessRule(ChannelRun(cfg, cmds, c), n)
  {
    hide ChannelRun, SimulatedClock, Legal, LatenessRule, OnSampleGrid;
    SimulatedGrid(cfg, active, cmds, c);
    LatenessFollows(ChannelRun(cfg, cmds, c), n, cfg.Delay());
  }

  lemma LatenessFollows(h: History, n: nat, delay: int)
    requires OnSampleGrid(h, delay) && n < |h.marks|
    ensures LatenessRule(h, n)
  {
    var m := h.marks[n].index;
    assert InPlace(h.marks, n, h.requests[n], h.times);
    assert MarkedRight(h.marks[n], h.requests[n], h.times);
    if n > 0 { assert MarkedRight(h.marks[n - 1], h.requests[n - 1], h.times); }
    if n > 0 && m == h.marks[n - 1].index + SAMPLES_PER_SLOT {
      assert h.requests[n - 1].time + SLOT_TIME <= h.requests[n].time;
    } else {
      assert h.times[m - 1] < h.requests[n].time;
    }
  }

  /** Over a whole run the lateness of slot n is at most 41666 + 240 * n. */
  lemma {:induction false} SimulatedLatenessBound(cfg: Config, active: nat, cmds: seq<Command>, c: nat, n: nat)
    requires Legal(active, cmds) && SimulatedClock(Stamps(cmds)) && c < active
    requires cfg.rfDelay + cfg.Delay() > 0 && n < |ChannelRun(cfg, cmds, c).marks|
    ensures LatenessRule(ChannelRun(cfg, cmds, c), n)
    ensures Lateness(ChannelRun(cfg, cmds, c), n) <= TIME_PER_SAMPLE - 1 + 240 * n
  {
    SimulatedLateness(cfg, active, cmds, c, n);
    if n == 0 {
    } else {
      SimulatedLatenessBound(cfg, active, cmds, c, n - 1);
    }
  }

  /** Slots 1 to n follow their predecessors at once, and are asked for before these have run out. */
  ghost predicate BackToBack(h: History, n: nat) {
    && n < |h.marks| <= |h.requests|
    && forall m :: 0 < m <= n ==> FollowsAtOnce(h, m)
  }

  ghost predicate FollowsAtOnce(h: History, m: nat)
    requires 0 < m < |h.marks| <= |h.requests|
  {
    && h.requests[m].time == h.requests[m - 1].time + SLOT_TIME
    && h.requests[m].at <= h.marks[m - 1].index + SAMPLES_PER_SLOT
  }

  lemma OneSlotDrifts(h: History, n: nat, delay: int)
    requires OnSampleGrid(h, delay) && n > 0 && LatenessRule(h, n - 1) && LatenessRule(h, n) && FollowsAtOnce(h, n)
    ensures h.marks[n].index == h.marks[n - 1].index + SAMPLES_PER_SLOT
    ensures Lateness(h, n) == Lateness(h, n - 1) + 240
  {
    assert InPlace(h.marks, n, h.requests[n], h.times);
    assert MarkedRight(h.marks[n], h.requests[n], h.times);
    assert Apart(h.marks, n);
  }

  lemma {:induction false} SlotsDrift(h: History, n: nat, delay: int)
    requires OnSampleGrid(h, delay) && BackToBack(h, n)
    ensures LatenessRule(h, 0) && LatenessRule(h, n)
    ensures h.marks[n].index == h.marks[0].index + n * SAMPLES_PER_SLOT
    ensures Lateness(h, n) == Lateness(h, 0) + 240 * n
  {
    hide OnSampleGrid;
    LatenessFollows(h, n, delay);
    if n == 0 {
    } else {
      assert FollowsAtOnce(h, n);
      assert BackToBack(h, n - 1);
      hide FollowsAtOnce, BackToBack;
      SlotsDrift(h, n - 1, delay);
      OneSlotDrifts(h, n, delay);
    }
  }

  /** And back-to-back slots, asked for in time, are each marked exactly 240 ns later than the one before. */
  lemma SimulatedDrift(cfg: Config, active: nat, cmds: seq<Command>, c: nat, n: nat)
    requires Legal(active, cmds) && SimulatedClock(Stamps(cmds)) && c < active
    requires cfg.rfDelay + cfg.Delay() > 0 && BackToBack(ChannelRun(cfg, cmds, c), n)
    ensures var h := ChannelRun(cfg, cmds, c);
            && LatenessRule(h, 0) && LatenessRule(h, n)
            && h.marks[n].index == h.marks[0].index + n * SAMPLES_PER_SLOT
            && Lateness(h, n) == Lateness(h, 0) + 240 * n
  {
    hide ChannelRun, SimulatedClock, Legal, BackToBack, OnSampleGrid;
    SimulatedGrid(cfg, active, cmds, c);
    SlotsDrift(ChannelRun(cfg, cmds, c), n, cfg.Delay());
  }
}

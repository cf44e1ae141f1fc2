/**
 * How far the transmitter may run ahead. The correction of one pass is slept
 * before the next, which keeps channel 0 within a slot of the receiver's
 * clock and every queue short.
 */
module Pacing {
  import opened Constants
  import opened SlotChannel
  import opened SlotHistory
  import opened MarkQueue
  import opened SlotSpacing
  import opened StepMachine
  import opened TransmitPlan
  import opened MarkPlacement
  import opened Lockstep

  const NANOSECONDS_PER_SECOND := 1_000_000_000

  /**
   * How long sleepNano really sleeps: the argument is truncated to 32 bits
   * and nanosleep refuses a second or more.
   */
  function Slept(ns: nat): nat {
    var argument := ns % 0x1_0000_0000;
    if argument < NANOSECONDS_PER_SECOND then argument else 0
  }

  /** The sleep covers the whole correction exactly when that is under a second. */
  lemma SleepIsWholeIff(ns: nat)
    ensures Slept(ns) == ns <==> ns < NANOSECONDS_PER_SECOND
  {
  }

  /** Beyond that second nothing is slept, until the argument wraps around at 2^32 and starts over. */
  lemma SleptWraps(ns: nat)
    ensures Slept(ns + 4_294_967_296) == Slept(ns)
    ensures 1_000_000_000 <= ns < 4_294_967_296 ==> Slept(ns) == 0
  {
    var wraps, argument := ns / 0x1_0000_0000, ns % 0x1_0000_0000;
    assert ns + 0x1_0000_0000 == (wraps + 1) * 0x1_0000_0000 + argument;
    assert (ns + 0x1_0000_0000) % 0x1_0000_0000 == argument;
  }

  ghost predicate HasPass(cmds: seq<Command>) {
    exists i :: 0 <= i < |cmds| && cmds[i].Pass?
  }

  /** m_timingCorrection after the last pass; each pass starts from 0, the sleep having reset it. */
  function Correction(cfg: Config, cmds: seq<Command>): int {
    if cmds == [] then 0 else
    var k := |cmds| - 1;
    match cmds[k]
    case Block(_) => Correction(cfg, cmds[..k])
    case Pass(plans) =>
      if plans == [] then 0 else CorrectionAfter(cfg, ChannelRun(cfg, cmds[..k], 0).channel, plans[0], 0)
  }

  /** The receiver's clock as channel 0 read it in the last pass. */
  function PassClock(cfg: Config, cmds: seq<Command>): int {
    if cmds == [] then 0 else
    var k := |cmds| - 1;
    match cmds[k]
    case Block(_) => PassClock(cfg, cmds[..k])
    case Pass(_) => Clock(cfg, cmds[..k])
  }

  function Clock(cfg: Config, cmds: seq<Command>): int { Elapsed(ChannelRun(cfg, cmds, 0).channel) }

  function Lead(cfg: Config, cmds: seq<Command>): int {
    ChannelRun(cfg, cmds, 0).channel.lastSlot - Clock(cfg, cmds)
  }

  /** By the next pass the receiver's clock has moved on by what was slept, give or take `slack`. */
  ghost predicate SleepHonoured(cfg: Config, cmds: seq<Command>, slack: nat) {
    forall i :: 0 <= i < |cmds| && cmds[i].Pass? ==> SleepHonouredAt(cfg, cmds[..i], slack)
  }

  ghost predicate SleepHonouredAt(cfg: Config, before: seq<Command>, slack: nat) {
    HasPass(before) && Correction(cfg, before) >= 0 ==>
      Clock(cfg, before) >= PassClock(cfg, before) + Slept(Correction(cfg, before)) - slack
  }

  lemma SleepHonouredGrows(cfg: Config, cmds: seq<Command>, slack: nat, cmd: Command)
    requires SleepHonoured(cfg, cmds, slack) && (cmd.Pass? ==> SleepHonouredAt(cfg, cmds, slack))
    ensures SleepHonoured(cfg, cmds + [cmd], slack)
  {
    hide SleepHonouredAt;
    var all := cmds + [cmd];
    forall i | 0 <= i < |all| && all[i].Pass?
      ensures SleepHonouredAt(cfg, all[..i], slack)
    {
      if i < |cmds| {
        assert all[i] == cmds[i] && all[..i] == cmds[..i];
      } else {
        assert all[..i] == cmds;
      }
    }
  }

  /** No packet of channel 0 carries more than `most` marks. */
  ghost predicate AtMostMarks(cmds: seq<Command>, most: nat) {
    forall i :: 0 <= i < |cmds| && cmds[i].Pass? && cmds[i].plans != [] ==> |cmds[i].plans[0]| <= most
  }

  ghost predicate StampsNondecreasing(cmds: seq<Command>) {
    Nondecreasing(Stamps(cmds))
  }

  /** The state the last pass leaves for the sleep to work off. */
  ghost predicate Owed(cfg: Config, cmds: seq<Command>, slack: nat, most: nat) {
    && (HasPass(cmds) ==>
          && 0 <= Correction(cfg, cmds) <= most * SLOT_TIME + slack
          && ChannelRun(cfg, cmds, 0).channel.lastSlot - PassClock(cfg, cmds) <= Correction(cfg, cmds) + SLOT_TIME)
    && (!HasPass(cmds) ==> ChannelRun(cfg, cmds, 0).channel.lastSlot == 0)
  }

  lemma ClockAtRest(cfg: Config, h: History, stamps: seq<int>)
    requires AtRest(cfg, h) && TimesFollow(cfg, h.times, stamps) && stamps != []
    ensures Elapsed(h.channel) == stamps[|stamps| - 1] + (RX_SAMP_OUT_SIZE - 1) * TIME_PER_SAMPLE
  {
    var g := |h.times| - 1;
    assert h.times[g] == SampleInstant(cfg, stamps, g);
    assert g / 72 == |stamps| - 1 && g % 72 == 71;
  }

  /** Whenever the lock is free, every channel's clock reads the last stamp and 71 samples. */
  lemma ClockIsLastStamp(cfg: Config, active: nat, cmds: seq<Command>, c: nat)
    requires Legal(active, cmds) && c < active && Stamps(cmds) != []
    ensures Elapsed(ChannelRun(cfg, cmds, c).channel)
         == Stamps(cmds)[|Stamps(cmds)| - 1] + (RX_SAMP_OUT_SIZE - 1) * TIME_PER_SAMPLE
  {
    hide Legal, ChannelRun, Stamps, Gate, AtRest, TimesFollow;
    BlockClock(cfg, active, cmds, c);
    ClockAtRest(cfg, ChannelRun(cfg, cmds, c), Stamps(cmds));
  }

  lemma ClockReads(cfg: Config, active: nat, cmds: seq<Command>)
    requires Legal(active, cmds) && 0 < active && Stamps(cmds) != []
    ensures Clock(cfg, cmds) == Stamps(cmds)[|Stamps(cmds)| - 1] + (RX_SAMP_OUT_SIZE - 1) * TIME_PER_SAMPLE
  {
    ClockIsLastStamp(cfg, active, cmds, 0);
  }

  lemma GateOpensClock(cfg: Config, active: nat, cmds: seq<Command>, c: nat)
    requires Legal(active, cmds) && c < active && Gate(cmds) && StampsNondecreasing(cmds)
    ensures Elapsed(ChannelRun(cfg, cmds, c).channel) > 4 * SLOT_TIME
  {
    ClockIsLastStamp(cfg, active, cmds, c);
    var stamps := Stamps(cmds);
    var b :| 0 <= b < |stamps| && stamps[b] > 4 * SLOT_TIME;
    assert stamps[b] <= stamps[|stamps| - 1];
  }

  /** What is owed limits the lead at the start of the next pass. */
  lemma LeadAfterSleep(cfg: Config, active: nat, before: seq<Command>, slack: nat, most: nat)
    requires Legal(active, before) && 0 < active && Gate(before) && StampsNondecreasing(before)
    requires Owed(cfg, before, slack, most) && SleepHonouredAt(cfg, before, slack)
    requires most * SLOT_TIME + slack < NANOSECONDS_PER_SECOND
    ensures Lead(cfg, before) <= SLOT_TIME + slack
  {
    if HasPass(before) {
      SleepIsWholeIff(Correction(cfg, before));
    } else {
      GateOpensClock(cfg, active, before, 0);
    }
  }

  lemma OwedAfterPass(cfg: Config, before: seq<Command>, plans: seq<seq<Planned>>, slack: nat, most: nat)
    requires plans != [] && plans[0] != [] && |plans[0]| <= most
    requires Lead(cfg, before) <= SLOT_TIME + slack
    ensures Owed(cfg, before + [Pass(plans)], slack, most)
    ensures Correction(cfg, before + [Pass(plans)]) <= |plans[0]| * SLOT_TIME + slack
  {
    var after := before + [Pass(plans)];
    assert after[..|before|] == before && after[|before|].Pass?;
    var h := ChannelRun(cfg, before, 0);
    ChannelStep(cfg, before, Pass(plans), 0);
    PassIsAllocateAll(cfg, h, plans[0]);
    CorrectionCoversLead(cfg, h.channel, plans[0]);
    PassAdvances(cfg, h.channel, plans[0]);
    var wait, n := CorrectionAfter(cfg, h.channel, plans[0], 0), |plans[0]|;
    assert wait <= n * SLOT_TIME + slack;
  }

  lemma OwedAfterBlock(cfg: Config, before: seq<Command>, timestamp: int, slack: nat, most: nat)
    requires Owed(cfg, before, slack, most)
    ensures Owed(cfg, before + [Block(timestamp)], slack, most)
  {
    assert Correction(cfg, before + [Block(timestamp)]) == Correction(cfg, before) by {
      assert (before + [Block(timestamp)])[..|before|] == before;
    }
    hide Correction, PassClock, HasPass, RunFrom;
    HasPassStep(before, Block(timestamp));
    PassClockStep(cfg, before, Block(timestamp));
    ChannelStep(cfg, before, Block(timestamp), 0);
    BlockStep(cfg, ChannelRun(cfg, before, 0), timestamp);
  }

  lemma {:induction false} StampsPrefix(cmds: seq<Command>, k: nat)
    requires k <= |cmds|
    ensures Stamps(cmds[..k]) <= Stamps(cmds)
  {
    if k == |cmds| {
      assert cmds[..k] == cmds;
    } else {
      StampsPrefix(cmds[..|cmds| - 1], k);
      assert cmds[..|cmds| - 1][..k] == cmds[..k];
    }
  }

  /** A run in the assumed environment: time running forward, sleeps kept, at most `most` marks a packet. */
  ghost predicate SleepingRun(cfg: Config, active: nat, cmds: seq<Command>, slack: nat, most: nat) {
    && 0 < active && Legal(active, cmds) && StampsNondecreasing(cmds)
    && SleepHonoured(cfg, cmds, slack) && AtMostMarks(cmds, most)
  }

  /**
   * The same with so few marks a packet that no correction reaches the second
   * nanosleep refuses: 33 of them with up to 10 ms of slack.
   */
  ghost predicate PacedRun(cfg: Config, active: nat, cmds: seq<Command>, slack: nat, most: nat) {
    SleepingRun(cfg, active, cmds, slack, most) && most * SLOT_TIME + slack < NANOSECONDS_PER_SECOND
  }

  lemma PacedPrefix(cfg: Config, active: nat, cmds: seq<Command>, slack: nat, most: nat, k: nat)
    requires PacedRun(cfg, active, cmds, slack, most) && k <= |cmds|
    ensures PacedRun(cfg, active, cmds[..k], slack, most)
  {
    hide SleepHonouredAt, Legal;
    LegalPrefix(active, cmds, k);
    StampsPrefix(cmds, k);
    forall i | 0 <= i < k && cmds[i].Pass?
      ensures SleepHonouredAt(cfg, cmds[..k][..i], slack)
    {
      assert cmds[..k][..i] == cmds[..i];
    }
  }

  /** What a paced run says of its i-th command, a pass. */
  lemma PacedAt(cfg: Config, active: nat, cmds: seq<Command>, slack: nat, most: nat, i: nat)
    requires PacedRun(cfg, active, cmds, slack, most)
    requires i < |cmds| && cmds[i].Pass?
    ensures PassAllowed(active, cmds[..i], cmds[i].plans) && SleepHonouredAt(cfg, cmds[..i], slack)
    ensures 0 < active && cmds[i].plans != [] && cmds[i].plans[0] != [] && |cmds[i].plans[0]| <= most
    ensures most * SLOT_TIME + slack < NANOSECONDS_PER_SECOND
    ensures cmds[..i + 1] == cmds[..i] + [Pass(cmds[i].plans)]
  {
    hide SleepHonouredAt, Gate, StampsNondecreasing;
    assert PassAllowed(active, cmds[..i], cmds[i].plans);
  }

  lemma {:induction false} PacedOwes(cfg: Config, active: nat, cmds: seq<Command>, slack: nat, most: nat)
    requires PacedRun(cfg, active, cmds, slack, most)
    ensures Owed(cfg, cmds, slack, most)
  {
    if cmds == [] {
      assert !HasPass(cmds);
    } else {
      var k := |cmds| - 1;
      assert cmds == cmds[..k] + [cmds[k]];
      hide Owed, SleepHonouredAt, Legal, StampsNondecreasing, SleepHonoured, AtMostMarks;
      PacedPrefix(cfg, active, cmds, slack, most, k);
      PacedOwes(cfg, active, cmds[..k], slack, most);
      match cmds[k]
      case Block(timestamp) => OwedAfterBlock(cfg, cmds[..k], timestamp, slack, most);
      case Pass(plans) =>
        PacedAt(cfg, active, cmds, slack, most, k);
        hide Lead, Correction, Gate;
        LeadAfterSleep(cfg, active, cmds[..k], slack, most);
        OwedAfterPass(cfg, cmds[..k], plans, slack, most);
    }
  }

  /**
   * Pacing: at the start of every pass channel 0 is at most one slot (and the
   * slack of the sleep) ahead of the receiver's clock, and a pass of n marks
   * leaves a correction of at most n slots.
   */
  lemma PacedLead(cfg: Config, active: nat, cmds: seq<Command>, slack: nat, most: nat, i: nat)
    requires PacedRun(cfg, active, cmds, slack, most)
    requires i < |cmds| && cmds[i].Pass?
    ensures Lead(cfg, cmds[..i]) <= SLOT_TIME + slack
    ensures cmds[i].plans != []
    ensures Correction(cfg, cmds[..i + 1]) <= |cmds[i].plans[0]| * SLOT_TIME + slack
  {
    PacedPrefix(cfg, active, cmds, slack, most, i);
    PacedOwes(cfg, active, cmds[..i], slack, most);
    PacedAt(cfg, active, cmds, slack, most, i);
    hide Owed, Lead, Correction, Legal, StampsNondecreasing, SleepHonouredAt, SleepHonoured, AtMostMarks, Gate;
    LeadAfterSleep(cfg, active, cmds[..i], slack, most);
    OwedAfterPass(cfg, cmds[..i], cmds[i].plans, slack, most);
  }

  // ---------- Bounded queues ----------

  lemma GateHasStamp(cmds: seq<Command>)
    requires Gate(cmds)
    ensures Stamps(cmds) != []
  {
  }

  lemma HasPassStep(before: seq<Command>, cmd: Command)
    ensures HasPass(before + [cmd]) <==> HasPass(before) || cmd.Pass?
  {
    var after := before + [cmd];
    assert after[|before|] == cmd;
    if HasPass(before) {
      var i :| 0 <= i < |before| && before[i].Pass?;
      assert after[i].Pass?;
    }
    if HasPass(after) && cmd.Block? {
      var i :| 0 <= i < |after| && after[i].Pass?;
      assert before[i].Pass?;
    }
  }

  lemma PassClockStep(cfg: Config, before: seq<Command>, cmd: Command)
    ensures PassClock(cfg, before + [cmd]) == if cmd.Pass? then Clock(cfg, before) else PassClock(cfg, before)
  {
    assert (before + [cmd])[..|before|] == before;
    hide Clock;
  }

  /** The clock the last pass read has not been set back since. */
  lemma {:induction false} PassClockIsPast(cfg: Config, active: nat, cmds: seq<Command>)
    requires 0 < active && Legal(active, cmds) && StampsNondecreasing(cmds) && HasPass(cmds)
    ensures Stamps(cmds) != [] && PassClock(cfg, cmds) <= Clock(cfg, cmds)
  {
    if cmds == [] {
    } else {
      var k := |cmds| - 1;
      var before := cmds[..k];
      assert cmds[k].Pass? ==> PassAllowed(active, before, cmds[k].plans);
      assert cmds == before + [cmds[k]];
      hide Legal, HasPass, PassClock, Stamps, Clock, Gate, StampsNondecreasing;
      LegalPrefix(active, cmds, k);
      OrderedPrefix(cmds, k);
      HasPassStep(before, cmds[k]);
      PassClockStep(cfg, before, cmds[k]);
      if cmds[k].Block? { PassClockIsPast(cfg, active, before); } else { GateHasStamp(before); }
      ClockReads(cfg, active, before);
      ClockReads(cfg, active, cmds);
    }
  }

  lemma OrderedPrefix(cmds: seq<Command>, k: nat)
    requires StampsNondecreasing(cmds) && k <= |cmds|
    ensures StampsNondecreasing(cmds[..k])
    ensures Stamps(cmds[..k]) != [] ==>
              && Stamps(cmds) != []
              && Stamps(cmds[..k])[|Stamps(cmds[..k])| - 1] <= Stamps(cmds)[|Stamps(cmds)| - 1]
  {
    hide Stamps;
    StampsPrefix(cmds, k);
    if Stamps(cmds[..k]) != [] { ClocksOrdered(Stamps(cmds[..k]), Stamps(cmds)); }
  }

  lemma ClocksOrdered(s: seq<int>, t: seq<int>)
    requires s != [] && s <= t && Nondecreasing(t)
    ensures s[|s| - 1] <= t[|t| - 1]
  {
    assert s[|s| - 1] == t[|s| - 1];
  }

  /** A slot still in the queue is at most a slot time past. */
  lemma HeadIsRecent(h: History)
    requires PromptHistory(h) && Nondecreasing(h.times) && KeepsUp(h.times) && AskedInTime(h.requests, h.times)
    requires h.channel.queue != []
    ensures h.times != [] && h.times[|h.times| - 1] < h.channel.queue[0].time + SLOT_TIME
  {
    var q := h.channel.queue;
    var n := |h.requests| - |q|;
    assert SameSlot(q[0], h.requests[n]);
    ExactMarks(h, n);
    if Occupied(q) {
      var m := h.marks[n].index;
      assert MarkedRight(h.marks[n], h.requests[n], h.times);
      assert h.times[m - 1] < q[0].time;
      assert h.times[|h.times| - 1] <= h.times[m - 1] + SLOT_TIME;
    } else {
      assert First(h.times, 0, q[0].time) == |h.times|;
    }
  }

  lemma {:induction false} QueueSpan(requests: seq<Request>, times: seq<int>, m: nat, n: nat)
    requires AskedInTime(requests, times) && m <= n < |requests|
    ensures requests[m].time + (n - m) * SLOT_TIME <= requests[n].time
    decreases n
  {
    if m == n {
    } else {
      QueueSpan(requests, times, m, n - 1);
    }
  }

  /**
   * Bounded queues: on a hardware clock, paced and with one mark a packet, no
   * channel ever holds more slots than fit into three slot times and the
   * configured delays.
   */
  lemma BoundedQueue(cfg: Config, active: nat, cmds: seq<Command>, start: int, slack: nat, c: nat)
    requires PacedRun(cfg, active, cmds, slack, 1) && HardwareClock(Stamps(cmds), start)
    requires OneEach(active, cmds) && c < active && cfg.rfDelay + cfg.Delay() > 0
    ensures (|ChannelRun(cfg, cmds, c).channel.queue| - 1) * SLOT_TIME
          < 3 * SLOT_TIME + slack + cfg.rfDelay + cfg.Delay()
  {
    var h := ChannelRun(cfg, cmds, c);
    var q := h.channel.queue;
    if q != [] {
      QueueFacts(cfg, active, cmds, start, c);
      LastSlotIsNear(cfg, active, cmds, slack, c);
    }
  }

  lemma LastSlotIsNear(cfg: Config, active: nat, cmds: seq<Command>, slack: nat, c: nat)
    requires PacedRun(cfg, active, cmds, slack, 1) && OneEach(active, cmds) && c < active
    requires ChannelRun(cfg, cmds, c).requests != []
    ensures var ch := ChannelRun(cfg, cmds, c).channel;
            ch.lastSlot <= Elapsed(ch) + 2 * SLOT_TIME + slack
  {
    PacedOwes(cfg, active, cmds, slack, 1);
    OneEachLockstep(cfg, active, cmds, 0, c);
    var r := ChannelRun(cfg, cmds, c).requests;
    RunFollowsSchedule(cfg, Project(cmds, c));
    ClosedForm(Clocks(r));
    assert HasPass(cmds);
    PassClockIsPast(cfg, active, cmds);
  }

  lemma QueueFacts(cfg: Config, active: nat, cmds: seq<Command>, start: int, c: nat)
    requires Legal(active, cmds) && HardwareClock(Stamps(cmds), start)
    requires c < active && cfg.rfDelay + cfg.Delay() > 0
    requires ChannelRun(cfg, cmds, c).channel.queue != []
    ensures var h := ChannelRun(cfg, cmds, c);
            && h.requests != []
            && (|h.channel.queue| - 1) * SLOT_TIME
             < h.channel.lastSlot + cfg.rfDelay + SLOT_TIME - (Elapsed(h.channel) - cfg.Delay())
  {
    var h := ChannelRun(cfg, cmds, c);
    BlockClock(cfg, active, cmds, c);
    HardwareTimes(cfg, cmds, c, start);
    RunIsPrompt(cfg, Project(cmds, c));
    RunAsksInTime(cfg, active, cmds, c);
    SpanOfQueue(h);
    RequestsSpaced(cfg, Project(cmds, c), |h.requests| - 1);
  }

  lemma SpanOfQueue(h: History)
    requires PromptHistory(h) && Nondecreasing(h.times) && KeepsUp(h.times) && AskedInTime(h.requests, h.times)
    requires h.channel.queue != []
    ensures h.requests != [] && h.times != []
    ensures (|h.channel.queue| - 1) * SLOT_TIME
          < h.requests[|h.requests| - 1].time + SLOT_TIME - h.times[|h.times| - 1]
  {
    var q := h.channel.queue;
    var n := |h.requests| - |q|;
    HeadIsRecent(h);
    assert SameSlot(q[0], h.requests[n]);
    hide MarksMatch, Prompt, KeepsUp, Nondecreasing;
    QueueSpan(h.requests, h.times, n, |h.requests| - 1);
  }
}

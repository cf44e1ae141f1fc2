/**
 * The two threads around the scheduler. Both hold the timing mutex for a
 * whole step, so a run of the program is an interleaving of two atomic
 * commands: a receiver block and a transmitter pass. Each command is a list
 * of scheduler calls on every active channel.
 */
module StepMachine {
  import opened Constants
  import opened SlotChannel
  import opened SlotHistory

  /** One allocation of a pass: the slot and the sample of the packet its mark sits on. */
  datatype Planned = Planned(no: SlotNo, position: nat)

  datatype Command = Block(timestamp: int) | Pass(plans: seq<seq<Planned>>)

  /** One setTimer, then 72 checkTime calls of which the first does not advance the counter. */
  function BlockEvents(timestamp: int): seq<Event> {
    [Timer(timestamp)] + seq(RX_SAMP_OUT_SIZE, i => Sample(i == 0))
  }

  function PassEvents(plan: seq<Planned>): seq<Event> {
    seq(|plan|, i requires 0 <= i < |plan| => Allocate(plan[i].no))
  }

  function EventsOf(cmd: Command, c: nat): seq<Event> {
    match cmd
    case Block(timestamp) => BlockEvents(timestamp)
    case Pass(plans) => if c < |plans| then PassEvents(plans[c]) else []
  }

  /** What channel c sees of an interleaving. */
  function Project(cmds: seq<Command>, c: nat): seq<Event> {
    if cmds == [] then [] else Project(cmds[..|cmds| - 1], c) + EventsOf(cmds[|cmds| - 1], c)
  }

  /** The calls made on the active channels are exactly those of cmds. */
  ghost predicate Follows(trace: seq<seq<Event>>, active: nat, cmds: seq<Command>) {
    active <= |trace| && forall c :: 0 <= c < active ==> trace[c] == Project(cmds, c)
  }

  function ChannelRun(cfg: Config, cmds: seq<Command>, c: nat): History { Run(cfg, Project(cmds, c)) }

  /** The timestamps of the blocks received so far. */
  function Stamps(cmds: seq<Command>): seq<int> {
    if cmds == [] then [] else
    var last := cmds[|cmds| - 1];
    Stamps(cmds[..|cmds| - 1]) + if last.Block? then [last.timestamp] else []
  }

  lemma StampsStep(cmds: seq<Command>, cmd: Command)
    ensures Stamps(cmds + [cmd]) == Stamps(cmds) + if cmd.Block? then [cmd.timestamp] else []
  {
    assert (cmds + [cmd])[..|cmds|] == cmds;
  }

  /** The transmitter's timing gate: some block was stamped after the first four slots. */
  ghost predicate Gate(cmds: seq<Command>) {
    exists b :: 0 <= b < |Stamps(cmds)| && Stamps(cmds)[b] > 4 * SLOT_TIME
  }

  ghost predicate PassAllowed(active: nat, before: seq<Command>, plans: seq<seq<Planned>>) {
    Gate(before) && |plans| == active && forall c :: 0 <= c < active ==> plans[c] != []
  }

  /** The interleavings the two threads can produce: passes only behind the gate, no channel left out. */
  ghost predicate Legal(active: nat, cmds: seq<Command>) {
    forall i :: 0 <= i < |cmds| && cmds[i].Pass? ==> PassAllowed(active, cmds[..i], cmds[i].plans)
  }

  lemma LegalPrefix(active: nat, cmds: seq<Command>, k: nat)
    requires Legal(active, cmds) && k <= |cmds|
    ensures Legal(active, cmds[..k])
  {
    forall i | 0 <= i < k && cmds[i].Pass?
      ensures PassAllowed(active, cmds[..k][..i], cmds[i].plans)
    {
      assert cmds[..k][..i] == cmds[..i];
    }
  }

  lemma LegalMore(active: nat, cmds: seq<Command>, cmd: Command)
    requires Legal(active, cmds) && (cmd.Pass? ==> PassAllowed(active, cmds, cmd.plans))
    ensures Legal(active, cmds + [cmd])
  {
    var all := cmds + [cmd];
    forall i | 0 <= i < |all| && all[i].Pass?
      ensures PassAllowed(active, all[..i], all[i].plans)
    {
      if i < |cmds| {
        assert all[..i] == cmds[..i] && all[i] == cmds[i];
      } else {
        assert all[..i] == cmds;
      }
    }
  }

  lemma ChannelStep(cfg: Config, cmds: seq<Command>, cmd: Command, c: nat)
    ensures ChannelRun(cfg, cmds + [cmd], c) == RunFrom(cfg, ChannelRun(cfg, cmds, c), EventsOf(cmd, c))
    ensures Stamps(cmds + [cmd]) == Stamps(cmds) + if cmd.Block? then [cmd.timestamp] else []
  {
    StampsStep(cmds, cmd);
    assert (cmds + [cmd])[..|cmds|] == cmds;
    RunAppend(cfg, START, Project(cmds, c), EventsOf(cmd, c));
  }

  // ---------- One command at a time ----------

  function BlockTimes(cfg: Config, timestamp: int, k: nat): seq<int> {
    seq(k, i => timestamp + i * TIME_PER_SAMPLE - cfg.Delay())
  }

  lemma BlockEventsPrefix(timestamp: int, k: nat)
    requires 0 < k <= RX_SAMP_OUT_SIZE
    ensures BlockEvents(timestamp)[..k + 1] == BlockEvents(timestamp)[..k] + [Sample(k == 1)]
  {
  }

  lemma RunFromSnoc(cfg: Config, h: History, es: seq<Event>, e: Event)
    ensures RunFrom(cfg, h, es + [e]) == Step(cfg, RunFrom(cfg, h, es), e)
  {
    assert (es + [e])[..|es|] == es;
  }

  /** What a block's first k samples leave behind. */
  ghost predicate Heard(cfg: Config, h: History, timestamp: int, k: nat, g: History) {
    && g.channel.timeBase == timestamp
    && g.channel.sampleCounter == (if k == 0 then 0 else k - 1)
    && g.channel.lastSlot == h.channel.lastSlot
    && (g.channel.initialized <==> h.channel.initialized || timestamp > 4 * SLOT_TIME)
    && g.requests == h.requests
    && g.times == h.times + BlockTimes(cfg, timestamp, k)
  }

  lemma HeardMore(cfg: Config, h: History, timestamp: int, k: nat, g: History)
    requires k > 0 && Heard(cfg, h, timestamp, k - 1, g)
    ensures Heard(cfg, h, timestamp, k, Step(cfg, g, Sample(k == 1)))
  {
    hide Serve, Logged;
    assert BlockTimes(cfg, timestamp, k)
        == BlockTimes(cfg, timestamp, k - 1) + [timestamp + (k - 1) * TIME_PER_SAMPLE - cfg.Delay()];
  }

  lemma {:induction false} BlockPrefix(cfg: Config, h: History, timestamp: int, k: nat)
    requires k <= RX_SAMP_OUT_SIZE
    ensures Heard(cfg, h, timestamp, k, RunFrom(cfg, h, BlockEvents(timestamp)[..k + 1]))
  {
    if k == 0 {
      assert BlockEvents(timestamp)[..1] == [] + [Timer(timestamp)];
      RunFromSnoc(cfg, h, [], Timer(timestamp));
    } else {
      hide RunFrom, BlockEvents, Heard, Step;
      assert |BlockEvents(timestamp)| == RX_SAMP_OUT_SIZE + 1 by { BlockLength(timestamp); }
      BlockEventsPrefix(timestamp, k);
      RunFromSnoc(cfg, h, BlockEvents(timestamp)[..k], Sample(k == 1));
      BlockPrefix(cfg, h, timestamp, k - 1);
      HeardMore(cfg, h, timestamp, k, RunFrom(cfg, h, BlockEvents(timestamp)[..k]));
    }
  }

  lemma BlockLength(timestamp: int)
    ensures |BlockEvents(timestamp)| == RX_SAMP_OUT_SIZE + 1
  {
  }

  /** A block judges sample i at timestamp + i * TIME_PER_SAMPLE less the delays, and leaves the counter at 71. */
  lemma BlockStep(cfg: Config, h: History, timestamp: int)
    ensures var g := RunFrom(cfg, h, BlockEvents(timestamp));
            && g.channel.timeBase == timestamp
            && g.channel.sampleCounter == RX_SAMP_OUT_SIZE - 1
            && g.channel.lastSlot == h.channel.lastSlot
            && (g.channel.initialized <==> h.channel.initialized || timestamp > 4 * SLOT_TIME)
            && g.requests == h.requests
            && g.times == h.times + BlockTimes(cfg, timestamp, RX_SAMP_OUT_SIZE)
  {
    BlockPrefix(cfg, h, timestamp, RX_SAMP_OUT_SIZE);
    assert BlockEvents(timestamp)[..RX_SAMP_OUT_SIZE + 1] == BlockEvents(timestamp);
  }

  /** A pass leaves the clock alone: every allocation in it reads the same elapsed time. */
  lemma {:induction false} PassStep(cfg: Config, h: History, plan: seq<Planned>)
    ensures var g := RunFrom(cfg, h, PassEvents(plan));
            && g.times == h.times && g.answers == h.answers && g.marks == h.marks
            && g.channel.timeBase == h.channel.timeBase
            && g.channel.sampleCounter == h.channel.sampleCounter
            && g.channel.initialized == h.channel.initialized
            && |g.requests| == |h.requests| + |plan|
            && h.requests <= g.requests
            && forall n :: |h.requests| <= n < |g.requests| ==>
                 g.requests[n].elapsed == Elapsed(h.channel) && g.requests[n].at == |h.times|
  {
    if plan == [] {
    } else {
      var n := |plan| - 1;
      PassStep(cfg, h, plan[..n]);
      assert PassEvents(plan)[..n] == PassEvents(plan[..n]);
    }
  }

  // ---------- Between commands ----------

  /** Whenever the lock is free the clock reads the last sample received. */
  ghost predicate AtRest(cfg: Config, h: History) {
    && (h.times != [] ==>
          && h.channel.sampleCounter == RX_SAMP_OUT_SIZE - 1
          && h.times[|h.times| - 1] == SampleTime(cfg, h.channel))
    && (forall n :: 0 <= n < |h.requests| ==> AskedAtRest(cfg, h.requests[n], h.times))
  }

  /** The request was made right after sample at - 1, whose clock it read. */
  ghost predicate AskedAtRest(cfg: Config, r: Request, times: seq<int>) {
    0 < r.at <= |times| && times[r.at - 1] == r.elapsed - cfg.Delay()
  }

  lemma AtRestStep(cfg: Config, h: History, cmd: Command, c: nat)
    requires AtRest(cfg, h) && (cmd.Pass? ==> h.times != [])
    ensures AtRest(cfg, RunFrom(cfg, h, EventsOf(cmd, c)))
  {
    var g := RunFrom(cfg, h, EventsOf(cmd, c));
    match cmd
    case Block(timestamp) =>
      BlockStep(cfg, h, timestamp);
      forall n | 0 <= n < |g.requests|
        ensures AskedAtRest(cfg, g.requests[n], g.times)
      {
        assert AskedAtRest(cfg, h.requests[n], h.times);
      }
    case Pass(plans) =>
      if c < |plans| {
        PassStep(cfg, h, plans[c]);
        forall n | 0 <= n < |g.requests|
          ensures AskedAtRest(cfg, g.requests[n], g.times)
        {
          if n < |h.requests| { assert AskedAtRest(cfg, h.requests[n], h.times); }
        }
      }
  }

  /** Sample g of the run belongs to block g / 72 and is judged at that block's stamp plus its offset. */
  ghost predicate TimesFollow(cfg: Config, times: seq<int>, stamps: seq<int>) {
    && |times| == RX_SAMP_OUT_SIZE * |stamps|
    && forall g :: 0 <= g < |times| ==> times[g] == SampleInstant(cfg, stamps, g)
  }

  function SampleInstant(cfg: Config, stamps: seq<int>, g: nat): int
    requires g < 72 * |stamps|
  {
    stamps[g / 72] + (g % 72) * TIME_PER_SAMPLE - cfg.Delay()
  }

  lemma TimesFollowBlock(cfg: Config, times: seq<int>, stamps: seq<int>, timestamp: int)
    requires TimesFollow(cfg, times, stamps)
    ensures TimesFollow(cfg, times + BlockTimes(cfg, timestamp, RX_SAMP_OUT_SIZE), stamps + [timestamp])
  {
    var more := times + BlockTimes(cfg, timestamp, RX_SAMP_OUT_SIZE);
    forall g | 0 <= g < |more|
      ensures more[g] == SampleInstant(cfg, stamps + [timestamp], g)
    {
      if g < |times| {
        assert times[g] == SampleInstant(cfg, stamps, g);
      } else {
        assert g / 72 == |stamps| && g % 72 == g - |times|;
      }
    }
  }

  /**
   * The block clock: the lock is only ever free with the counter at 71,
   * every request read the clock of the last sample, sample times are those
   * of the block stamps, and the timing latch of the channel is the gate.
   */
  ghost predicate OnBlockClock(cfg: Config, cmds: seq<Command>, c: nat) {
    var h := ChannelRun(cfg, cmds, c);
    && AtRest(cfg, h)
    && TimesFollow(cfg, h.times, Stamps(cmds))
    && (h.channel.initialized <==> Gate(cmds))
  }

  lemma ReceiveKeepsClock(cfg: Config, before: seq<Command>, timestamp: int, c: nat)
    requires OnBlockClock(cfg, before, c)
    ensures OnBlockClock(cfg, before + [Block(timestamp)], c)
  {
    var h := ChannelRun(cfg, before, c);
    ChannelStep(cfg, before, Block(timestamp), c);
    AtRestStep(cfg, h, Block(timestamp), c);
    BlockStep(cfg, h, timestamp);
    TimesFollowBlock(cfg, h.times, Stamps(before), timestamp);
    GateStep(before, timestamp);
    hide AtRest, TimesFollow, Gate, RunFrom, Stamps;
  }

  lemma TransmitKeepsClock(cfg: Config, active: nat, before: seq<Command>, plans: seq<seq<Planned>>, c: nat)
    requires OnBlockClock(cfg, before, c) && PassAllowed(active, before, plans) && c < active
    ensures OnBlockClock(cfg, before + [Pass(plans)], c)
  {
    var h := ChannelRun(cfg, before, c);
    ChannelStep(cfg, before, Pass(plans), c);
    AtRestStep(cfg, h, Pass(plans), c);
    PassStep(cfg, h, plans[c]);
    assert Stamps(before + [Pass(plans)]) == Stamps(before);
    hide AtRest, TimesFollow, RunFrom, Stamps;
  }

  lemma {:induction false} BlockClock(cfg: Config, active: nat, cmds: seq<Command>, c: nat)
    requires Legal(active, cmds) && c < active
    ensures OnBlockClock(cfg, cmds, c)
  {
    if cmds == [] {
    } else {
      var k := |cmds| - 1;
      LegalPrefix(active, cmds, k);
      BlockClock(cfg, active, cmds[..k], c);
      assert cmds == cmds[..k] + [cmds[k]];
      match cmds[k]
      case Block(timestamp) => ReceiveKeepsClock(cfg, cmds[..k], timestamp, c);
      case Pass(plans) => TransmitKeepsClock(cfg, active, cmds[..k], plans, c);
    }
  }

  /**
   * In every interleaving the g-th sample is judged at its block's stamp plus
   * its place in the block, less the 144 sample times of the filters and the
   * configured delay.
   */
  lemma SampleInstants(cfg: Config, active: nat, cmds: seq<Command>, c: nat, g: nat)
    requires Legal(active, cmds) && c < active && g < 72 * |Stamps(cmds)|
    ensures |ChannelRun(cfg, cmds, c).times| == 72 * |Stamps(cmds)|
    ensures ChannelRun(cfg, cmds, c).times[g]
         == Stamps(cmds)[g / 72] + (g % 72) * 41_667 - 6_000_048 - cfg.sampleDelay
  {
    BlockClock(cfg, active, cmds, c);
    hide Legal, Stamps, ChannelRun, AtRest, Gate;
    assert ChannelRun(cfg, cmds, c).times[g] == SampleInstant(cfg, Stamps(cmds), g);
  }

  lemma GateStep(before: seq<Command>, timestamp: int)
    requires Stamps(before + [Block(timestamp)]) == Stamps(before) + [timestamp]
    ensures Gate(before + [Block(timestamp)]) <==> Gate(before) || timestamp > 4 * SLOT_TIME
  {
    var s, t := Stamps(before), Stamps(before + [Block(timestamp)]);
    if Gate(before) {
      var b :| 0 <= b < |s| && s[b] > 4 * SLOT_TIME;
      assert t[b] == s[b];
    }
    assert t[|s|] == timestamp;
  }
}

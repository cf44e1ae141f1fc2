/**
 * The two thread objects on one scheduler, run by an arbitrary schedule of
 * their atomic steps. Whatever the schedule, the objects are where
 * ThreadSchedule says: what the scheduler has seen are the blocks received and
 * the passes the packets ask for, so the theorems about those runs are
 * theorems about the objects.
 */
module Modem {
  import opened Constants
  import opened SlotChannel
  import opened SlotHistory
  import opened StepMachine
  import opened MarkQueue
  import opened MarkPlacement
  import opened TransmitPlan
  import opened SlotNumbering
  import opened Lockstep
  import opened Pacing
  import opened ThreadSchedule
  import opened DmrTiming
  import opened Packets
  import opened Packetiser
  import R = ReceiverThread
  import T = TransmitterThread

  /**
   * The receiver's quantiser undoes the transmitter's scaling for every
   * 16-bit sample but the one value the clamp never produces.
   */
  lemma SampleRoundTrip(data: Int16, symbolDeviation: real)
    requires symbolDeviation > 0.0
    ensures R.Quantise(T.ToFloat(data, symbolDeviation), symbolDeviation) == data <==> data != -32768
  {
    var x := data as real * symbolDeviation;
    assert 32767.0 * (x / 32767.0) == x;
    assert x / symbolDeviation == data as real;
    assert R.Truncate(data as real) == data;
  }

  ghost predicate Disjoint(rx: R.Receiver, tx: T.Transmitter) {
    {rx as object, rx.rssi, rx.controlBuf, rx.sampleBuf, rx.sent} !!
    {tx as object, tx.sn, tx.controlBuf, tx.sampleBuf}
  }

  ghost function SetupOf(rx: R.Receiver): Setup { Setup(rx.activeChannels, rx.pfbChannels, rx.timestamping) }

  /** The transmitter's slot numbers are those after the packets; its buffers hold what it has read, if it sleeps. */
  ghost predicate Poised(tx: T.Transmitter, w: World)
    reads tx, tx.sn, tx.controlBuf
  {
    && tx.activeChannels <= MAX_MMDVM_CHANNELS == tx.sn.Length == tx.controlBuf.Length
    && tx.sn[..tx.activeChannels] == NumbersAfter(tx.activeChannels, w.packets)
    && match w.loaded
       case None => tx.Drained() && tx.timingCorrection == Correction(tx.burstTimer.Cfg(), w.cmds)
       case Some(controls) =>
         tx.timingInit && tx.timingCorrection == 0 && tx.controlBuf[..tx.activeChannels] == controls
  }

  /** The two objects, and the scheduler they share, are where the schedule leads. */
  ghost predicate Linked(rx: R.Receiver, tx: T.Transmitter, w: World)
    reads rx, rx.rssi, rx.controlBuf, rx.sampleBuf, rx.sent, rx.burstTimer, rx.burstTimer.Repr
    reads tx, tx.sn, tx.controlBuf, tx.sampleBuf, tx.burstTimer, tx.burstTimer.Repr
  {
    && rx.burstTimer == tx.burstTimer && rx.activeChannels == tx.activeChannels && Disjoint(rx, tx)
    && rx.Valid() && tx.Valid() && Follows(tx.burstTimer.trace, tx.activeChannels, w.cmds)
    && Sane(SetupOf(rx), w) && (tx.timingInit ==> Gate(w.cmds)) && rx.readTime == w.readTime
    && Poised(tx, w)
  }

  lemma CorrectionStays(cfg: Config, cmds: seq<Command>, timestamp: int)
    ensures Correction(cfg, cmds + [Block(timestamp)]) == Correction(cfg, cmds)
  {
    assert (cmds + [Block(timestamp)])[..|cmds|] == cmds;
  }

  /** One iteration of the receiver, at any point of the transmitter's. */
  method ReceiverTurn(rx: R.Receiver, tx: T.Transmitter, a: Action, ghost w: World)
    requires Linked(rx, tx, w) && a.Receive? && Fits(rx.activeChannels, a)
    modifies rx, rx.rssi, rx.controlBuf, rx.sampleBuf, rx.sent, rx.burstTimer.Repr
    ensures ChannelsLoaded(SetupOf(rx), w) && Linked(rx, tx, Act(SetupOf(rx), w, a))
    ensures fresh(rx.burstTimer.Repr - old(rx.burstTimer.Repr))
  {
    hide R.Receiver.InStep, R.Receiver.Took, DMRTiming.Valid, Act, Fits, Sane, Correction, Project, Gate, Poised;
    ghost var s, cfg := SetupOf(rx), rx.burstTimer.Cfg();
    ReceiveSteps(cfg, s, w, a);
    assert old(Poised(tx, w));
    var accepted, timestamp := rx.ReceiveBlock(a.ret, a.hasTime, a.timeNs, a.outputs, a.powers, w.cmds);
    assert Poised(tx, w);
    PoisedStays(tx, w, Act(s, w, a));
    hide R.Receiver.Valid;
  }

  /** What a turn of the receiver changes in the world. */
  lemma ReceiveSteps(cfg: Config, s: Setup, w: World, a: Action)
    requires Sane(s, w) && a.Receive? && Fits(s.active, a)
    ensures ChannelsLoaded(s, w) && Sane(s, Act(s, w, a))
    ensures |a.outputs| == |a.powers| == s.active
    ensures forall c :: 0 <= c < s.active ==> |a.outputs[c]| == RX_SAMP_OUT_SIZE
    ensures var accepted, after := a.ret == RX_INTERP_IN_SIZE * s.pfb, Act(s, w, a);
            && after.cmds == (if accepted then w.cmds + [Block(StampOf(s, w, a))] else w.cmds)
            && after.readTime == w.readTime + (if accepted then ReadTimeMove(s, a) else 0)
            && after.packets == w.packets && after.loaded == w.loaded
            && Correction(cfg, after.cmds) == Correction(cfg, w.cmds) && (Gate(w.cmds) ==> Gate(after.cmds))
  {
    ActIsSane(s, w, a);
    hide Sane, Gate, Correction;
    if a.ret == RX_INTERP_IN_SIZE * s.pfb {
      CorrectionStays(cfg, w.cmds, StampOf(s, w, a));
      if Gate(w.cmds) { GateStays(w.cmds, Block(StampOf(s, w, a))); }
    }
  }

  lemma PoisedStays(tx: T.Transmitter, w: World, after: World)
    requires Poised(tx, w) && after.packets == w.packets && after.loaded == w.loaded
    requires Correction(tx.burstTimer.Cfg(), after.cmds) == Correction(tx.burstTimer.Cfg(), w.cmds)
    ensures Poised(tx, after)
  {
    hide Correction;
  }

  /** A pass makes no checkTime and no setTimer call: it gives no answers and leaves the latch. */
  lemma PassIsSilent(cfg: Config, cmds: seq<Command>, plans: seq<seq<Planned>>, c: nat)
    requires c < |plans|
    ensures var h, g := ChannelRun(cfg, cmds, c), ChannelRun(cfg, cmds + [Pass(plans)], c);
            g.answers == h.answers && g.channel.initialized == h.channel.initialized
  {
    ChannelStep(cfg, cmds, Pass(plans), c);
    PassStep(cfg, ChannelRun(cfg, cmds, c), plans[c]);
  }

  /** An iteration of the transmitter up to its sleep, which lasts as long as the last pass asked for. */
  method FirstHalf(rx: R.Receiver, tx: T.Transmitter, a: Action, ghost w: World) returns (ready: bool, sleep: int)
    requires Linked(rx, tx, w) && w.loaded.None? && a.Transmit? && Fits(rx.activeChannels, a)
    modifies tx, tx.controlBuf, tx.sampleBuf
    ensures ChannelsLoaded(SetupOf(rx), w) && Linked(rx, tx, Act(SetupOf(rx), w, a))
    ensures ready == Act(SetupOf(rx), w, a).loaded.Some?
    ensures ready ==> sleep == Correction(rx.burstTimer.Cfg(), w.cmds)
    ensures rx.burstTimer.Repr == old(rx.burstTimer.Repr)
  {
    hide R.Receiver.InStep, DMRTiming.Valid, SimulatedClock, Legal, Correction;
    assert tx.burstTimer == rx.burstTimer;
    ready, sleep := tx.Prepare(a.messages, w.cmds);
    ActIsSane(SetupOf(rx), w, a);
    if ready {
      assert tx.controlBuf[..tx.activeChannels] == ControlsOfAll(a.messages);
    }
  }

  /** What the receiver's invariant knows of a channel's calls. */
  ghost predicate SameForReceiver(cfg: Config, es: seq<Event>, fs: seq<Event>) {
    && Run(cfg, es).answers == Run(cfg, fs).answers
    && Run(cfg, es).channel.initialized == Run(cfg, fs).channel.initialized
  }

  /** The numbers after one packet more. */
  lemma NumbersMore(active: nat, packets: seq<seq<seq<nat>>>, controls: seq<seq<nat>>, sn: seq<SlotNo>)
    requires |controls| == active == |sn|
    requires forall c :: 0 <= c < active ==> sn[c] == NextNumber(NumbersAfter(active, packets)[c], controls[c])
    ensures sn == NumbersAfter(active, packets + [controls])
  {
    hide NextNumber;
    forall c | 0 <= c < active
      ensures sn[c] == NumbersAfter(active, packets + [controls])[c]
    {
      var column := Column(packets + [controls], c);
      assert column[..|packets|] == Column(packets, c);
    }
  }

  /** The pass a sleeping transmitter is about to make. */
  ghost function NextPass(active: nat, w: World): Command
    requires w.loaded.Some? && |w.loaded.value| == active
  {
    Pass(T.PlansFor(NumbersAfter(active, w.packets), w.loaded.value))
  }

  lemma ReadyToPass(tx: T.Transmitter, s: Setup, w: World)
    requires tx.Valid() && Poised(tx, w) && w.loaded.Some? && s.active == tx.activeChannels && Sane(s, w)
    requires Follows(tx.burstTimer.trace, tx.activeChannels, w.cmds) && |tx.burstTimer.trace| == MAX_MMDVM_CHANNELS
    ensures T.PassReady(tx.activeChannels, w.cmds, tx.Snap(0, []))
    ensures tx.Snap(0, []).sn[..tx.activeChannels] == NumbersAfter(tx.activeChannels, w.packets)
    ensures tx.Snap(0, []).controls[..tx.activeChannels] == w.loaded.value
  {
    hide DMRTiming.Valid, Legal, Gate, Correction, SimulatedClock, Asked;
    forall c | 0 <= c < tx.activeChannels
      ensures |tx.controlBuf[c]| == 0 || |tx.controlBuf[c]| == SAMPLES_PER_SLOT
    {
      assert tx.controlBuf[c] == w.loaded.value[c];
    }
  }

  /** A pass as the receiver sees it: no answers, no stamps, the gate and the latches as they were. */
  method RunPass(tx: T.Transmitter, ghost s: Setup, ghost w: World)
    requires tx.Valid() && Poised(tx, w) && w.loaded.Some? && s.active == tx.activeChannels && Sane(s, w)
    requires Follows(tx.burstTimer.trace, tx.activeChannels, w.cmds)
    modifies tx, tx.sn, tx.controlBuf, tx.sampleBuf, tx.burstTimer.Repr
    ensures tx.Valid() && fresh(tx.burstTimer.Repr - old(tx.burstTimer.Repr))
    ensures |tx.burstTimer.trace| == |old(tx.burstTimer.trace)| == MAX_MMDVM_CHANNELS
    ensures Follows(tx.burstTimer.trace, tx.activeChannels, w.cmds + [NextPass(tx.activeChannels, w)])
    ensures Poised(tx, World(w.cmds + [NextPass(tx.activeChannels, w)], w.packets + [w.loaded.value], None, w.readTime))
  {
    ghost var cfg, active, before := tx.burstTimer.Cfg(), tx.activeChannels, tx.Snap(0, []);
    assert |tx.burstTimer.trace| == MAX_MMDVM_CHANNELS;
    ReadyToPass(tx, s, w);
    hide DMRTiming.Valid, Run, Legal, Gate, T.PassReady, Project, T.PlansFor, Correction, NumbersAfter, NextNumber;
    var timeNs, slots;
    ghost var done;
    timeNs, slots, done := tx.Transmit(w.cmds, before);
    Passed(cfg, active, w, before, done);
    assert tx.sn[..] == done.sn;
  }

  /** What a completed pass leaves in the scheduler and the transmitter. */
  lemma Passed(cfg: Config, active: nat, w: World, before: T.Snapshot, done: T.Snapshot)
    requires w.loaded.Some? && |w.loaded.value| == active && T.PassCompleted(cfg, active, w.cmds, before, done)
    requires before.sn[..active] == NumbersAfter(active, w.packets) && before.controls[..active] == w.loaded.value
    ensures |done.trace| == |done.sn| == MAX_MMDVM_CHANNELS >= active
    ensures Follows(done.trace, active, w.cmds + [NextPass(active, w)])
    ensures done.correction == Correction(cfg, w.cmds + [NextPass(active, w)])
    ensures done.sn[..active] == NumbersAfter(active, w.packets + [w.loaded.value])
  {
    hide Legal, T.PlansFor, Project, Correction, NumbersAfter, NextNumber;
    forall c | 0 <= c < active
      ensures done.sn[..active][c] == NextNumber(NumbersAfter(active, w.packets)[c], w.loaded.value[c])
    {
      assert before.sn[..active][c] == before.sn[c] && before.controls[..active][c] == before.controls[c];
    }
    NumbersMore(active, w.packets, w.loaded.value, done.sn[..active]);
  }

  /** The rest of the iteration, from the timing lock on. */
  method SecondHalf(rx: R.Receiver, tx: T.Transmitter, a: Action, ghost w: World)
    requires Linked(rx, tx, w) && w.loaded.Some? && a.Transmit? && Fits(rx.activeChannels, a)
    modifies tx, tx.sn, tx.controlBuf, tx.sampleBuf, tx.burstTimer.Repr
    ensures ChannelsLoaded(SetupOf(rx), w) && Linked(rx, tx, Act(SetupOf(rx), w, a))
    ensures fresh(rx.burstTimer.Repr - old(rx.burstTimer.Repr))
  {
    hide DMRTiming.Valid, Run, Gate, Project, R.Agree, Act, Poised, Sane, Fits;
    ghost var s, active := SetupOf(rx), rx.activeChannels;
    PassSteps(rx.burstTimer.Cfg(), s, w, a);
    RunPass(tx, s, w);
    forall c | 0 <= c < rx.activeChannels
      ensures rx.InStep(c)
    {
      assert old(rx.InStep(c));
      assert SameForReceiver(rx.burstTimer.Cfg(), rx.burstTimer.trace[c], old(rx.burstTimer.trace[c]));
    }
  }

  /** What the second half of a transmitter iteration changes in the world. */
  lemma PassSteps(cfg: Config, s: Setup, w: World, a: Action)
    requires Sane(s, w) && a.Transmit? && Fits(s.active, a) && w.loaded.Some?
    ensures ChannelsLoaded(s, w) && Sane(s, Act(s, w, a))
    ensures var pass := NextPass(s.active, w);
            && Act(s, w, a) == World(w.cmds + [pass], w.packets + [w.loaded.value], None, w.readTime)
            && Gate(w.cmds + [pass])
            && forall c :: 0 <= c < s.active ==> SameForReceiver(cfg, Project(w.cmds + [pass], c), Project(w.cmds, c))
  {
    ActIsSane(s, w, a);
    GateStays(w.cmds, NextPass(s.active, w));
    hide SameForReceiver, Gate, Sane, Project;
    SilentForAll(cfg, s.active, w.cmds, NextPass(s.active, w).plans);
  }

  lemma SilentForAll(cfg: Config, active: nat, cmds: seq<Command>, plans: seq<seq<Planned>>)
    requires |plans| == active
    ensures forall c :: 0 <= c < active ==> SameForReceiver(cfg, Project(cmds + [Pass(plans)], c), Project(cmds, c))
  {
    forall c | 0 <= c < active
      ensures SameForReceiver(cfg, Project(cmds + [Pass(plans)], c), Project(cmds, c))
    {
      PassIsSilent(cfg, cmds, plans, c);
    }
  }

  /** One turn of either thread. A sleeping transmitter goes on; one that falls asleep says for how long. */
  method Turn(rx: R.Receiver, tx: T.Transmitter, a: Action, ghost w: World, sleeping: bool)
    returns (asleep: bool, sleep: int)
    requires Linked(rx, tx, w) && Fits(rx.activeChannels, a) && sleeping == w.loaded.Some?
    modifies rx, rx.rssi, rx.controlBuf, rx.sampleBuf, rx.sent, rx.burstTimer.Repr
    modifies tx, tx.sn, tx.controlBuf, tx.sampleBuf
    ensures ChannelsLoaded(SetupOf(rx), w) && Linked(rx, tx, Act(SetupOf(rx), w, a))
    ensures fresh(rx.burstTimer.Repr - old(rx.burstTimer.Repr))
    ensures asleep == Act(SetupOf(rx), w, a).loaded.Some?
    ensures asleep && !sleeping ==> sleep == Correction(rx.burstTimer.Cfg(), w.cmds)
  {
    assert rx.burstTimer == tx.burstTimer && rx.activeChannels == tx.activeChannels;
    hide Linked, Stamps, Gate, Correction;
    sleep := 0;
    match a
    case Receive(_, _, _, _, _) =>
      ReceiverTurn(rx, tx, a, w);
      asleep := sleeping;
    case Transmit(_) =>
      if sleeping {
        SecondHalf(rx, tx, a, w);
        asleep := false;
      } else {
        asleep, sleep := FirstHalf(rx, tx, a, w);
      }
  }

  /** The objects as main builds them, on one scheduler. */
  method Start(active: nat, pfb: nat, timestamping: bool, symbolDeviation: real, rfDelayMs: nat, sampleDelay: int)
    returns (rx: R.Receiver, tx: T.Transmitter)
    requires 1 <= active <= MAX_MMDVM_CHANNELS && pfb > 0 && symbolDeviation > 0.0
    ensures Linked(rx, tx, NO_TURNS) && SetupOf(rx) == Setup(active, pfb, timestamping)
    ensures rx.burstTimer.Cfg() == Config(rfDelayMs * 1_000_000, sampleDelay * TIME_PER_SAMPLE)
    ensures fresh(rx) && fresh(rx.rssi) && fresh(rx.controlBuf) && fresh(rx.sampleBuf) && fresh(rx.sent)
    ensures fresh(tx) && fresh(tx.sn) && fresh(tx.controlBuf) && fresh(tx.sampleBuf) && fresh(tx.burstTimer.Repr)
  {
    var timing := new DMRTiming(rfDelayMs, sampleDelay);
    rx := new R.Receiver(timing, active, pfb, timestamping, symbolDeviation);
    tx := new T.Transmitter(timing, active, symbolDeviation);
    ScheduleIsSane(Setup(active, pfb, timestamping), []);
    hide R.Receiver.Valid, DMRTiming.Valid;
  }

  lemma SleepsStep(cfg: Config, cmds: seq<Command>, cmd: Command)
    ensures Sleeps(cfg, cmds + [cmd]) ==
            if cmd.Pass? then Sleeps(cfg, cmds) + [Correction(cfg, cmds)] else Sleeps(cfg, cmds)
  {
    assert (cmds + [cmd])[..|cmds|] == cmds;
    hide Correction;
  }

  lemma SleepsMore(cfg: Config, s: Setup, w: World, a: Action, sleeps: seq<int>)
    requires Sane(s, w) && Fits(s.active, a) && SleepsAre(cfg, w, sleeps)
    ensures ChannelsLoaded(s, w)
    ensures SleepsAre(cfg, Act(s, w, a), if w.loaded.None? && Act(s, w, a).loaded.Some?
                                         then sleeps + [Correction(cfg, w.cmds)] else sleeps)
  {
    assert ChannelsLoaded(s, w);
    hide Correction, Sane, Gate, T.PlansFor, NumbersAfter, Sleeps, Fits;
    if a.Receive? {
      CorrectionStays(cfg, w.cmds, StampOf(s, w, a));
      SleepsStep(cfg, w.cmds, Block(StampOf(s, w, a)));
    } else if w.loaded.Some? {
      SleepsStep(cfg, w.cmds, NextPass(s.active, w));
    }
  }

  lemma NoTurns(s: Setup)
    ensures AllFit(s.active, []) && After(s, []) == NO_TURNS
  {
  }

  /** All turns of a schedule, from the objects' first. */
  method Play(rx: R.Receiver, tx: T.Transmitter, actions: seq<Action>) returns (sleeps: seq<int>)
    requires Linked(rx, tx, NO_TURNS) && AllFit(rx.activeChannels, actions)
    modifies rx, rx.rssi, rx.controlBuf, rx.sampleBuf, rx.sent, rx.burstTimer.Repr
    modifies tx, tx.sn, tx.controlBuf, tx.sampleBuf
    ensures Linked(rx, tx, After(SetupOf(rx), actions))
    ensures SleepsAre(rx.burstTimer.Cfg(), After(SetupOf(rx), actions), sleeps)
  {
    hide Linked, Sane, SleepsAre, Act, Correction, Fits, AllFit, After;
    var sleeping := false;
    sleeps := [];
    ghost var s, cfg := SetupOf(rx), rx.burstTimer.Cfg();
    NoSleeps(cfg);
    NoTurns(s);
    assert actions[..0] == [] && actions[..|actions|] == actions;
    for i := 0 to |actions|
      invariant AllFit(s.active, actions[..i])
      invariant Linked(rx, tx, After(s, actions[..i])) && fresh(rx.burstTimer.Repr - old(rx.burstTimer.Repr))
      invariant sleeping == After(s, actions[..i]).loaded.Some?
      invariant SleepsAre(cfg, After(s, actions[..i]), sleeps)
    {
      ghost var w := After(s, actions[..i]);
      AfterStep(s, actions, i);
      SleepsMore(cfg, s, w, actions[i], sleeps);
      var asleep, sleep := Turn(rx, tx, actions[i], w, sleeping);
      if asleep && !sleeping {
        sleeps := sleeps + [sleep];
      }
      sleeping := asleep;
    }
  }

  /**
   * Any schedule of receiver blocks and transmitter halves, from the start of
   * the program: the objects end where the schedule leads, and the program
   * has asked to sleep what each pass owed. On a hardware clock with positive
   * delays every slot of every channel is marked exactly.
   */
  method Interleave(active: nat, pfb: nat, timestamping: bool, symbolDeviation: real, rfDelayMs: nat,
                    sampleDelay: int, actions: seq<Action>)
    returns (rx: R.Receiver, tx: T.Transmitter, sleeps: seq<int>)
    requires 1 <= active <= MAX_MMDVM_CHANNELS && pfb > 0 && symbolDeviation > 0.0 && AllFit(active, actions)
    ensures Linked(rx, tx, After(Setup(active, pfb, timestamping), actions))
    ensures SetupOf(rx) == Setup(active, pfb, timestamping)
    ensures rx.burstTimer.Cfg() == Config(rfDelayMs * 1_000_000, sampleDelay * TIME_PER_SAMPLE)
    ensures SleepsAre(rx.burstTimer.Cfg(), After(Setup(active, pfb, timestamping), actions), sleeps)
    ensures active <= |rx.burstTimer.trace|
    ensures forall c, start ::
              0 <= c < active && HardwareClock(Stamps(After(Setup(active, pfb, timestamping), actions).cmds), start)
              && rx.burstTimer.Cfg().rfDelay + rx.burstTimer.Cfg().Delay() > 0
              ==> Exact(rx.burstTimer.History(c))
  {
    rx, tx := Start(active, pfb, timestamping, symbolDeviation, rfDelayMs, sampleDelay);
    hide Linked, Exact, HardwareClock, Stamps, SleepsAre, After;
    sleeps := Play(rx, tx, actions);
    ExactForAll(rx, tx, After(SetupOf(rx), actions));
  }

  lemma NoSleeps(cfg: Config)
    ensures SleepsAre(cfg, NO_TURNS, [])
  {
  }

  lemma ExactForAll(rx: R.Receiver, tx: T.Transmitter, w: World)
    requires Linked(rx, tx, w)
    ensures rx.activeChannels <= MAX_MMDVM_CHANNELS == |rx.burstTimer.trace|
    ensures forall c, start ::
              0 <= c < rx.activeChannels && HardwareClock(Stamps(w.cmds), start)
              && rx.burstTimer.Cfg().rfDelay + rx.burstTimer.Cfg().Delay() > 0
              ==> Exact(rx.burstTimer.History(c))
  {
    hide R.Receiver.InStep, Exact, HardwareClock;
    forall c, start | 0 <= c < rx.activeChannels && HardwareClock(Stamps(w.cmds), start)
                      && rx.burstTimer.Cfg().rfDelay + rx.burstTimer.Cfg().Delay() > 0
      ensures Exact(rx.burstTimer.History(c))
    {
      ExactMarking(rx.burstTimer.Cfg(), rx.activeChannels, w.cmds, start, c);
    }
  }

  // ---------- What holds of the objects after any schedule ----------

  /** Every channel of the live scheduler has been run by the schedule's commands. */
  lemma LiveRun(rx: R.Receiver, tx: T.Transmitter, w: World, c: nat)
    requires Linked(rx, tx, w) && c < rx.activeChannels
    ensures c < |rx.burstTimer.trace| && rx.burstTimer.Valid()
    ensures rx.burstTimer.History(c) == ChannelRun(rx.burstTimer.Cfg(), w.cmds, c)
    ensures rx.activeChannels <= MAX_MMDVM_CHANNELS
    ensures |rx.burstTimer.timeSlots[c]| == |rx.burstTimer.History(c).channel.queue|
  {
    hide R.Receiver.InStep, Run, Project, Sane;
    rx.burstTimer.QueueLength(c);
  }

  /** The slots of the packets put into passes are, channel by channel, the marks given and the slots queued. */
  lemma LivePackets(rx: R.Receiver, tx: T.Transmitter, actions: seq<Action>, c: nat)
    requires AllFit(rx.activeChannels, actions) && c < rx.activeChannels
    requires Linked(rx, tx, After(SetupOf(rx), actions))
    ensures c < |rx.burstTimer.trace|
    ensures var h := rx.burstTimer.History(c);
            SlotNumbers(1, Column(After(SetupOf(rx), actions).packets, c))
            == MarkNumbers(h.marks) + Unmarked(h.channel.queue)
  {
    hide Linked, After, SlotNumbers, Column, Run, Unmarked;
    LiveRun(rx, tx, After(SetupOf(rx), actions), c);
    PacketsToMarks(rx.burstTimer.Cfg(), SetupOf(rx), actions, c);
  }

  /** With at most one mark a packet all live channels are in lockstep. */
  lemma LiveLockstep(rx: R.Receiver, tx: T.Transmitter, actions: seq<Action>, c: nat, d: nat)
    requires AllFit(rx.activeChannels, actions) && c < rx.activeChannels && d < rx.activeChannels
    requires Linked(rx, tx, After(SetupOf(rx), actions)) && MarksHanded(actions, 1)
    ensures c < |rx.burstTimer.trace| && d < |rx.burstTimer.trace|
    ensures Twins(rx.burstTimer.History(c), rx.burstTimer.History(d))
  {
    hide Linked, After, Twins, Run;
    LiveRun(rx, tx, After(SetupOf(rx), actions), c);
    LiveRun(rx, tx, After(SetupOf(rx), actions), d);
    PacketsLockstep(rx.burstTimer.Cfg(), SetupOf(rx), actions, c, d);
  }

  /** About to make a pass, its sleep kept, the live channel 0 is at most a slot and the slack ahead. */
  lemma LiveLead(rx: R.Receiver, tx: T.Transmitter, actions: seq<Action>, sleeps: seq<int>, slack: nat, most: nat)
    requires AllFit(rx.activeChannels, actions) && MarksHanded(actions, most) && 0 < most
    requires most * SLOT_TIME + slack < NANOSECONDS_PER_SECOND
    requires var w, cfg := After(SetupOf(rx), actions), rx.burstTimer.Cfg();
             && Linked(rx, tx, w) && StampsNondecreasing(w.cmds) && w.loaded.Some?
             && SleepsAre(cfg, w, sleeps) && AllKept(cfg, w, sleeps, slack) && SleepHonouredAt(cfg, w.cmds, slack)
    ensures 0 < |rx.burstTimer.trace|
    ensures var ch := rx.burstTimer.History(0).channel; ch.lastSlot - Elapsed(ch) <= SLOT_TIME + slack
  {
    var w, cfg := After(SetupOf(rx), actions), rx.burstTimer.Cfg();
    assert 0 < rx.activeChannels && Gate(w.cmds) && Legal(rx.activeChannels, w.cmds);
    hide Linked, After, Run, SleepsAre, AllKept, SleepHonouredAt, StampsNondecreasing, Gate, Legal, MarksHanded;
    hide SleepHonoured, AtMostMarks, Owed;
    LiveRun(rx, tx, w, 0);
    SchedulePaces(cfg, SetupOf(rx), actions, sleeps, slack, most);
    PacedOwes(cfg, rx.activeChannels, w.cmds, slack, most);
    LeadAfterSleep(cfg, rx.activeChannels, w.cmds, slack, most);
  }

  /** On a hardware clock, sleeps kept and one mark a packet, every live queue is short. */
  lemma LiveQueue(rx: R.Receiver, tx: T.Transmitter, actions: seq<Action>, sleeps: seq<int>, slack: nat,
                  start: int, c: nat)
    requires AllFit(rx.activeChannels, actions) && MarksHanded(actions, 1) && c < rx.activeChannels
    requires SLOT_TIME + slack < NANOSECONDS_PER_SECOND
    requires var w, cfg := After(SetupOf(rx), actions), rx.burstTimer.Cfg();
             && Linked(rx, tx, w) && HardwareClock(Stamps(w.cmds), start) && cfg.rfDelay + cfg.Delay() > 0
             && SleepsAre(cfg, w, sleeps) && AllKept(cfg, w, sleeps, slack)
    ensures c < rx.burstTimer.timeSlots.Length
    ensures (|rx.burstTimer.timeSlots[c]| - 1) * SLOT_TIME
          < 3 * SLOT_TIME + slack + rx.burstTimer.Cfg().rfDelay + rx.burstTimer.Cfg().Delay()
  {
    var w, cfg := After(SetupOf(rx), actions), rx.burstTimer.Cfg();
    HardwareStampsOrdered(w.cmds, start);
    hide Linked, After, Run, SleepsAre, AllKept, StampsNondecreasing, MarksHanded, HardwareClock, PacedRun, OneEach;
    LiveRun(rx, tx, w, c);
    SchedulePaces(cfg, SetupOf(rx), actions, sleeps, slack, 1);
    BoundedQueue(cfg, rx.activeChannels, w.cmds, start, slack, c);
  }

  lemma HardwareStampsOrdered(cmds: seq<Command>, start: int)
    requires HardwareClock(Stamps(cmds), start)
    ensures StampsNondecreasing(cmds)
  {
    hide Stamps;
  }
}

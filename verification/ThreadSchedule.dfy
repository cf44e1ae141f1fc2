/**
 * Whole schedules of the two threads as values: what turns they take, what
 * the device and the network hand them, and what follows for the scheduler.
 * Packets received become slots asked for here, and nothing else does.
 */
module ThreadSchedule {
  import opened Constants
  import opened SlotChannel
  import opened SlotHistory
  import opened StepMachine
  import opened MarkQueue
  import opened MarkPlacement
  import opened TransmitPlan
  import opened SlotNumbering
  import opened Lockstep
  import opened Pacing
  import opened TransmitTime
  import opened Packets
  import opened TransmitterThread

  /** What the program is started with. */
  datatype Setup = Setup(active: nat, pfb: nat, timestamping: bool)

  /** One turn of a thread, with what the world hands it. */
  datatype Action =
    | Receive(ret: int, hasTime: bool, timeNs: int, outputs: seq<seq<real>>, powers: seq<Word>)
    | Transmit(messages: seq<seq<Byte>>)

  /** What the filters and the network hand a thread: something for every active channel. */
  ghost predicate Fits(active: nat, a: Action) {
    match a
    case Receive(_, _, _, outputs, powers) =>
      |outputs| == |powers| == active && forall c :: 0 <= c < active ==> |outputs[c]| == RX_SAMP_OUT_SIZE
    case Transmit(messages) => |messages| == active
  }

  /**
   * The commands the scheduler has been given, the control bytes of every
   * channel in each pass made so far and in the one being slept before, and
   * the simulated clock.
   */
  datatype World = World(
    cmds: seq<Command>, packets: seq<seq<seq<nat>>>, loaded: Option<seq<seq<nat>>>, readTime: int)

  const NO_TURNS := World([], [], None, 0)

  function ControlsOfAll(messages: seq<seq<Byte>>): (controls: seq<seq<nat>>)
    ensures |controls| == |messages|
    ensures forall c :: 0 <= c < |messages| ==> controls[c] == ControlsOf(messages[c])
  {
    seq(|messages|, c requires 0 <= c < |messages| => ControlsOf(messages[c]))
  }

  /** Channel c's share of every packet. */
  function Column(packets: seq<seq<seq<nat>>>, c: nat): (column: seq<seq<nat>>)
    ensures |column| == |packets|
    ensures forall i :: 0 <= i < |packets| && c < |packets[i]| ==> column[i] == packets[i][c]
  {
    seq(|packets|, i requires 0 <= i < |packets| => if c < |packets[i]| then packets[i][c] else [])
  }

  /** m_sn of the active channels after the packets; all start at 1. */
  function NumbersAfter(active: nat, packets: seq<seq<seq<nat>>>): (sn: seq<SlotNo>)
    ensures |sn| == active
    ensures forall c :: 0 <= c < active ==> sn[c] == NumberAfter(1, Column(packets, c))
  {
    seq(active, c requires 0 <= c < active => NumberAfter(1, Column(packets, c)))
  }

  /** The stamp of a full block, and what a block moves the simulated clock by. */
  function StampOf(s: Setup, w: World, a: Action): int
    requires a.Receive?
  {
    if s.timestamping && a.hasTime then a.timeNs else w.readTime
  }

  function ReadTimeMove(s: Setup, a: Action): int
    requires a.Receive?
  {
    if s.timestamping && a.hasTime then 0 else RX_SAMP_OUT_SIZE * TIME_PER_SAMPLE
  }

  /**
   * One turn. A full block is one command. A transmitter turn behind the gate
   * reads the network and goes to sleep; its next one makes the pass.
   */
  ghost function Act(s: Setup, w: World, a: Action): (after: World)
    requires ChannelsLoaded(s, w) && Fits(s.active, a)
    ensures ChannelsLoaded(s, after)
  {
    match a
    case Receive(ret, _, _, _, _) =>
      if ret != RX_INTERP_IN_SIZE * s.pfb then w
      else w.(cmds := w.cmds + [Block(StampOf(s, w, a))], readTime := w.readTime + ReadTimeMove(s, a))
    case Transmit(messages) =>
      if w.loaded.Some? then
        World(w.cmds + [Pass(PlansFor(NumbersAfter(s.active, w.packets), w.loaded.value))],
              w.packets + [w.loaded.value], None, w.readTime)
      else if Gate(w.cmds) then w.(loaded := Some(ControlsOfAll(messages)))
      else w
  }

  ghost predicate ChannelsLoaded(s: Setup, w: World) {
    w.loaded.Some? ==> |w.loaded.value| == s.active
  }

  ghost predicate AllFit(active: nat, actions: seq<Action>) {
    forall i :: 0 <= i < |actions| ==> Fits(active, actions[i])
  }

  ghost function After(s: Setup, actions: seq<Action>): (w: World)
    requires AllFit(s.active, actions)
    ensures ChannelsLoaded(s, w)
  {
    if actions == [] then NO_TURNS else Act(s, After(s, actions[..|actions| - 1]), actions[|actions| - 1])
  }

  // ---------- What every schedule keeps ----------

  /** Each channel's control bytes are a whole slot or none. */
  ghost predicate SlotSized(active: nat, controls: seq<seq<nat>>) {
    |controls| == active && forall c :: 0 <= c < active ==> |controls[c]| == 0 || |controls[c]| == SAMPLES_PER_SLOT
  }

  /** The passes in cmds are those the packets ask for, pass by pass. */
  ghost predicate Asked(active: nat, cmds: seq<Command>, packets: seq<seq<seq<nat>>>) {
    if cmds == [] then packets == [] else
    var k, n := |cmds| - 1, |packets| - 1;
    match cmds[k]
    case Block(_) => Asked(active, cmds[..k], packets)
    case Pass(plans) =>
      && packets != [] && |packets[n]| == active
      && plans == PlansFor(NumbersAfter(active, packets[..n]), packets[n])
      && Asked(active, cmds[..k], packets[..n])
  }

  ghost predicate Sane(s: Setup, w: World) {
    && Legal(s.active, w.cmds) && Asked(s.active, w.cmds, w.packets)
    && (w.loaded.Some? ==> Gate(w.cmds) && SlotSized(s.active, w.loaded.value))
    && (!s.timestamping ==>
          SimulatedClock(Stamps(w.cmds)) && w.readTime == |Stamps(w.cmds)| * RX_SAMP_OUT_SIZE * TIME_PER_SAMPLE)
  }

  lemma GateStays(cmds: seq<Command>, cmd: Command)
    requires Gate(cmds)
    ensures Gate(cmds + [cmd])
  {
    StampsStep(cmds, cmd);
    var b :| 0 <= b < |Stamps(cmds)| && Stamps(cmds)[b] > 4 * SLOT_TIME;
    assert Stamps(cmds + [cmd])[b] == Stamps(cmds)[b];
    hide Stamps, ChannelRun;
  }

  lemma ClockStays(cmds: seq<Command>)
    requires SimulatedClock(Stamps(cmds))
    ensures var all := cmds + [Block(|Stamps(cmds)| * RX_SAMP_OUT_SIZE * TIME_PER_SAMPLE)];
            SimulatedClock(Stamps(all)) && |Stamps(all)| == |Stamps(cmds)| + 1
  {
    StampsStep(cmds, Block(|Stamps(cmds)| * RX_SAMP_OUT_SIZE * TIME_PER_SAMPLE));
    hide Stamps, ChannelRun;
  }

  lemma SaneBlock(s: Setup, w: World, a: Action)
    requires Sane(s, w) && Fits(s.active, a) && a.Receive? && a.ret == RX_INTERP_IN_SIZE * s.pfb
    ensures Sane(s, Act(s, w, a))
  {
    var block := Block(StampOf(s, w, a));
    hide Legal, SimulatedClock, Stamps, Gate;
    assert (w.cmds + [block])[..|w.cmds|] == w.cmds;
    LegalMore(s.active, w.cmds, block);
    if w.loaded.Some? { GateStays(w.cmds, block); }
    if !s.timestamping { ClockStays(w.cmds); }
  }

  lemma ControlsAreSlotSized(messages: seq<seq<Byte>>)
    ensures SlotSized(|messages|, ControlsOfAll(messages))
  {
    hide ControlsOf;
    forall c | 0 <= c < |messages|
      ensures |ControlsOf(messages[c])| == 0 || |ControlsOf(messages[c])| == SAMPLES_PER_SLOT
    {
      PacketLengths(messages[c], 1.0);
    }
  }

  lemma AskedPass(active: nat, cmds: seq<Command>, packets: seq<seq<seq<nat>>>, controls: seq<seq<nat>>)
    requires Asked(active, cmds, packets) && |controls| == active
    ensures Asked(active, cmds + [Pass(PlansFor(NumbersAfter(active, packets), controls))], packets + [controls])
  {
    hide PlansFor, NumbersAfter;
    var all := cmds + [Pass(PlansFor(NumbersAfter(active, packets), controls))];
    assert all[..|cmds|] == cmds && (packets + [controls])[..|packets|] == packets;
  }

  lemma SanePass(s: Setup, w: World, a: Action)
    requires Sane(s, w) && Fits(s.active, a) && a.Transmit? && w.loaded.Some?
    ensures Sane(s, Act(s, w, a))
  {
    var plans := PlansFor(NumbersAfter(s.active, w.packets), w.loaded.value);
    hide Legal, SimulatedClock, Stamps, Gate, PassAllowed, PlansFor, NumbersAfter, Asked, InPacket, ChannelRun;
    PlansAllowed(s.active, w.cmds, NumbersAfter(s.active, w.packets), w.loaded.value);
    LegalMore(s.active, w.cmds, Pass(plans));
    AskedPass(s.active, w.cmds, w.packets, w.loaded.value);
    StampsStep(w.cmds, Pass(plans));
  }

  lemma ActIsSane(s: Setup, w: World, a: Action)
    requires Sane(s, w) && Fits(s.active, a)
    ensures Sane(s, Act(s, w, a))
  {
    if a.Receive? {
      if a.ret == RX_INTERP_IN_SIZE * s.pfb { SaneBlock(s, w, a); }
    } else if w.loaded.Some? {
      SanePass(s, w, a);
    } else {
      ControlsAreSlotSized(a.messages);
    }
  }

  lemma {:induction false} ScheduleIsSane(s: Setup, actions: seq<Action>)
    requires AllFit(s.active, actions)
    ensures Sane(s, After(s, actions))
  {
    if actions == [] {
      assert Stamps([]) == [];
    } else {
      var n := |actions| - 1;
      ScheduleIsSane(s, actions[..n]);
      ActIsSane(s, After(s, actions[..n]), actions[n]);
      hide Sane, Act;
    }
  }

  /** The device stamps of all full blocks of a schedule. */
  function DeviceStamps(pfb: nat, actions: seq<Action>): seq<int> {
    if actions == [] then [] else
    var n := |actions| - 1;
    DeviceStamps(pfb, actions[..n]) +
    if actions[n].Receive? && actions[n].ret == RX_INTERP_IN_SIZE * pfb then [actions[n].timeNs] else []
  }

  predicate Timed(a: Action) { a.Receive? ==> a.hasTime }

  lemma TurnStamps(s: Setup, w: World, a: Action)
    requires ChannelsLoaded(s, w) && Fits(s.active, a)
    ensures Stamps(Act(s, w, a).cmds) == Stamps(w.cmds) +
            if a.Receive? && a.ret == RX_INTERP_IN_SIZE * s.pfb then [StampOf(s, w, a)] else []
  {
    var after := Act(s, w, a);
    if |after.cmds| > |w.cmds| {
      assert after.cmds == w.cmds + [after.cmds[|w.cmds|]];
      StampsStep(w.cmds, after.cmds[|w.cmds|]);
    }
    hide Stamps, Gate, PlansFor, NumbersAfter, ControlsOfAll, Fits;
  }

  /** With a clock in the device, the scheduler's stamps are the device's. */
  lemma {:induction false} StampsAreDevices(s: Setup, actions: seq<Action>)
    requires AllFit(s.active, actions) && s.timestamping && forall i :: 0 <= i < |actions| ==> Timed(actions[i])
    ensures Stamps(After(s, actions).cmds) == DeviceStamps(s.pfb, actions)
  {
    if actions == [] {
    } else {
      var n := |actions| - 1;
      var w, a := After(s, actions[..n]), actions[n];
      StampsAreDevices(s, actions[..n]);
      TurnStamps(s, w, a);
      assert Timed(a) && After(s, actions) == Act(s, w, a);
      hide Stamps, Act, After, Fits;
    }
  }

  lemma AfterStep(s: Setup, actions: seq<Action>, i: nat)
    requires AllFit(s.active, actions) && i < |actions|
    ensures AllFit(s.active, actions[..i]) && AllFit(s.active, actions[..i + 1])
    ensures Sane(s, After(s, actions[..i])) && Fits(s.active, actions[i])
    ensures After(s, actions[..i + 1]) == Act(s, After(s, actions[..i]), actions[i])
  {
    hide Fits, Sane, Act;
    assert actions[..i + 1][..i] == actions[..i];
    ScheduleIsSane(s, actions[..i]);
  }

  // ---------- From packets to slots ----------

  /** A pass requests exactly the slots of its plan. */
  lemma {:induction false} PassNumbers(cfg: Config, h: History, plan: seq<Planned>)
    ensures RequestNumbers(RunFrom(cfg, h, PassEvents(plan)).requests) == RequestNumbers(h.requests) + Numbers(plan)
  {
    if plan == [] {
      assert PassEvents(plan) == [] && Numbers(plan) == [];
    } else {
      var n := |plan| - 1;
      PassNumbers(cfg, h, plan[..n]);
      assert PassEvents(plan)[..n] == PassEvents(plan[..n]);
      var before, after := RunFrom(cfg, h, PassEvents(plan[..n])), RunFrom(cfg, h, PassEvents(plan));
      assert after == Step(cfg, before, Allocate(plan[n].no));
      hide RunFrom, PassEvents;
      assert RequestNumbers(after.requests) == RequestNumbers(before.requests) + [plan[n].no];
      assert Numbers(plan) == Numbers(plan[..n]) + [plan[n].no];
    }
  }

  lemma BlockNumbers(cfg: Config, cmds: seq<Command>, timestamp: int, c: nat)
    ensures ChannelRun(cfg, cmds + [Block(timestamp)], c).requests == ChannelRun(cfg, cmds, c).requests
  {
    ChannelStep(cfg, cmds, Block(timestamp), c);
    BlockStep(cfg, ChannelRun(cfg, cmds, c), timestamp);
  }

  lemma PlanNumbers(cfg: Config, cmds: seq<Command>, plans: seq<seq<Planned>>, c: nat)
    requires c < |plans|
    ensures RequestNumbers(ChannelRun(cfg, cmds + [Pass(plans)], c).requests)
         == RequestNumbers(ChannelRun(cfg, cmds, c).requests) + Numbers(plans[c])
  {
    ChannelStep(cfg, cmds, Pass(plans), c);
    PassNumbers(cfg, ChannelRun(cfg, cmds, c), plans[c]);
  }

  lemma ColumnGrows(packets: seq<seq<seq<nat>>>, c: nat)
    requires packets != [] && c < |packets[|packets| - 1]|
    ensures var n := |packets| - 1;
            SlotNumbers(1, Column(packets, c)) == SlotNumbers(1, Column(packets[..n], c))
              + Numbers(PlanFor(NumberAfter(1, Column(packets[..n], c)), packets[n][c]))
  {
    var n := |packets| - 1;
    assert Column(packets, c)[..n] == Column(packets[..n], c);
    hide PlanFor, NumberAfter;
  }

  /** On every channel the slots asked for are those its packets are sent under, none twice and none left out. */
  lemma {:induction false} PacketsBecomeSlots(cfg: Config, active: nat, cmds: seq<Command>,
                                               packets: seq<seq<seq<nat>>>, c: nat)
    requires Asked(active, cmds, packets) && c < active
    ensures RequestNumbers(ChannelRun(cfg, cmds, c).requests) == SlotNumbers(1, Column(packets, c))
  {
    if cmds == [] {
    } else {
      var k, n := |cmds| - 1, |packets| - 1;
      assert cmds == cmds[..k] + [cmds[k]];
      hide ChannelRun, SlotNumbers, NumberAfter, PlanFor, Column;
      match cmds[k]
      case Block(timestamp) =>
        PacketsBecomeSlots(cfg, active, cmds[..k], packets, c);
        BlockNumbers(cfg, cmds[..k], timestamp, c);
      case Pass(plans) =>
        PacketsBecomeSlots(cfg, active, cmds[..k], packets[..n], c);
        PlanNumbers(cfg, cmds[..k], plans, c);
        ColumnGrows(packets, c);
    }
  }

  /** What the transmitter's turns behind the gate were handed. */
  ghost function Behind(s: Setup, actions: seq<Action>): seq<seq<seq<Byte>>>
    requires AllFit(s.active, actions)
  {
    if actions == [] then [] else
    var n := |actions| - 1;
    Behind(s, actions[..n]) +
    if actions[n].Transmit? && Gate(After(s, actions[..n]).cmds) then [actions[n].messages] else []
  }

  /** The first, the third, the fifth and so on. */
  function EverySecond<T>(ts: seq<T>): seq<T> {
    if ts == [] then [] else
    var n := |ts| - 1;
    EverySecond(ts[..n]) + if n % 2 == 0 then [ts[n]] else []
  }

  /** All packets read so far, those of the pass not made yet included. */
  function Read(w: World): seq<seq<seq<nat>>> {
    w.packets + if w.loaded.Some? then [w.loaded.value] else []
  }

  ghost function ControlsRead(messages: seq<seq<seq<Byte>>>): (controls: seq<seq<seq<nat>>>)
    ensures |controls| == |messages|
    ensures forall i :: 0 <= i < |messages| ==> controls[i] == ControlsOfAll(messages[i])
  {
    seq(|messages|, i requires 0 <= i < |messages| => ControlsOfAll(messages[i]))
  }

  /** What a turn adds to the packets read. */
  lemma ReadStep(s: Setup, w: World, a: Action)
    requires Sane(s, w) && Fits(s.active, a)
    ensures var after, turn := Act(s, w, a), a.Transmit? && Gate(w.cmds);
            && Read(after) == (if turn && w.loaded.None? then Read(w) + [ControlsOfAll(a.messages)] else Read(w))
            && (after.loaded.Some? <==> if turn then w.loaded.None? else w.loaded.Some?)
  {
    var after := Act(s, w, a);
    hide Legal, Asked, SimulatedClock, Stamps, Gate, PlansFor, NumbersAfter, ControlsOf;
    assert Read(after) ==
           if a.Transmit? && Gate(w.cmds) && w.loaded.None? then Read(w) + [ControlsOfAll(a.messages)] else Read(w);
  }

  lemma EverySecondStep<T>(ts: seq<T>, t: T, odd: bool)
    requires odd <==> |ts| % 2 == 1
    ensures EverySecond(ts + [t]) == if odd then EverySecond(ts) else EverySecond(ts) + [t]
    ensures !odd <==> |ts + [t]| % 2 == 1
  {
    assert (ts + [t])[..|ts|] == ts;
  }

  lemma ControlsReadStep(messages: seq<seq<seq<Byte>>>, more: seq<seq<Byte>>)
    ensures ControlsRead(messages + [more]) == ControlsRead(messages) + [ControlsOfAll(more)]
  {
  }

  /** Every second turn has read the network, and the packets it read are at hand. */
  ghost predicate ReadInTurn(w: World, behind: seq<seq<seq<Byte>>>) {
    Read(w) == EverySecond(ControlsRead(behind)) && (w.loaded.Some? <==> |behind| % 2 == 1)
  }

  lemma OneMoreTurn(s: Setup, w: World, behind: seq<seq<seq<Byte>>>, a: Action)
    requires Sane(s, w) && Fits(s.active, a) && ReadInTurn(w, behind)
    ensures ReadInTurn(Act(s, w, a), if a.Transmit? && Gate(w.cmds) then behind + [a.messages] else behind)
  {
    hide Sane, Act, Gate, ControlsOfAll, Read, ControlsRead, EverySecond, Fits;
    ReadStep(s, w, a);
    if a.Transmit? && Gate(w.cmds) {
      ControlsReadStep(behind, a.messages);
      EverySecondStep(ControlsRead(behind), ControlsOfAll(a.messages), w.loaded.Some?);
    }
  }

  /** Every second turn behind the gate reads the network; what it reads is in exactly one pass, made or next. */
  lemma {:induction false} EveryPacketOnce(s: Setup, actions: seq<Action>)
    requires AllFit(s.active, actions)
    ensures ReadInTurn(After(s, actions), Behind(s, actions))
  {
    if actions == [] {
      assert ControlsRead([]) == [];
    } else {
      var n := |actions| - 1;
      var w, a, before := After(s, actions[..n]), actions[n], Behind(s, actions[..n]);
      EveryPacketOnce(s, actions[..n]);
      ScheduleIsSane(s, actions[..n]);
      assert After(s, actions) == Act(s, w, a);
      assert Behind(s, actions) == if a.Transmit? && Gate(w.cmds) then before + [a.messages] else before;
      hide Sane, Act, Gate, ReadInTurn, Fits, Behind, After;
      OneMoreTurn(s, w, before, a);
    }
  }

  /** The slots of the packets read into passes are the marks given and the slots still waiting for theirs. */
  lemma PacketsToMarks(cfg: Config, s: Setup, actions: seq<Action>, c: nat)
    requires AllFit(s.active, actions) && c < s.active
    ensures var w := After(s, actions);
            var h := ChannelRun(cfg, w.cmds, c);
            SlotNumbers(1, Column(w.packets, c)) == MarkNumbers(h.marks) + Unmarked(h.channel.queue)
  {
    ScheduleIsSane(s, actions);
    var w := After(s, actions);
    hide SlotNumbers, Column, Unmarked, After, Legal, Run;
    PacketsBecomeSlots(cfg, s.active, w.cmds, w.packets, c);
    ExactlyOnceInOrder(cfg, Project(w.cmds, c));
  }

  /** A channel is asked for slots 1 and 2 in turn exactly when its packets are orderly. */
  lemma SlotsAlternateIff(cfg: Config, s: Setup, actions: seq<Action>, c: nat)
    requires AllFit(s.active, actions) && c < s.active
    ensures var w := After(s, actions);
            var r := ChannelRun(cfg, w.cmds, c).requests;
            (forall i, j :: 0 <= i && j == i + 1 < |r| ==> r[i].no != r[j].no) <==>
            exists a :: Orderly(1, Column(w.packets, c), a)
  {
    var w := After(s, actions);
    ScheduleIsSane(s, actions);
    hide After, ChannelRun, SlotNumbers, Column, Orderly, Sane, Legal, Gate, Asked;
    assert Asked(s.active, w.cmds, w.packets) by { SaneIsAsked(s, w); }
    PacketsBecomeSlots(cfg, s.active, w.cmds, w.packets, c);
    AlternationIff(1, Column(w.packets, c));
    SameAlternation(ChannelRun(cfg, w.cmds, c).requests, SlotNumbers(1, Column(w.packets, c)));
  }

  lemma SaneIsAsked(s: Setup, w: World)
    requires Sane(s, w)
    ensures Asked(s.active, w.cmds, w.packets)
  {
    hide Asked, Legal, Gate;
  }

  lemma SameAlternation(r: seq<Request>, ns: seq<SlotNo>)
    requires RequestNumbers(r) == ns
    ensures (forall i, j :: 0 <= i && j == i + 1 < |r| ==> r[i].no != r[j].no) <==> Alternates(ns)
  {
    assert |r| == |ns| && forall i :: 0 <= i < |r| ==> ns[i] == RequestNumbers(r)[i] == r[i].no;
    if Alternates(ns) {
      forall i, j | 0 <= i && j == i + 1 < |r| ensures r[i].no != r[j].no { assert ns[i] != ns[j]; }
    } else {
      var i, j :| 0 <= i && j == i + 1 < |ns| && ns[i] == ns[j];
      assert r[i].no == r[j].no;
    }
  }

  // ---------- Few marks a packet ----------

  /** No channel is handed more than `most` marks at once. */
  ghost predicate MarksHanded(actions: seq<Action>, most: nat) {
    forall i, c :: 0 <= i < |actions| && actions[i].Transmit? && 0 <= c < |actions[i].messages|
                   ==> FewMarks(ControlsOf(actions[i].messages[c]), most)
  }

  predicate FewMarks(controls: seq<nat>, most: nat) { |MarkedPositions(controls)| <= most }

  ghost predicate AllFew(packets: seq<seq<seq<nat>>>, most: nat) {
    forall i, c :: 0 <= i < |packets| && 0 <= c < |packets[i]| ==> FewMarks(packets[i][c], most)
  }

  lemma {:induction false} FewMarksRead(s: Setup, actions: seq<Action>, most: nat)
    requires AllFit(s.active, actions) && MarksHanded(actions, most)
    ensures AllFew(Read(After(s, actions)), most)
  {
    if actions == [] {
    } else {
      var n := |actions| - 1;
      var w, a := After(s, actions[..n]), actions[n];
      FewMarksRead(s, actions[..n], most);
      ScheduleIsSane(s, actions[..n]);
      ReadStep(s, w, a);
      hide FewMarks, Gate, ControlsOf, Sane, Act, Read;
      if a.Transmit? && w.loaded.None? && Gate(w.cmds) {
        forall c | 0 <= c < |a.messages|
          ensures FewMarks(ControlsOfAll(a.messages)[c], most)
        {
          assert FewMarks(ControlsOf(actions[n].messages[c]), most);
        }
      }
    }
  }

  /** Packets of few marks make passes of few slots, and of one slot if they have at most one. */
  lemma {:induction false} FewSlotsAsked(active: nat, cmds: seq<Command>, packets: seq<seq<seq<nat>>>, most: nat)
    requires Asked(active, cmds, packets) && AllFew(packets, most) && most > 0
    ensures AtMostMarks(cmds, most) && (most == 1 ==> OneEach(active, cmds))
  {
    if cmds == [] {
    } else {
      var k, n := |cmds| - 1, |packets| - 1;
      hide PlansFor, NumbersAfter, FewMarks;
      match cmds[k]
      case Block(_) => FewSlotsAsked(active, cmds[..k], packets, most);
      case Pass(plans) =>
        FewSlotsAsked(active, cmds[..k], packets[..n], most);
        FewInPass(NumbersAfter(active, packets[..n]), packets[n], most);
        assert forall c :: 0 <= c < active ==> 0 < |plans[c]| <= most;
    }
  }

  lemma FewInPass(sn: seq<SlotNo>, controls: seq<seq<nat>>, most: nat)
    requires |sn| == |controls| && most > 0 && forall c :: 0 <= c < |controls| ==> FewMarks(controls[c], most)
    ensures forall c :: 0 <= c < |sn| ==> 0 < |PlansFor(sn, controls)[c]| <= most
  {
    forall c | 0 <= c < |sn|
      ensures 0 < |PlansFor(sn, controls)[c]| <= most
    {
      assert FewMarks(controls[c], most);
      PlanSize(sn[c], controls[c]);
    }
  }

  /** If no packet carries more than one mark, all channels run in lockstep after any schedule. */
  lemma PacketsLockstep(cfg: Config, s: Setup, actions: seq<Action>, c: nat, d: nat)
    requires AllFit(s.active, actions) && MarksHanded(actions, 1) && c < s.active && d < s.active
    ensures var cmds := After(s, actions).cmds;
            Twins(ChannelRun(cfg, cmds, c), ChannelRun(cfg, cmds, d)) && OneEach(s.active, cmds)
  {
    hide After, Twins, Legal, ChannelRun, MarksHanded, AllFew;
    FewSlots(s, actions, 1);
    OneEachLockstep(cfg, s.active, After(s, actions).cmds, c, d);
  }

  lemma FewSlots(s: Setup, actions: seq<Action>, most: nat)
    requires AllFit(s.active, actions) && MarksHanded(actions, most) && most > 0
    ensures var cmds := After(s, actions).cmds;
            AtMostMarks(cmds, most) && (most == 1 ==> OneEach(s.active, cmds)) && Legal(s.active, cmds)
  {
    var w := After(s, actions);
    ScheduleIsSane(s, actions);
    FewMarksRead(s, actions, most);
    hide After, Asked, Legal, FewMarks, AtMostMarks, OneEach, MarksHanded;
    forall i, c | 0 <= i < |w.packets| && 0 <= c < |w.packets[i]|
      ensures FewMarks(w.packets[i][c], most)
    {
      assert Read(w)[i] == w.packets[i];
    }
    FewSlotsAsked(s.active, w.cmds, w.packets, most);
  }

  /** In the next pass of such a schedule a mark is sent on time exactly when it sits where channel 0's does. */
  lemma NextPassOnTimeIff(cfg: Config, s: Setup, actions: seq<Action>, c: nat)
    requires AllFit(s.active, actions) && MarksHanded(actions, 1) && c < s.active
    requires After(s, actions).loaded.Some? && StampsNondecreasing(After(s, actions).cmds)
    ensures var w := After(s, actions);
            var plans := PlansFor(NumbersAfter(s.active, w.packets), w.loaded.value);
            && PassAllowed(s.active, w.cmds, plans)
            && (AirTime(cfg, s.active, w.cmds, plans, c, 0) == Allocated(cfg, w.cmds, plans, c, 0) <==>
                plans[c][0].position == plans[0][0].position)
  {
    var w := After(s, actions);
    ScheduleIsSane(s, actions);
    assert Legal(s.active, w.cmds) && Gate(w.cmds) && SlotSized(s.active, w.loaded.value);
    hide After, Sane, Legal, Gate, NumbersAfter, PlansFor, PassAllowed, InPacket, StampsNondecreasing, MarksHanded;
    hide OneEach, AirTime, Allocated, Balanced;
    var plans := PlansFor(NumbersAfter(s.active, w.packets), w.loaded.value);
    FewSlots(s, actions, 1);
    PlansAllowed(s.active, w.cmds, NumbersAfter(s.active, w.packets), w.loaded.value);
    OneEachBalances(s.active, w.cmds, 0, c);
    OnTimeIff(cfg, s.active, w.cmds, plans, c, 0);
  }

  // ---------- The sleeps ----------

  /** What the transmitter asks to sleep before each of its passes. */
  function Sleeps(cfg: Config, cmds: seq<Command>): seq<int> {
    if cmds == [] then [] else
    var k := |cmds| - 1;
    Sleeps(cfg, cmds[..k]) + if cmds[k].Pass? then [Correction(cfg, cmds[..k])] else []
  }

  /** Before each pass after the first the receiver's clock moves on by what nanosleep grants of the sleep. */
  ghost predicate SleepsKept(cfg: Config, cmds: seq<Command>, sleeps: seq<int>, slack: nat) {
    if cmds == [] then true else
    var k := |cmds| - 1;
    if cmds[k].Block? then SleepsKept(cfg, cmds[..k], sleeps, slack) else
    && sleeps != []
    && (HasPass(cmds[..k]) && sleeps[|sleeps| - 1] >= 0 ==>
          Clock(cfg, cmds[..k]) >= PassClock(cfg, cmds[..k]) + Slept(sleeps[|sleeps| - 1]) - slack)
    && SleepsKept(cfg, cmds[..k], sleeps[..|sleeps| - 1], slack)
  }

  lemma SleepKeptLast(cfg: Config, cmds: seq<Command>, slack: nat)
    requires cmds != [] && SleepsKept(cfg, cmds, Sleeps(cfg, cmds), slack)
    ensures var k := |cmds| - 1;
            && SleepsKept(cfg, cmds[..k], Sleeps(cfg, cmds[..k]), slack)
            && (cmds[k].Pass? ==> SleepHonouredAt(cfg, cmds[..k], slack))
  {
    var k, sleeps := |cmds| - 1, Sleeps(cfg, cmds);
    hide Correction, Clock, PassClock, HasPass, Slept;
    if cmds[k].Pass? {
      assert sleeps[..|sleeps| - 1] == Sleeps(cfg, cmds[..k]);
    } else {
      assert sleeps == Sleeps(cfg, cmds[..k]);
    }
  }

  /** Keeping the sleeps the program asks for is what the pacing theorems assume. */
  lemma {:induction false} SleepsHonoured(cfg: Config, cmds: seq<Command>, slack: nat)
    requires SleepsKept(cfg, cmds, Sleeps(cfg, cmds), slack)
    ensures SleepHonoured(cfg, cmds, slack)
  {
    if cmds == [] {
    } else {
      var k := |cmds| - 1;
      assert cmds == cmds[..k] + [cmds[k]];
      SleepKeptLast(cfg, cmds, slack);
      hide SleepHonoured, SleepHonouredAt, SleepsKept, Sleeps;
      SleepsHonoured(cfg, cmds[..k], slack);
      SleepHonouredGrows(cfg, cmds[..k], slack, cmds[k]);
    }
  }

  /** The sleeps a program in world w has asked for were kept; one it is still in is left out. */
  ghost predicate AllKept(cfg: Config, w: World, sleeps: seq<int>, slack: nat) {
    && (w.loaded.Some? ==> sleeps != [])
    && SleepsKept(cfg, w.cmds, if w.loaded.Some? then sleeps[..|sleeps| - 1] else sleeps, slack)
  }

  /** The sleeps asked for so far, that of a pass not made yet included. */
  ghost predicate SleepsAre(cfg: Config, w: World, sleeps: seq<int>) {
    sleeps == if w.loaded.Some? then Sleeps(cfg, w.cmds) + [Correction(cfg, w.cmds)] else Sleeps(cfg, w.cmds)
  }

  /** A schedule with few marks a packet and its sleeps kept is a paced run. */
  lemma SchedulePaces(cfg: Config, s: Setup, actions: seq<Action>, sleeps: seq<int>, slack: nat, most: nat)
    requires AllFit(s.active, actions) && MarksHanded(actions, most) && 0 < most && 0 < s.active
    requires most * SLOT_TIME + slack < NANOSECONDS_PER_SECOND
    requires var w := After(s, actions);
             StampsNondecreasing(w.cmds) && SleepsAre(cfg, w, sleeps) && AllKept(cfg, w, sleeps, slack)
    ensures PacedRun(cfg, s.active, After(s, actions).cmds, slack, most)
    ensures most == 1 ==> OneEach(s.active, After(s, actions).cmds)
  {
    var w := After(s, actions);
    hide After, SleepsKept, Sleeps, Legal, AtMostMarks, OneEach, SleepHonoured, StampsNondecreasing, MarksHanded;
    FewSlots(s, actions, most);
    assert SleepsKept(cfg, w.cmds, Sleeps(cfg, w.cmds), slack) by {
      if w.loaded.Some? { assert sleeps[..|sleeps| - 1] == Sleeps(cfg, w.cmds); }
    }
    SleepsHonoured(cfg, w.cmds, slack);
  }
}

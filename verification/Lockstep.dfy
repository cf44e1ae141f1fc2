/**
 * Channels that are asked for equally many slots in every pass run in
 * lockstep: clocks, slot times, queues and marks coincide and only the slot
 * numbers may differ.
 */
module Lockstep {
  import opened Constants
  import opened SlotChannel
  import opened SlotHistory
  import opened StepMachine
  import opened TransmitPlan

  ghost predicate TwinSlots(q: seq<Slot>, p: seq<Slot>) {
    |q| == |p| && forall i :: 0 <= i < |q| ==> q[i].time == p[i].time && q[i].counter == p[i].counter
  }

  ghost predicate TwinChannels(a: Channel, b: Channel) {
    && a.timeBase == b.timeBase && a.sampleCounter == b.sampleCounter
    && a.lastSlot == b.lastSlot && a.initialized == b.initialized
    && TwinSlots(a.queue, b.queue)
  }

  ghost predicate TwinMarks(m: seq<Mark>, n: seq<Mark>) {
    |m| == |n| && forall i :: 0 <= i < |m| ==> m[i].index == n[i].index
  }

  ghost predicate TwinRequests(r: seq<Request>, s: seq<Request>) {
    |r| == |s| && forall i :: 0 <= i < |r| ==>
      r[i].time == s[i].time && r[i].elapsed == s[i].elapsed && r[i].at == s[i].at
  }

  /** Equal in everything but slot numbers. */
  ghost predicate Twins(h: History, g: History) {
    && TwinChannels(h.channel, g.channel)
    && h.times == g.times && TwinMarks(h.marks, g.marks) && TwinRequests(h.requests, g.requests)
  }

  predicate TwinEvents(e: Event, f: Event) { e == f || (e.Allocate? && f.Allocate?) }

  lemma TwinServe(q: seq<Slot>, p: seq<Slot>, now: int)
    requires TwinSlots(q, p)
    ensures TwinSlots(Serve(q, now).queue, Serve(p, now).queue)
    ensures Serve(q, now).answer == 0 <==> Serve(p, now).answer == 0
  {
  }

  lemma TwinStep(cfg: Config, h: History, g: History, e: Event, f: Event)
    requires Twins(h, g) && TwinEvents(e, f)
    ensures Twins(Step(cfg, h, e), Step(cfg, g, f))
  {
    if e.Sample? {
      TwinServe(h.channel.queue, g.channel.queue, SampleTime(cfg, Tick(h.channel, e.first)));
    }
  }

  lemma {:induction false} TwinRuns(cfg: Config, h: History, g: History, es: seq<Event>, fs: seq<Event>)
    requires Twins(h, g) && |es| == |fs| && forall i :: 0 <= i < |es| ==> TwinEvents(es[i], fs[i])
    ensures Twins(RunFrom(cfg, h, es), RunFrom(cfg, g, fs))
  {
    if es == [] {
    } else {
      var n := |es| - 1;
      TwinRuns(cfg, h, g, es[..n], fs[..n]);
      TwinStep(cfg, RunFrom(cfg, h, es[..n]), RunFrom(cfg, g, fs[..n]), es[n], fs[n]);
    }
  }

  /** Every pass asks both channels for the same number of slots. */
  ghost predicate Balanced(cmds: seq<Command>, c: nat, d: nat) {
    forall i :: 0 <= i < |cmds| && cmds[i].Pass? ==>
      c < |cmds[i].plans| && d < |cmds[i].plans| && |cmds[i].plans[c]| == |cmds[i].plans[d]|
  }

  /** Balanced channels are twins after any interleaving. */
  lemma {:induction false} BalancedLockstep(cfg: Config, cmds: seq<Command>, c: nat, d: nat)
    requires Balanced(cmds, c, d)
    ensures Twins(ChannelRun(cfg, cmds, c), ChannelRun(cfg, cmds, d))
  {
    if cmds == [] {
    } else {
      var k := |cmds| - 1;
      BalancedLockstep(cfg, cmds[..k], c, d);
      assert cmds == cmds[..k] + [cmds[k]];
      TwinCommand(cmds, c, d);
      hide Twins, ChannelRun, EventsOf, Balanced;
      ChannelStep(cfg, cmds[..k], cmds[k], c);
      ChannelStep(cfg, cmds[..k], cmds[k], d);
      TwinRuns(cfg, ChannelRun(cfg, cmds[..k], c), ChannelRun(cfg, cmds[..k], d),
               EventsOf(cmds[k], c), EventsOf(cmds[k], d));
    }
  }

  /** The last command of a balanced run makes matching calls on both channels. */
  lemma TwinCommand(cmds: seq<Command>, c: nat, d: nat)
    requires cmds != [] && Balanced(cmds, c, d)
    ensures var es, fs := EventsOf(cmds[|cmds| - 1], c), EventsOf(cmds[|cmds| - 1], d);
            |es| == |fs| && forall i :: 0 <= i < |es| ==> TwinEvents(es[i], fs[i])
  {
  }

  /** Every pass asks every channel for one slot. */
  ghost predicate OneEach(active: nat, cmds: seq<Command>) {
    forall i, c :: 0 <= i < |cmds| && cmds[i].Pass? && 0 <= c < active ==> AsksOnce(cmds[i].plans, c)
  }

  predicate AsksOnce(plans: seq<seq<Planned>>, c: nat) { c < |plans| && |plans[c]| == 1 }

  lemma OneEachBalances(active: nat, cmds: seq<Command>, c: nat, d: nat)
    requires OneEach(active, cmds) && c < active && d < active
    ensures Balanced(cmds, c, d)
  {
    forall i | 0 <= i < |cmds| && cmds[i].Pass?
      ensures c < |cmds[i].plans| && d < |cmds[i].plans| && |cmds[i].plans[c]| == |cmds[i].plans[d]|
    {
      assert AsksOnce(cmds[i].plans, c) && AsksOnce(cmds[i].plans, d);
    }
  }

  lemma OneEachLockstep(cfg: Config, active: nat, cmds: seq<Command>, c: nat, d: nat)
    requires OneEach(active, cmds) && c < active && d < active
    ensures Twins(ChannelRun(cfg, cmds, c), ChannelRun(cfg, cmds, d))
  {
    hide OneEach, Balanced, Twins, ChannelRun;
    OneEachBalances(active, cmds, c, d);
    BalancedLockstep(cfg, cmds, c, d);
  }

  /** A pass keeps two twins in lockstep exactly when it asks both for equally many slots. */
  lemma LockstepIff(cfg: Config, a: Channel, b: Channel, p: seq<Planned>, q: seq<Planned>)
    requires TwinChannels(a, b)
    ensures TwinChannels(AllocateAll(cfg, a, p), AllocateAll(cfg, b, q)) <==> |p| == |q|
  {
    PassAdvances(cfg, a, p);
    PassAdvances(cfg, b, q);
    if |p| == |q| {
      TwinPasses(cfg, a, b, p, q);
    }
  }

  lemma {:induction false} TwinPasses(cfg: Config, a: Channel, b: Channel, p: seq<Planned>, q: seq<Planned>)
    requires TwinChannels(a, b) && |p| == |q|
    ensures TwinChannels(AllocateAll(cfg, a, p), AllocateAll(cfg, b, q))
  {
    if p == [] {
    } else {
      TwinPasses(cfg, a, b, p[..|p| - 1], q[..|q| - 1]);
    }
  }
}

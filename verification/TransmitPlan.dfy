/**
 * One transmitter pass as a value: which slots a channel's packet asks for,
 * where the allocations leave the channel, the pacing correction and the
 * transmit timestamp.
 */
module TransmitPlan {
  import opened Constants
  import opened SlotChannel
  import opened SlotHistory
  import opened StepMachine

  // ---------- What a packet asks for ----------

  function Other(sn: SlotNo): SlotNo { if sn == 2 then 1 else 2 }

  /** The slot a control byte marks, or 0. */
  function MarkOf(control: nat): nat {
    if control == MARK_SLOT1 then 1 else if control == MARK_SLOT2 then 2 else 0
  }

  /** The marks of a control buffer in order, each with its position. */
  function MarksIn(controls: seq<nat>): seq<Planned> {
    if controls == [] then [] else
    var n := |controls| - 1;
    MarksIn(controls[..n]) + if MarkOf(controls[n]) == 0 then [] else [Planned(MarkOf(controls[n]), n)]
  }

  /** An idle channel and a packet without marks ask for the alternating slot; a marked packet for its marks. */
  function PlanFor(sn: SlotNo, controls: seq<nat>): seq<Planned> {
    if MarksIn(controls) == [] then [Planned(sn, MMDVM_MARK_POSITION)] else MarksIn(controls)
  }

  function NextNumber(sn: SlotNo, controls: seq<nat>): SlotNo {
    var marks := MarksIn(controls);
    if marks == [] then Other(sn) else marks[|marks| - 1].no
  }

  /** MarksIn lists marked positions only, in increasing order, with the number of the mark there. */
  lemma {:induction false} MarksInSound(controls: seq<nat>, i: nat)
    requires i < |MarksIn(controls)|
    ensures var p := MarksIn(controls)[i];
            p.position < |controls| && MarkOf(controls[p.position]) == p.no
    ensures i > 0 ==> MarksIn(controls)[i - 1].position < MarksIn(controls)[i].position
  {
    var n := |controls| - 1;
    var rest := MarksIn(controls[..n]);
    if i < |rest| {
      MarksInSound(controls[..n], i);
    } else if i > 0 {
      MarksInSound(controls[..n], i - 1);
    }
  }

  /** And it misses none of them. */
  lemma {:induction false} MarksInComplete(controls: seq<nat>, k: nat) returns (i: nat)
    requires k < |controls| && MarkOf(controls[k]) != 0
    ensures i < |MarksIn(controls)| && MarksIn(controls)[i].position == k
  {
    var n := |controls| - 1;
    if k == n {
      i := |MarksIn(controls[..n])|;
    } else {
      i := MarksInComplete(controls[..n], k);
    }
  }

  function MarkedPositions(controls: seq<nat>): set<nat> {
    set k: nat | k < |controls| && MarkOf(controls[k]) != 0
  }

  /** A pass makes one allocation for every mark of the packet, and one if there is none. */
  lemma {:induction false} PlanSize(sn: SlotNo, controls: seq<nat>)
    ensures |MarksIn(controls)| == |MarkedPositions(controls)|
    ensures |PlanFor(sn, controls)| == Max(1, |MarkedPositions(controls)|)
  {
    if controls == [] {
    } else {
      var n := |controls| - 1;
      PlanSize(sn, controls[..n]);
      var rest := MarkedPositions(controls[..n]);
      assert MarkedPositions(controls) == if MarkOf(controls[n]) == 0 then rest else rest + {n};
      assert n !in rest;
    }
  }

  // ---------- Where the allocations lead ----------

  function AllocateAll(cfg: Config, ch: Channel, plan: seq<Planned>): Channel {
    if plan == [] then ch else
    AllocateSlot(cfg, AllocateAll(cfg, ch, plan[..|plan| - 1]), plan[|plan| - 1].no)
  }

  lemma {:induction false} PassIsAllocateAll(cfg: Config, h: History, plan: seq<Planned>)
    ensures RunFrom(cfg, h, PassEvents(plan)).channel == AllocateAll(cfg, h.channel, plan)
  {
    if plan == [] {
    } else {
      var n := |plan| - 1;
      PassIsAllocateAll(cfg, h, plan[..n]);
      assert PassEvents(plan)[..n] == PassEvents(plan[..n]);
    }
  }

  /** Within a pass the clock stands still, so every allocation after the first adds one slot time. */
  lemma {:induction false} PassAdvances(cfg: Config, ch: Channel, plan: seq<Planned>)
    ensures var after := AllocateAll(cfg, ch, plan);
            && after.timeBase == ch.timeBase && after.sampleCounter == ch.sampleCounter
            && |after.queue| == |ch.queue| + |plan|
            && after.lastSlot == (if plan == [] then ch.lastSlot
                                  else NextSlotTime(ch.lastSlot, Elapsed(ch)) + (|plan| - 1) * SLOT_TIME)
  {
    if plan == [] {
    } else {
      PassAdvances(cfg, ch, plan[..|plan| - 1]);
    }
  }

  // ---------- Pacing correction ----------

  /** m_timingCorrection after channel 0 has made the allocations of its plan. */
  function CorrectionAfter(cfg: Config, ch: Channel, plan: seq<Planned>, correction: int): int {
    if plan == [] then correction else
    var n := |plan| - 1;
    NextCorrection(AllocateAll(cfg, ch, plan[..n]), CorrectionAfter(cfg, ch, plan[..n], correction))
  }

  /**
   * A pass over a reset correction leaves a channel ahead of the clock by the
   * correction plus at most one slot, and by exactly that if it asks to wait.
   */
  lemma CorrectionCoversLead(cfg: Config, ch: Channel, plan: seq<Planned>)
    requires plan != []
    ensures var lead := AllocateAll(cfg, ch, plan).lastSlot - Elapsed(ch);
            var wait := CorrectionAfter(cfg, ch, plan, 0);
            && 0 <= wait && 0 <= lead <= wait + SLOT_TIME
            && (wait > 0 ==> lead == wait + SLOT_TIME)
            && (ch.lastSlot - Elapsed(ch) <= SLOT_TIME ==> wait <= |plan| * SLOT_TIME)
  {
    var n := |plan| - 1;
    PassAdvances(cfg, ch, plan[..n]);
    PassAdvances(cfg, ch, plan);
    if n == 0 { assert plan[..0] == []; }
  }

  // ---------- Transmit timestamps ----------

  /** The times computed for a channel: each slot less the samples that precede its mark. */
  function PassTimes(cfg: Config, ch: Channel, plan: seq<Planned>): seq<int> {
    if plan == [] then [] else
    var n := |plan| - 1;
    var after := AllocateAll(cfg, ch, plan);
    PassTimes(cfg, ch, plan[..n]) + [after.lastSlot + cfg.rfDelay - plan[n].position * TIME_PER_SAMPLE]
  }

  /** The sentinel scan: the first nonzero time, or 0. */
  function FirstNonzero(times: seq<int>): int {
    if times == [] then 0 else
    var found := FirstNonzero(times[..|times| - 1]);
    if found == 0 then times[|times| - 1] else found
  }

  lemma {:induction false} FirstNonzeroIsFirst(times: seq<int>)
    requires forall i :: 0 <= i < |times| ==> times[i] > 0
    ensures times != [] ==> FirstNonzero(times) == times[0]
  {
    if |times| <= 1 {
    } else {
      FirstNonzeroIsFirst(times[..|times| - 1]);
    }
  }

  lemma {:induction false} FirstNonzeroAppend(s: seq<int>, t: seq<int>)
    ensures FirstNonzero(s + t) == if FirstNonzero(s) != 0 then FirstNonzero(s) else FirstNonzero(t)
  {
    if t == [] {
      assert s + t == s;
    } else {
      assert (s + t)[..|s + t| - 1] == s + t[..|t| - 1];
      FirstNonzeroAppend(s, t[..|t| - 1]);
    }
  }

  /** Past the gate no time is ever zero: a slot lies beyond four slot times and a mark within one. */
  lemma {:induction false} PassTimesPositive(cfg: Config, ch: Channel, plan: seq<Planned>)
    requires Elapsed(ch) > 4 * SLOT_TIME
    requires forall i :: 0 <= i < |plan| ==> plan[i].position < SAMPLES_PER_SLOT
    ensures |PassTimes(cfg, ch, plan)| == |plan|
    ensures forall i :: 0 <= i < |plan| ==> PassTimes(cfg, ch, plan)[i] > 0
  {
    if plan == [] {
    } else {
      PassTimesPositive(cfg, ch, plan[..|plan| - 1]);
      PassAdvances(cfg, ch, plan);
    }
  }

  /** The times of a whole pass, channel by channel. */
  function AllTimes(cfg: Config, chs: seq<Channel>, plans: seq<seq<Planned>>): seq<int>
    requires |chs| == |plans|
  {
    if plans == [] then [] else
    var n := |plans| - 1;
    AllTimes(cfg, chs[..n], plans[..n]) + PassTimes(cfg, chs[n], plans[n])
  }

  lemma {:induction false} AllTimesPositive(cfg: Config, chs: seq<Channel>, plans: seq<seq<Planned>>)
    requires |chs| == |plans|
    requires forall c :: 0 <= c < |chs| ==> Elapsed(chs[c]) > 4 * SLOT_TIME
    requires forall c :: 0 <= c < |chs| ==> plans[c] != []
    requires forall c, i :: 0 <= c < |chs| && 0 <= i < |plans[c]| ==> plans[c][i].position < SAMPLES_PER_SLOT
    ensures forall t :: t in AllTimes(cfg, chs, plans) ==> t > 0
    ensures plans != [] ==>
              |AllTimes(cfg, chs, plans)| > 0
              && PassTimes(cfg, chs[0], plans[0]) <= AllTimes(cfg, chs, plans)
              && PassTimes(cfg, chs[0], plans[0]) != []
  {
    if plans == [] {
    } else {
      var n := |plans| - 1;
      AllTimesPositive(cfg, chs[..n], plans[..n]);
      PassTimesPositive(cfg, chs[n], plans[n]);
    }
  }

  /** The first time of a channel's pass. */
  lemma {:induction false} FirstPassTime(cfg: Config, ch: Channel, plan: seq<Planned>)
    requires plan != []
    ensures PassTimes(cfg, ch, plan) != []
    ensures PassTimes(cfg, ch, plan)[0] ==
            NextSlotTime(ch.lastSlot, Elapsed(ch)) + cfg.rfDelay - plan[0].position * TIME_PER_SAMPLE
  {
    if |plan| == 1 {
      PassAdvances(cfg, ch, plan);
    } else {
      FirstPassTime(cfg, ch, plan[..|plan| - 1]);
    }
  }

  /** With every clock past the gate, the sentinel scan finds channel 0's first time. */
  lemma SentinelIsSound(cfg: Config, chs: seq<Channel>, plans: seq<seq<Planned>>)
    requires |chs| == |plans| && plans != []
    requires forall c :: 0 <= c < |chs| ==> Elapsed(chs[c]) > 4 * SLOT_TIME
    requires forall c :: 0 <= c < |chs| ==> plans[c] != []
    requires forall c, i :: 0 <= c < |chs| && 0 <= i < |plans[c]| ==> plans[c][i].position < SAMPLES_PER_SLOT
    ensures forall t :: t in AllTimes(cfg, chs, plans) ==> t > 0
    ensures FirstNonzero(AllTimes(cfg, chs, plans)) > 0
    ensures FirstNonzero(AllTimes(cfg, chs, plans)) ==
            NextSlotTime(chs[0].lastSlot, Elapsed(chs[0])) + cfg.rfDelay - plans[0][0].position * TIME_PER_SAMPLE
  {
    AllTimesPositive(cfg, chs, plans);
    var times := AllTimes(cfg, chs, plans);
    hide AllTimes, PassTimes, FirstNonzero, NextSlotTime;
    assert forall i :: 0 <= i < |times| ==> times[i] in times;
    FirstNonzeroIsFirst(times);
    FirstPassTime(cfg, chs[0], plans[0]);
  }
}

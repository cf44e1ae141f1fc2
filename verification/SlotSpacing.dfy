/**
 * The four branches of allocateSlot as one max-plus recurrence: where the
 * n-th slot lands, for any clock readings, and that no earlier schedule exists.
 */
module SlotSpacing {
  import opened Constants
  import opened SlotChannel
  import opened SlotHistory

  /** m_lastSlot after allocations made when the clock read es[0], es[1], ... */
  function LastSlot(es: seq<int>): int {
    if es == [] then 0 else NextSlotTime(LastSlot(es[..|es| - 1]), es[|es| - 1])
  }

  /** The largest of es[i] - i * SLOT_TIME. */
  function Best(es: seq<int>): int
    requires es != []
  {
    var n := |es| - 1;
    if n == 0 then es[0] else Max(Best(es[..n]), es[n] - n * SLOT_TIME)
  }

  lemma {:induction false} BestIsMaximum(es: seq<int>) returns (k: nat)
    requires es != []
    ensures k < |es| && Best(es) == es[k] - k * SLOT_TIME
    ensures forall i :: 0 <= i < |es| ==> es[i] - i * SLOT_TIME <= Best(es)
  {
    k := |es| - 1;
    if k > 0 {
      var j := BestIsMaximum(es[..k]);
      forall i | 0 <= i < |es| ensures es[i] - i * SLOT_TIME <= Best(es) {
        if i < k { assert es[..k][i] == es[i]; }
      }
      if Best(es) == Best(es[..k]) { k := j; }
    }
  }

  /**
   * The closed form. After the first positive clock reading the n-th slot is
   * max over i of es[i] + (n - i) * SLOT_TIME; a first reading at or before
   * zero finds m_lastSlot == 0 ahead of it and counts from there.
   */
  lemma {:induction false} ClosedForm(es: seq<int>)
    requires es != []
    ensures LastSlot(es) == (|es| - 1) * SLOT_TIME + (if es[0] > 0 then Best(es) else Max(SLOT_TIME, Best(es)))
    ensures LastSlot(es) > 0
  {
    var n := |es| - 1;
    if n > 0 {
      ClosedForm(es[..n]);
      assert LastSlot(es) == Max(LastSlot(es[..n]) + SLOT_TIME, es[n]);
    } else {
      assert LastSlot(es[..n]) == 0;
    }
  }

  /** A schedule serves request i no earlier than es[i], one slot at a time. */
  ghost predicate Schedule(es: seq<int>, t: seq<int>) {
    && |t| == |es|
    && (forall i :: 0 <= i < |es| ==> es[i] <= t[i])
    && (forall i, j :: 0 <= i && j == i + 1 < |es| ==> t[i] + SLOT_TIME <= t[j])
  }

  function Slots(es: seq<int>): seq<int> {
    seq(|es|, i requires 0 <= i < |es| => LastSlot(es[..i + 1]))
  }

  lemma SlotsAreSchedule(es: seq<int>)
    ensures Schedule(es, Slots(es))
  {
    forall i | 0 <= i < |es|
      ensures es[i] <= Slots(es)[i]
      ensures i > 0 ==> Slots(es)[i - 1] + SLOT_TIME <= Slots(es)[i]
    {
      assert es[..i + 1][..i] == es[..i];
      if i > 0 { ClosedForm(es[..i]); }
    }
  }

  lemma {:induction false} NoEarlier(es: seq<int>, t: seq<int>, i: nat)
    requires es != [] && es[0] > 0 && Schedule(es, t) && i < |es|
    ensures Slots(es)[i] <= t[i]
  {
    assert es[..i + 1][..i] == es[..i];
    assert Slots(es)[i] == NextSlotTime(LastSlot(es[..i]), es[i]);
    assert es[i] <= t[i];
    if i == 0 {
      assert LastSlot(es[..0]) == 0;
    } else {
      NoEarlier(es, t, i - 1);
      ClosedForm(es[..i]);
      assert Slots(es)[i - 1] == LastSlot(es[..i]);
      assert t[i - 1] + SLOT_TIME <= t[i];
    }
  }

  ghost predicate Least(es: seq<int>) {
    forall t :: Schedule(es, t) ==> forall i :: 0 <= i < |es| ==> Slots(es)[i] <= t[i]
  }

  /** The slots are the least schedule exactly when the first clock reading is positive. */
  lemma LeastScheduleIff(es: seq<int>)
    requires es != []
    ensures Schedule(es, Slots(es))
    ensures Least(es) <==> es[0] > 0
  {
    SlotsAreSchedule(es);
    if es[0] > 0 {
      forall t, i | Schedule(es, t) && 0 <= i < |es|
        ensures Slots(es)[i] <= t[i]
      {
        NoEarlier(es, t, i);
      }
    } else {
      var t := Slots(es)[0 := es[0]];
      ClosedForm(es[..1]);
      assert Slots(es)[0] == LastSlot(es[..1]) == SLOT_TIME;
      forall i, j | 0 <= i && j == i + 1 < |es|
        ensures t[i] + SLOT_TIME <= t[j]
      {
        assert Slots(es)[i] + SLOT_TIME <= Slots(es)[j];
      }
      assert Schedule(es, t) && t[0] < Slots(es)[0];
    }
  }

  // ---------- On a running channel ----------

  function Clocks(requests: seq<Request>): seq<int> {
    seq(|requests|, i requires 0 <= i < |requests| => requests[i].elapsed)
  }

  /** On any run the n-th slot is the RF delay after the n-th element of the schedule above. */
  lemma {:induction false} RunFollowsSchedule(cfg: Config, es: seq<Event>)
    ensures var h := Run(cfg, es);
            && h.channel.lastSlot == LastSlot(Clocks(h.requests))
            && forall n :: 0 <= n < |h.requests| ==> h.requests[n].time == Slots(Clocks(h.requests))[n] + cfg.rfDelay
  {
    if es == [] {
    } else {
      var h, e := Run(cfg, es[..|es| - 1]), es[|es| - 1];
      RunFollowsSchedule(cfg, es[..|es| - 1]);
      assert Run(cfg, es) == Step(cfg, h, e);
      hide Run, LastSlot;
      if e.Allocate? { SchedulesNext(cfg, h, e.no); }
    }
  }

  /** One more allocation on a channel that has followed the schedule. */
  lemma SchedulesNext(cfg: Config, h: History, no: SlotNo)
    requires h.channel.lastSlot == LastSlot(Clocks(h.requests))
    requires forall n :: 0 <= n < |h.requests| ==> h.requests[n].time == Slots(Clocks(h.requests))[n] + cfg.rfDelay
    ensures var g := Step(cfg, h, Allocate(no));
            && g.channel.lastSlot == LastSlot(Clocks(g.requests))
            && forall n :: 0 <= n < |g.requests| ==> g.requests[n].time == Slots(Clocks(g.requests))[n] + cfg.rfDelay
  {
    var g, k := Step(cfg, h, Allocate(no)), |h.requests|;
    assert Clocks(g.requests)[..k] == Clocks(h.requests);
    assert Clocks(g.requests)[..k + 1] == Clocks(g.requests);
    assert LastSlot(Clocks(g.requests)) == NextSlotTime(LastSlot(Clocks(h.requests)), Elapsed(h.channel));
    hide LastSlot, NextSlotTime;
    forall n | 0 <= n < |g.requests|
      ensures g.requests[n].time == Slots(Clocks(g.requests))[n] + cfg.rfDelay
    {
      if n < k { assert Clocks(g.requests)[..n + 1] == Clocks(h.requests)[..n + 1]; }
    }
  }

  /** Slot times are at least SLOT_TIME apart and never before the clock that asked for them. */
  lemma RequestsSpaced(cfg: Config, es: seq<Event>, n: nat)
    requires n < |Run(cfg, es).requests|
    ensures var r := Run(cfg, es).requests;
            && r[n].elapsed + cfg.rfDelay <= r[n].time
            && (n > 0 ==> r[n - 1].time + SLOT_TIME <= r[n].time)
            && Run(cfg, es).channel.lastSlot + cfg.rfDelay == r[|r| - 1].time
  {
    var r := Run(cfg, es).requests;
    RunFollowsSchedule(cfg, es);
    SlotsAreSchedule(Clocks(r));
    assert Clocks(r)[..|r|] == Clocks(r);
    assert r[|r| - 1].time == Slots(Clocks(r))[|r| - 1] + cfg.rfDelay;
  }
}

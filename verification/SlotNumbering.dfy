/**
 * The slot numbers a channel transmits under, over any sequence of packets.
 * An unmarked packet takes the number after m_sn, a marked one brings its
 * own, and m_sn is not moved past it.
 */
module SlotNumbering {
  import opened SlotChannel
  import opened StepMachine
  import opened TransmitPlan
  import opened Constants

  function Numbers(plan: seq<Planned>): (ns: seq<SlotNo>)
    ensures |ns| == |plan|
    ensures forall i :: 0 <= i < |plan| ==> ns[i] == plan[i].no
  {
    seq(|plan|, i requires 0 <= i < |plan| => plan[i].no)
  }

  /** m_sn after the packets, each given by its control bytes; an idle turn is a packet of none. */
  function NumberAfter(sn: SlotNo, packets: seq<seq<nat>>): SlotNo {
    if packets == [] then sn else
    NextNumber(NumberAfter(sn, packets[..|packets| - 1]), packets[|packets| - 1])
  }

  /** The numbers of all slots the packets are sent under, in order. */
  function SlotNumbers(sn: SlotNo, packets: seq<seq<nat>>): seq<SlotNo> {
    if packets == [] then [] else
    var n := |packets| - 1;
    SlotNumbers(sn, packets[..n]) + Numbers(PlanFor(NumberAfter(sn, packets[..n]), packets[n]))
  }

  ghost predicate Alternates(ns: seq<SlotNo>) {
    forall i, j :: 0 <= i && j == i + 1 < |ns| ==> ns[i] != ns[j]
  }

  // ---------- When they alternate ----------

  ghost predicate Marked(packet: seq<nat>) { MarksIn(packet) != [] }

  /** The numbers of all received marks. */
  function AllMarks(packets: seq<seq<nat>>): seq<SlotNo> {
    if packets == [] then [] else AllMarks(packets[..|packets| - 1]) + Numbers(MarksIn(packets[|packets| - 1]))
  }

  /** Counting 1, 2, 1, 2 from sn. */
  function NumberAt(sn: SlotNo, k: nat): SlotNo { if k % 2 == 0 then sn else Other(sn) }

  ghost predicate MarkedFrom(packets: seq<seq<nat>>, a: nat) {
    forall k :: 0 <= k < |packets| ==> (Marked(packets[k]) <==> a <= k)
  }

  /**
   * The first a packets carry no mark and all later ones do; the received
   * marks alternate, and their first continues the count of the unmarked
   * packets, if there were any.
   */
  ghost predicate Orderly(sn: SlotNo, packets: seq<seq<nat>>, a: nat) {
    && a <= |packets|
    && MarkedFrom(packets, a)
    && Alternates(AllMarks(packets[a..]))
    && (a > 0 && AllMarks(packets[a..]) != [] ==> AllMarks(packets[a..])[0] == NumberAt(sn, a))
  }

  lemma AlternatesJoined(s: seq<SlotNo>, t: seq<SlotNo>)
    ensures Alternates(s + t) <==>
            Alternates(s) && Alternates(t) && (s != [] && t != [] ==> s[|s| - 1] != t[0])
  {
    var st := s + t;
    if Alternates(st) {
      forall i, j | 0 <= i && j == i + 1 < |t| ensures t[i] != t[j] { assert st[|s| + i] != st[|s| + j]; }
      forall i, j | 0 <= i && j == i + 1 < |s| ensures s[i] != s[j] { assert st[i] != st[j]; }
      if s != [] && t != [] { assert st[|s| - 1] != st[|s|]; }
    }
  }

  /** The number of the last slot sent: m_sn stays on it after a marked packet and is past it after an unmarked one. */
  ghost function LastSent(sn: SlotNo, packets: seq<seq<nat>>): SlotNo
    requires packets != []
  {
    var after := NumberAfter(sn, packets);
    if Marked(packets[|packets| - 1]) then after else Other(after)
  }

  lemma LastSentIsLast(sn: SlotNo, packets: seq<seq<nat>>)
    requires packets != []
    ensures var ns := SlotNumbers(sn, packets); ns != [] && ns[|ns| - 1] == LastSent(sn, packets)
  {
    var n := |packets| - 1;
    var next := NumberAfter(sn, packets[..n]);
    var plan := PlanFor(next, packets[n]);
    assert SlotNumbers(sn, packets) == SlotNumbers(sn, packets[..n]) + Numbers(plan);
    assert NumberAfter(sn, packets) == NextNumber(next, packets[n]);
    hide SlotNumbers, NumberAfter, MarksIn;
  }

  /** What one more packet needs to keep the numbers alternating. */
  ghost predicate Continues(sn: SlotNo, before: seq<seq<nat>>, packet: seq<nat>) {
    var marks := MarksIn(packet);
    if marks == [] then before == [] || !Marked(before[|before| - 1])
    else Alternates(Numbers(marks)) && (before == [] || marks[0].no != LastSent(sn, before))
  }

  lemma OneMorePacket(sn: SlotNo, before: seq<seq<nat>>, packet: seq<nat>)
    ensures Alternates(SlotNumbers(sn, before + [packet])) <==>
            Alternates(SlotNumbers(sn, before)) && Continues(sn, before, packet)
  {
    var plan := PlanFor(NumberAfter(sn, before), packet);
    assert (before + [packet])[..|before|] == before;
    AlternatesJoined(SlotNumbers(sn, before), Numbers(plan));
    if before != [] { LastSentIsLast(sn, before); }
    hide SlotNumbers, NumberAfter, MarksIn;
  }

  lemma {:induction false} UnmarkedCount(sn: SlotNo, packets: seq<seq<nat>>)
    requires forall k :: 0 <= k < |packets| ==> !Marked(packets[k])
    ensures NumberAfter(sn, packets) == NumberAt(sn, |packets|)
  {
    if packets == [] {
    } else {
      var n := |packets| - 1;
      UnmarkedCount(sn, packets[..n]);
      assert !Marked(packets[n]);
    }
  }

  /** The marks that count from packet a on, one packet longer. */
  lemma MarksGrow(before: seq<seq<nat>>, packet: seq<nat>, a: nat)
    requires a <= |before|
    ensures AllMarks((before + [packet])[a..]) == AllMarks(before[a..]) + Numbers(MarksIn(packet))
  {
    var more := (before + [packet])[a..];
    assert more[..|more| - 1] == before[a..];
    hide MarksIn;
  }

  /** After a marked packet the last number sent is the last mark received. */
  lemma LastIsMark(sn: SlotNo, packets: seq<seq<nat>>, a: nat)
    requires a < |packets| && Marked(packets[|packets| - 1])
    ensures var marks := AllMarks(packets[a..]); marks != [] && marks[|marks| - 1] == LastSent(sn, packets)
  {
    var n := |packets| - 1;
    assert packets == packets[..n] + [packets[n]];
    MarksGrow(packets[..n], packets[n], a);
    hide AllMarks, MarksIn;
  }

  /** The number the first mark must carry, or must not, seen from the packets before it. */
  lemma LastBeforeMarks(sn: SlotNo, before: seq<seq<nat>>, a: nat)
    requires Orderly(sn, before, a) && before != []
    ensures a == |before| ==> AllMarks(before[a..]) == [] && LastSent(sn, before) == Other(NumberAt(sn, a))
    ensures a < |before| ==>
              && AllMarks(before[a..]) != []
              && AllMarks(before[a..])[|AllMarks(before[a..])| - 1] == LastSent(sn, before)
  {
    assert Marked(before[|before| - 1]) <==> a < |before|;
    if a < |before| {
      LastIsMark(sn, before, a);
    } else {
      UnmarkedCount(sn, before);
    }
    hide MarksIn;
  }

  lemma SplitMarked(before: seq<seq<nat>>, packet: seq<nat>, a: nat)
    requires Marked(packet) && a <= |before|
    ensures MarkedFrom(before + [packet], a) <==> MarkedFrom(before, a)
  {
    var all := before + [packet];
    if MarkedFrom(all, a) {
      forall k | 0 <= k < |before| ensures Marked(before[k]) <==> a <= k { assert all[k] == before[k]; }
    }
    hide Marked;
  }

  /** One more packet keeps a run orderly exactly when it continues its numbers. */
  lemma OrderlyMarked(sn: SlotNo, before: seq<seq<nat>>, packet: seq<nat>, a: nat)
    requires Marked(packet) && a <= |before|
    ensures Orderly(sn, before + [packet], a) <==> Orderly(sn, before, a) && Continues(sn, before, packet)
  {
    MarksGrow(before, packet, a);
    AlternatesJoined(AllMarks(before[a..]), Numbers(MarksIn(packet)));
    SplitMarked(before, packet, a);
    assert a == |before| ==> before[a..] == [];
    if before != [] && Orderly(sn, before, a) { LastBeforeMarks(sn, before, a); }
    hide AllMarks, MarksIn, LastSent, Alternates, MarkedFrom;
  }

  lemma OrderlyUnmarked(sn: SlotNo, before: seq<seq<nat>>, packet: seq<nat>)
    requires !Marked(packet)
    ensures Orderly(sn, before + [packet], |before| + 1) <==>
            Orderly(sn, before, |before|)
  {
    var all := before + [packet];
    assert all[|before| + 1..] == [] && before[|before|..] == [];
    if Orderly(sn, all, |all|) {
      forall k | 0 <= k < |before| ensures !Marked(before[k]) { assert all[k] == before[k]; }
    }
    hide MarksIn;
  }

  lemma {:induction false} AlternatingIsOrderly(sn: SlotNo, packets: seq<seq<nat>>) returns (a: nat)
    requires Alternates(SlotNumbers(sn, packets))
    ensures Orderly(sn, packets, a)
  {
    if packets == [] {
      a := 0;
    } else {
      var n := |packets| - 1;
      var before, packet := packets[..n], packets[n];
      assert packets == before + [packet];
      hide SlotNumbers, AllMarks, Alternates, MarksIn;
      OneMorePacket(sn, before, packet);
      a := AlternatingIsOrderly(sn, before);
      if Marked(packet) {
        OrderlyMarked(sn, before, packet, a);
      } else {
        OrderlyUnmarked(sn, before, packet);
        a := n + 1;
      }
    }
  }

  lemma {:induction false} OrderlyAlternates(sn: SlotNo, packets: seq<seq<nat>>, a: nat)
    requires Orderly(sn, packets, a)
    ensures Alternates(SlotNumbers(sn, packets))
  {
    if packets == [] {
    } else {
      var n := |packets| - 1;
      var before, packet := packets[..n], packets[n];
      assert packets == before + [packet];
      assert Marked(packet) <==> a <= n;
      hide SlotNumbers, AllMarks, Alternates, MarksIn;
      OneMorePacket(sn, before, packet);
      if Marked(packet) {
        OrderlyMarked(sn, before, packet, a);
        OrderlyAlternates(sn, before, a);
      } else {
        OrderlyUnmarked(sn, before, packet);
        OrderlyAlternates(sn, before, n);
      }
    }
  }

  /**
   * The slot numbers of a run of packets alternate throughout exactly when
   * no unmarked packet follows a marked one, the received marks alternate,
   * within packets and from one to the next, and the first of them
   * continues the count of the unmarked packets before it.
   */
  lemma AlternationIff(sn: SlotNo, packets: seq<seq<nat>>)
    ensures Alternates(SlotNumbers(sn, packets)) <==> exists a :: Orderly(sn, packets, a)
  {
    if Alternates(SlotNumbers(sn, packets)) {
      var a := AlternatingIsOrderly(sn, packets);
    } else if exists a :: Orderly(sn, packets, a) {
      var a :| Orderly(sn, packets, a);
      OrderlyAlternates(sn, packets, a);
    }
  }

  /** The shortest run that repeats a number: a packet with one mark, then one without. */
  lemma RepeatedNumber(sn: SlotNo, marked: seq<nat>, unmarked: seq<nat>)
    requires |MarksIn(marked)| == 1 && !Marked(unmarked)
    ensures var no := MarksIn(marked)[0].no;
            SlotNumbers(sn, [marked, unmarked]) == [no, no] && !Alternates(SlotNumbers(sn, [marked, unmarked]))
  {
    var packets := [marked, unmarked];
    assert packets[..1] == [marked] && [marked][..0] == [];
    assert NumberAfter(sn, [marked]) == MarksIn(marked)[0].no;
    assert SlotNumbers(sn, [marked]) == [MarksIn(marked)[0].no];
    var ns := SlotNumbers(sn, packets);
    assert ns == [MarksIn(marked)[0].no, MarksIn(marked)[0].no];
    assert ns[0] == ns[1];
  }
}

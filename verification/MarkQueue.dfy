/**
 * What the slot queue promises over any run of one channel: every allocated
 * slot is marked exactly once, in order, never early, at least 720 samples
 * apart, and, while time does not run backwards, exactly where a plain
 * recurrence without any queue or counter says.
 */
module MarkQueue {
  import opened Constants
  import opened SlotChannel
  import opened SlotHistory

  // ---------- Exactly once, in order ----------

  function RequestNumbers(requests: seq<Request>): seq<nat> {
    seq(|requests|, i requires 0 <= i < |requests| => requests[i].no)
  }

  function MarkNumbers(marks: seq<Mark>): seq<nat> {
    seq(|marks|, i requires 0 <= i < |marks| => marks[i].no)
  }

  /** The slots still waiting for their mark, in queue order. */
  function Unmarked(q: seq<Slot>): seq<nat> {
    if q == [] then [] else (if q[0].counter == 0 then [q[0].no] else []) + Unmarked(q[1..])
  }

  lemma {:induction false} UnmarkedFresh(q: seq<Slot>)
    requires forall i :: 0 <= i < |q| ==> q[i].counter == 0
    ensures |Unmarked(q)| == |q| && forall i :: 0 <= i < |q| ==> Unmarked(q)[i] == q[i].no
  {
    if q == [] {
    } else {
      UnmarkedFresh(q[1..]);
    }
  }

  lemma UnmarkedIs(q: seq<Slot>)
    requires forall i :: 1 <= i < |q| ==> q[i].counter == 0
    ensures var occupied := if Occupied(q) then 1 else 0;
            && |Unmarked(q)| == |q| - occupied
            && forall i :: 0 <= i < |Unmarked(q)| ==> Unmarked(q)[i] == q[i + occupied].no
  {
    UnmarkedFresh(if Occupied(q) then q[1..] else q);
  }

  /** The queue accounts for the requests beyond the marks. */
  lemma UnmarkedAreTheRest(q: seq<Slot>, requests: seq<Request>, k: nat)
    requires QueueMatches(q, requests, k)
    ensures k <= |requests| && Unmarked(q) == RequestNumbers(requests[k..])
  {
    UnmarkedIs(q);
    var occupied := if Occupied(q) then 1 else 0;
    hide Unmarked;
    forall i | 0 <= i < |requests| - k
      ensures Unmarked(q)[i] == requests[k..][i].no
    {
      assert SameSlot(q[i + occupied], requests[k - occupied + i + occupied]);
    }
  }

  lemma MarkedAreTheFirst(q: seq<Slot>, requests: seq<Request>, marks: seq<Mark>, times: seq<int>)
    requires MarksMatch(q, requests, marks, times)
    ensures |marks| <= |requests| && MarkNumbers(marks) == RequestNumbers(requests[..|marks|])
  {
    forall i | 0 <= i < |marks|
      ensures marks[i].no == requests[..|marks|][i].no
    {
      assert MarkedRight(marks[i], requests[i], times);
    }
  }

  /** Slots asked for == marks given ++ slots still unmarked, on every run whatever the clock does. */
  lemma ExactlyOnceInOrder(cfg: Config, es: seq<Event>)
    ensures var h := Run(cfg, es);
            RequestNumbers(h.requests) == MarkNumbers(h.marks) + Unmarked(h.channel.queue)
  {
    var h := Run(cfg, es);
    var k := |h.marks|;
    RunIsSound(cfg, es);
    hide QueueMatches, MarksMatch, Unmarked, Run;
    UnmarkedAreTheRest(h.channel.queue, h.requests, k);
    MarkedAreTheFirst(h.channel.queue, h.requests, h.marks, h.times);
    assert RequestNumbers(h.requests) == RequestNumbers(h.requests[..k]) + RequestNumbers(h.requests[k..]);
  }

  /** Only the head of the queue has a counter, and the uint16 behind it never passes 719. */
  lemma OnlyHeadCounts(cfg: Config, es: seq<Event>, i: nat)
    requires i < |Run(cfg, es).channel.queue|
    ensures Run(cfg, es).channel.queue[i].counter <= if i == 0 then SAMPLES_PER_SLOT - 1 else 0
  {
    RunIsSound(cfg, es);
  }

  // ---------- Never early, never crowded ----------

  lemma {:induction false} MarksApart(h: History, i: nat, j: nat)
    requires Sound(h) && i <= j < |h.marks|
    ensures h.marks[i].index + (j - i) * SAMPLES_PER_SLOT <= h.marks[j].index
    decreases j
  {
    if i == j {
    } else {
      MarksApart(h, i, j - 1);
      assert Apart(h.marks, j);
    }
  }

  /** Any two marks lie 720 calls apart for each slot between them, even if timestamps go backwards. */
  lemma MarkSeparation(cfg: Config, es: seq<Event>, i: nat, j: nat)
    requires i <= j < |Run(cfg, es).marks|
    ensures var marks := Run(cfg, es).marks;
            marks[j].index - marks[i].index >= (j - i) * SAMPLES_PER_SLOT
  {
    RunIsSound(cfg, es);
    MarksApart(Run(cfg, es), i, j);
  }

  /** A mark is given at a call made after its request, at a sample whose time has reached the slot. */
  lemma NeverEarly(cfg: Config, es: seq<Event>, n: nat)
    requires n < |Run(cfg, es).marks|
    ensures var h := Run(cfg, es);
            && n < |h.requests|
            && h.requests[n].at <= h.marks[n].index < |h.times|
            && h.requests[n].time <= h.times[h.marks[n].index]
  {
    RunIsSound(cfg, es);
    var h := Run(cfg, es);
    assert MarkedRight(h.marks[n], h.requests[n], h.times);
  }

  /** The mark logged for call i, or 0. */
  function MarkAt(marks: seq<Mark>, i: nat): nat {
    if marks == [] then 0
    else if marks[|marks| - 1].index == i then marks[|marks| - 1].no
    else MarkAt(marks[..|marks| - 1], i)
  }

  lemma {:induction false} MarkAtFound(marks: seq<Mark>, i: nat) returns (n: nat)
    requires MarkAt(marks, i) != 0
    ensures n < |marks| && marks[n].index == i && marks[n].no == MarkAt(marks, i)
  {
    n := |marks| - 1;
    if marks[n].index != i { n := MarkAtFound(marks[..n], i); }
  }

  lemma {:induction false} MarkAtMissing(marks: seq<Mark>, i: nat)
    requires forall n :: 0 <= n < |marks| ==> marks[n].index != i
    ensures MarkAt(marks, i) == 0
  {
    if marks == [] {
    } else {
      MarkAtMissing(marks[..|marks| - 1], i);
    }
  }

  /** The answers are the mark log, call by call. */
  ghost predicate AnswersMatch(h: History) {
    |h.answers| == |h.times| && forall i :: 0 <= i < |h.answers| ==> h.answers[i] == MarkAt(h.marks, i)
  }

  lemma MarkAtLogged(marks: seq<Mark>, answer: nat, index: nat, i: nat)
    requires forall n :: 0 <= n < |marks| ==> marks[n].index != index
    ensures MarkAt(Logged(marks, answer, index), i) == if i == index then answer else MarkAt(marks, i)
  {
    MarkAtMissing(marks, index);
    if answer != 0 { assert Logged(marks, answer, index)[..|marks|] == marks; }
  }

  lemma AnswerLogged(h: History, answer: nat)
    requires Sound(h) && AnswersMatch(h)
    ensures var i := |h.times|;
            |h.answers| == i && forall k :: 0 <= k < i + 1 ==>
              (h.answers + [answer])[k] == MarkAt(Logged(h.marks, answer, i), k)
  {
    forall n | 0 <= n < |h.marks|
      ensures h.marks[n].index != |h.times|
    {
      assert MarkedRight(h.marks[n], h.requests[n], h.times);
    }
    hide Sound, Logged, MarkAt;
    forall k | 0 <= k < |h.times| + 1
      ensures (h.answers + [answer])[k] == MarkAt(Logged(h.marks, answer, |h.times|), k)
    {
      MarkAtLogged(h.marks, answer, |h.times|, k);
    }
  }

  /** What checkTime returned, call by call, is what the mark log says. */
  lemma {:induction false} AnswersAreMarks(cfg: Config, es: seq<Event>)
    ensures var h := Run(cfg, es);
            |h.answers| == |h.times| && forall i :: 0 <= i < |h.answers| ==> h.answers[i] == MarkAt(h.marks, i)
  {
    if es == [] {
    } else {
      var h, e := Run(cfg, es[..|es| - 1]), es[|es| - 1];
      assert Run(cfg, es) == Step(cfg, h, e);
      AnswersAreMarks(cfg, es[..|es| - 1]);
      RunIsSound(cfg, es[..|es| - 1]);
      hide Run, Sound, Serve, MarkAt, Logged;
      if e.Sample? {
        var now := SampleTime(cfg, Tick(h.channel, e.first));
        AnswerLogged(h, Serve(h.channel.queue, now).answer);
      }
    }
  }

  /** Any 720 consecutive answers hold at most one mark. */
  lemma OneMarkPerPacket(cfg: Config, es: seq<Event>, i: nat, j: nat)
    requires i < j < |Run(cfg, es).answers| && j < i + SAMPLES_PER_SLOT
    ensures Run(cfg, es).answers[i] == 0 || Run(cfg, es).answers[j] == 0
  {
    var h := Run(cfg, es);
    AnswersAreMarks(cfg, es);
    RunIsSound(cfg, es);
    if h.answers[i] != 0 && h.answers[j] != 0 {
      var m := MarkAtFound(h.marks, i);
      var n := MarkAtFound(h.marks, j);
      if m <= n { MarksApart(h, m, n); } else { MarksApart(h, n, m); }
    }
  }

  // ---------- The queue refines a recurrence ----------

  ghost predicate Nondecreasing(times: seq<int>) {
    forall i, j :: 0 <= i <= j < |times| ==> times[i] <= times[j]
  }

  /** The first call at or after `from` whose sample time has reached `due`; |times| if there is none. */
  function First(times: seq<int>, from: nat, due: int): (i: nat)
    ensures i <= |times|
    ensures forall j :: from <= j < i ==> times[j] < due
    ensures i < |times| ==> from <= i && due <= times[i]
    ensures from >= |times| ==> i == |times|
    decreases |times| - from
  {
    if from >= |times| then |times|
    else if due <= times[from] then from
    else First(times, from + 1, due)
  }

  /** The earliest call that may mark request n: after it was made, and 720 after the mark before it. */
  function Earliest(marks: seq<Mark>, n: nat, at: nat): nat
    requires n <= |marks|
  {
    if n == 0 then at else Max(at, marks[n - 1].index + SAMPLES_PER_SLOT)
  }

  /** The reference: mark n is at the first call from Earliest on whose time has reached the slot. */
  function Recurrence(times: seq<int>, requests: seq<Request>, free: nat): seq<nat> {
    if requests == [] then [] else
    var i := First(times, Max(free, requests[0].at), requests[0].time);
    if i < |times| then [i] + Recurrence(times, requests[1..], i + SAMPLES_PER_SLOT) else []
  }

  function Indices(marks: seq<Mark>): seq<nat> {
    if marks == [] then [] else [marks[0].index] + Indices(marks[1..])
  }

  lemma {:induction false} FirstExtends(times: seq<int>, now: int, from: nat, due: int)
    ensures var i := First(times, from, due);
            First(times + [now], from, due) ==
            if i < |times| then i else if from <= |times| && due <= now then |times| else |times| + 1
    decreases |times| - from
  {
    if from < |times| && times[from] < due { FirstExtends(times, now, from + 1, due); }
  }

  ghost predicate InPlace(marks: seq<Mark>, n: nat, r: Request, times: seq<int>)
    requires n < |marks|
  {
    marks[n].index == First(times, Earliest(marks, n, r.at), r.time) < |times|
  }

  ghost predicate Pending(marks: seq<Mark>, r: Request, times: seq<int>) {
    First(times, Earliest(marks, |marks|, r.at), r.time) == |times|
  }

  ghost predicate AllInPlace(marks: seq<Mark>, requests: seq<Request>, times: seq<int>)
    requires |marks| <= |requests|
  {
    forall n {:trigger InPlace(marks, n, requests[n], times)} ::
      0 <= n < |marks| ==> InPlace(marks, n, requests[n], times)
  }

  /** What the queue and its counter remember of the past while time does not go backwards. */
  ghost predicate Prompt(q: seq<Slot>, requests: seq<Request>, marks: seq<Mark>, times: seq<int>) {
    && |marks| <= |requests|
    && AllInPlace(marks, requests, times)
    && (|marks| < |requests| ==> Pending(marks, requests[|marks|], times))
    && (Occupied(q) ==> marks != [] && |times| == marks[|marks| - 1].index + q[0].counter)
  }

  ghost predicate PromptHistory(h: History) {
    Sound(h) && Prompt(h.channel.queue, h.requests, h.marks, h.times)
  }

  lemma StaysInPlace(marks: seq<Mark>, more: seq<Mark>, n: nat, r: Request, times: seq<int>, now: int)
    requires n < |marks| && marks <= more && InPlace(marks, n, r, times)
    ensures InPlace(more, n, r, times + [now])
  {
    FirstExtends(times, now, Earliest(marks, n, r.at), r.time);
  }

  /** An occupied head has been reached, so its counter moves with every call. */
  lemma OccupiedIsDue(q: seq<Slot>, requests: seq<Request>, marks: seq<Mark>, times: seq<int>, now: int)
    requires QueueMatches(q, requests, |marks|) && MarksMatch(q, requests, marks, times)
    requires Occupied(q) && Nondecreasing(times + [now])
    ensures q[0].time <= now
  {
    var k := |marks| - 1;
    assert MarkedRight(marks[k], requests[k], times);
    assert SameSlot(q[0], requests[k]);
    assert (times + [now])[marks[k].index] <= (times + [now])[|times|];
  }

  /** When a mark is given, its slot is the first unmarked request, and it is due. */
  lemma MarkGiven(q: seq<Slot>, requests: seq<Request>, k: nat, now: int)
    requires QueueMatches(q, requests, k) && Serve(q, now).answer != 0
    ensures k < |requests| && requests[k].time <= now && requests[k].no == Serve(q, now).answer && !Occupied(q)
    ensures Occupied(Serve(q, now).queue) && Serve(q, now).queue[0].counter == 1
  {
    assert SameSlot(q[0], requests[k]);
  }

  lemma AllStayInPlace(marks: seq<Mark>, requests: seq<Request>, times: seq<int>, now: int)
    requires |marks| <= |requests| && AllInPlace(marks, requests, times)
    ensures AllInPlace(marks, requests, times + [now])
  {
    forall n | 0 <= n < |marks|
      ensures InPlace(marks, n, requests[n], times + [now])
    {
      assert InPlace(marks, n, requests[n], times);
      hide InPlace;
      StaysInPlace(marks, marks, n, requests[n], times, now);
    }
    hide InPlace;
  }

  /** The next mark falls in place too: it is given at the first call that may and is late enough. */
  lemma NextInPlace(marks: seq<Mark>, requests: seq<Request>, times: seq<int>, now: int, answer: nat)
    requires |marks| < |requests| && AllInPlace(marks, requests, times)
    requires Pending(marks, requests[|marks|], times)
    requires Earliest(marks, |marks|, requests[|marks|].at) <= |times| && requests[|marks|].time <= now
    ensures AllInPlace(marks + [Mark(answer, |times|)], requests, times + [now])
  {
    var k, after := |marks|, marks + [Mark(answer, |times|)];
    FirstExtends(times, now, Earliest(marks, k, requests[k].at), requests[k].time);
    assert InPlace(after, k, requests[k], times + [now]);
    forall n | 0 <= n < |after|
      ensures InPlace(after, n, requests[n], times + [now])
    {
      if n < k {
        assert InPlace(marks, n, requests[n], times);
        hide InPlace;
        StaysInPlace(marks, after, n, requests[n], times, now);
      }
    }
    hide InPlace;
  }

  /** With the head not occupied, the first unmarked request may be marked by the next call. */
  lemma MayMarkNow(q: seq<Slot>, requests: seq<Request>, marks: seq<Mark>, times: seq<int>)
    requires MarksMatch(q, requests, marks, times) && !Occupied(q) && |marks| < |requests|
    ensures Earliest(marks, |marks|, requests[|marks|].at) <= |times|
  {
  }

  lemma ServeMarks(q: seq<Slot>, requests: seq<Request>, marks: seq<Mark>, times: seq<int>, now: int)
    requires QueueMatches(q, requests, |marks|) && MarksMatch(q, requests, marks, times)
    requires Prompt(q, requests, marks, times)
    requires Serve(q, now).answer != 0
    ensures Prompt(Serve(q, now).queue, requests, Logged(marks, Serve(q, now).answer, |times|), times + [now])
  {
    MarkGiven(q, requests, |marks|, now);
    hide First, Serve, QueueMatches, MarksMatch, AllInPlace, Pending, Earliest, Occupied;
    MayMarkNow(q, requests, marks, times);
    NextInPlace(marks, requests, times, now, Serve(q, now).answer);
    if |marks| + 1 < |requests| { NothingElseDue(requests, marks, times, now, Serve(q, now).answer); }
  }

  /** Right after a mark the next slot still waits for its 720 calls to pass. */
  lemma NothingElseDue(requests: seq<Request>, marks: seq<Mark>, times: seq<int>, now: int, answer: nat)
    requires |marks| + 1 < |requests|
    ensures Pending(marks + [Mark(answer, |times|)], requests[|marks| + 1], times + [now])
  {
  }

  /** While the head is not marked, either it is occupied or the next request is not due. */
  lemma StaysPending(q: seq<Slot>, requests: seq<Request>, marks: seq<Mark>, times: seq<int>, now: int)
    requires |marks| < |requests| && QueueMatches(q, requests, |marks|) && Pending(marks, requests[|marks|], times)
    requires Occupied(q) ==> marks != [] && |times| == marks[|marks| - 1].index + q[0].counter
    requires Serve(q, now).answer == 0
    ensures Pending(marks, requests[|marks|], times + [now])
  {
    var k := |marks|;
    if !Occupied(q) { assert SameSlot(q[0], requests[k]); }
    FirstExtends(times, now, Earliest(marks, k, requests[k].at), requests[k].time);
    hide First;
  }

  lemma ServeWaits(q: seq<Slot>, requests: seq<Request>, marks: seq<Mark>, times: seq<int>, now: int)
    requires QueueMatches(q, requests, |marks|) && MarksMatch(q, requests, marks, times)
    requires Prompt(q, requests, marks, times)
    requires Serve(q, now).answer == 0 && Nondecreasing(times + [now])
    ensures Prompt(Serve(q, now).queue, requests, marks, times + [now])
  {
    hide QueueMatches, MarksMatch, AllInPlace, Pending, Nondecreasing;
    AllStayInPlace(marks, requests, times, now);
    if Occupied(q) { OccupiedIsDue(q, requests, marks, times, now); }
    if |marks| < |requests| { StaysPending(q, requests, marks, times, now); }
    WaitsOrMoves(q, requests, |marks|, now);
  }

  /** An answer of 0 leaves an occupied head one call older, or takes it away, or changes nothing. */
  lemma WaitsOrMoves(q: seq<Slot>, requests: seq<Request>, k: nat, now: int)
    requires QueueMatches(q, requests, k) && Serve(q, now).answer == 0 && (Occupied(q) ==> q[0].time <= now)
    ensures Occupied(Serve(q, now).queue) ==>
              Occupied(q) && Serve(q, now).queue[0].counter == q[0].counter + 1
  {
  }

  lemma ServeIsPrompt(q: seq<Slot>, requests: seq<Request>, marks: seq<Mark>, times: seq<int>, now: int)
    requires QueueMatches(q, requests, |marks|) && MarksMatch(q, requests, marks, times)
    requires Prompt(q, requests, marks, times)
    requires Nondecreasing(times + [now])
    ensures Prompt(Serve(q, now).queue, requests, Logged(marks, Serve(q, now).answer, |times|), times + [now])
  {
    hide QueueMatches, MarksMatch, Prompt, Nondecreasing;
    if Serve(q, now).answer == 0 {
      ServeWaits(q, requests, marks, times, now);
    } else {
      ServeMarks(q, requests, marks, times, now);
    }
  }

  lemma RequestIsPrompt(q: seq<Slot>, requests: seq<Request>, marks: seq<Mark>, times: seq<int>,
                        s: Slot, r: Request)
    requires QueueMatches(q, requests, |marks|) && MarksMatch(q, requests, marks, times)
    requires Prompt(q, requests, marks, times)
    requires SameSlot(s, r) && s.counter == 0 && r.at == |times|
    ensures Prompt(q + [s], requests + [r], marks, times)
  {
    assert Occupied(q + [s]) == Occupied(q);
  }

  lemma PromptStep(cfg: Config, h: History, e: Event)
    requires PromptHistory(h) && Nondecreasing(Step(cfg, h, e).times)
    ensures PromptHistory(Step(cfg, h, e))
  {
    SoundStep(cfg, h, e);
    var q := h.channel.queue;
    hide QueueMatches, MarksMatch, Prompt, Nondecreasing;
    match e
    case Timer(value) =>
    case Sample(first) =>
      ServeIsPrompt(q, h.requests, h.marks, h.times, SampleTime(cfg, Tick(h.channel, first)));
    case Allocate(no) =>
      var last := AllocateSlot(cfg, h.channel, no).lastSlot;
      RequestIsPrompt(q, h.requests, h.marks, h.times, Slot(no, last + cfg.rfDelay, 0),
                      Request(no, last + cfg.rfDelay, Elapsed(h.channel), |h.times|));
  }

  lemma {:induction false} RunIsPrompt(cfg: Config, es: seq<Event>)
    requires Nondecreasing(Run(cfg, es).times)
    ensures PromptHistory(Run(cfg, es))
  {
    if es == [] {
    } else {
      var h := Run(cfg, es[..|es| - 1]);
      assert h.times <= Run(cfg, es).times;
      assert Nondecreasing(h.times);
      RunIsPrompt(cfg, es[..|es| - 1]);
      PromptStep(cfg, h, es[|es| - 1]);
    }
  }

  lemma RecurrenceAt(times: seq<int>, requests: seq<Request>, k: nat, free: nat)
    requires k < |requests|
    ensures var i := First(times, Max(free, requests[k].at), requests[k].time);
            Recurrence(times, requests[k..], free) ==
            if i < |times| then [i] + Recurrence(times, requests[k + 1..], i + SAMPLES_PER_SLOT) else []
  {
    hide First, Max;
    var rest := requests[k..];
    assert rest != [] && rest[0] == requests[k] && rest[1..] == requests[k + 1..];
  }

  lemma IndicesAt(marks: seq<Mark>, k: nat)
    requires k < |marks|
    ensures Indices(marks[k..]) == [marks[k].index] + Indices(marks[k + 1..])
  {
    assert marks[k..][0] == marks[k] && marks[k..][1..] == marks[k + 1..];
  }

  lemma {:induction false} PromptIsRecurrence(h: History, k: nat)
    requires PromptHistory(h) && k <= |h.marks|
    ensures Indices(h.marks[k..]) ==
            Recurrence(h.times, h.requests[k..], if k == 0 then 0 else h.marks[k - 1].index + SAMPLES_PER_SLOT)
    decreases |h.marks| - k
  {
    hide Sound, First, Recurrence, Indices, QueueMatches, MarksMatch;
    var free := if k == 0 then 0 else h.marks[k - 1].index + SAMPLES_PER_SLOT;
    if k == |h.marks| {
      NoneLeft(h, free);
    } else {
      assert InPlace(h.marks, k, h.requests[k], h.times);
      RecurrenceAt(h.times, h.requests, k, free);
      IndicesAt(h.marks, k);
      hide PromptHistory, Prompt;
      PromptIsRecurrence(h, k + 1);
    }
  }

  lemma NoneLeft(h: History, free: nat)
    requires PromptHistory(h)
    requires free == if h.marks == [] then 0 else h.marks[|h.marks| - 1].index + SAMPLES_PER_SLOT
    ensures Recurrence(h.times, h.requests[|h.marks|..], free) == [] == Indices(h.marks[|h.marks|..])
  {
    var k := |h.marks|;
    hide First, Sound;
    if k < |h.requests| { RecurrenceAt(h.times, h.requests, k, free); }
  }

  /**
   * While sample times do not decrease, the FIFO with its 0..719 counter
   * marks exactly the calls the recurrence names, no more and no fewer.
   */
  lemma QueueRefinesRecurrence(cfg: Config, es: seq<Event>)
    requires Nondecreasing(Run(cfg, es).times)
    ensures var h := Run(cfg, es);
            Indices(h.marks) == Recurrence(h.times, h.requests, 0)
  {
    RunIsPrompt(cfg, es);
    var h := Run(cfg, es);
    PromptIsRecurrence(h, 0);
    assert h.requests[0..] == h.requests && h.marks[0..] == h.marks;
  }
}

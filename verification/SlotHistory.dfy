/**
 * Whole runs of one channel: any sequence of setTimer, checkTime and
 * allocateSlot calls, with the log of what was asked and what came out.
 */
module SlotHistory {
  import opened Constants
  import opened SlotChannel

  datatype Event = Timer(value: int) | Sample(first: bool) | Allocate(no: SlotNo)

  /** An allocation: its slot time, the clock it saw, and how many samples came before it. */
  datatype Request = Request(no: SlotNo, time: int, elapsed: int, at: nat)

  /** A nonzero answer of checkTime, with the index of the call that gave it. */
  datatype Mark = Mark(no: nat, index: nat)

  /** times and answers have one entry per checkTime call. */
  datatype History = History(
    channel: Channel, times: seq<int>, answers: seq<nat>, requests: seq<Request>, marks: seq<Mark>)

  const START := History(FRESH_CHANNEL, [], [], [], [])

  function Step(cfg: Config, h: History, e: Event): History {
    match e
    case Timer(value) => h.(channel := SetTimer(h.channel, value))
    case Sample(first) =>
      var now := SampleTime(cfg, Tick(h.channel, first));
      var answer := Serve(h.channel.queue, now).answer;
      History(CheckTime(cfg, h.channel, first),
              h.times + [now],
              h.answers + [answer],
              h.requests,
              Logged(h.marks, answer, |h.times|))
    case Allocate(no) =>
      var ch := AllocateSlot(cfg, h.channel, no);
      h.(channel := ch,
      requests := h.requests + [Request(no, ch.lastSlot + cfg.rfDelay, Elapsed(h.channel), |h.times|)])
  }

  /** The log of marks after checkTime answered its index-th call. */
  function Logged(marks: seq<Mark>, answer: nat, index: nat): seq<Mark> {
    if answer == 0 then marks else marks + [Mark(answer, index)]
  }

  function RunFrom(cfg: Config, h: History, es: seq<Event>): History {
    if es == [] then h else Step(cfg, RunFrom(cfg, h, es[..|es| - 1]), es[|es| - 1])
  }

  function Run(cfg: Config, es: seq<Event>): History { RunFrom(cfg, START, es) }

  lemma {:induction false} RunAppend(cfg: Config, h: History, es: seq<Event>, fs: seq<Event>)
    ensures RunFrom(cfg, h, es + fs) == RunFrom(cfg, RunFrom(cfg, h, es), fs)
  {
    if fs == [] {
      assert es + fs == es;
    } else {
      RunAppend(cfg, h, es, fs[..|fs| - 1]);
      assert (es + fs)[..|es + fs| - 1] == es + fs[..|fs| - 1];
    }
  }

  lemma RunSnoc(cfg: Config, es: seq<Event>, e: Event)
    ensures Run(cfg, es + [e]) == Step(cfg, Run(cfg, es), e)
  {
    assert (es + [e])[..|es + [e]| - 1] == es;
  }

  /** A sample delay longer by d judges every sample of every run d earlier, and changes nothing else of the clock. */
  lemma {:induction false} SampleDelayShifts(cfg: Config, d: int, es: seq<Event>)
    ensures var h, g := Run(cfg, es), Run(cfg.(sampleDelay := cfg.sampleDelay + d), es);
            && g.channel.timeBase == h.channel.timeBase && g.channel.sampleCounter == h.channel.sampleCounter
            && |g.times| == |h.times| && forall i :: 0 <= i < |h.times| ==> g.times[i] == h.times[i] - d
  {
    if es == [] {
    } else {
      SampleDelayShifts(cfg, d, es[..|es| - 1]);
      hide Serve, Logged;
    }
  }

  // ---------- What every run keeps ----------

  /** True while the head of the queue has been marked and still occupies its 720 samples. */
  predicate Occupied(q: seq<Slot>) { q != [] && q[0].counter > 0 }


  ghost predicate SameSlot(s: Slot, r: Request) { s.no == r.no && s.time == r.time }

  /**
   * With m marks emitted, the queue is the tail of the requests; only its
   * head can have a counter, and that stays below 720.
   */
  ghost predicate QueueMatches(q: seq<Slot>, requests: seq<Request>, m: nat) {
    var gone := if Occupied(q) then m - 1 else m;
    && 0 <= gone
    && |requests| == gone + |q|
    && (forall i :: 0 <= i < |q| ==> SameSlot(q[i], requests[gone + i]))
    && (forall i :: 1 <= i < |q| ==> q[i].counter == 0)
    && (q != [] ==> q[0].counter < SAMPLES_PER_SLOT)
  }

  ghost predicate MarkedRight(m: Mark, r: Request, times: seq<int>) {
    m.no == r.no && r.at <= m.index < |times| && r.time <= times[m.index]
  }

  /** How many calls must have passed since the last mark. */
  function Since(q: seq<Slot>): nat {
    if Occupied(q) then q[0].counter else SAMPLES_PER_SLOT
  }

  ghost predicate Apart(marks: seq<Mark>, n: nat)
    requires 0 < n < |marks|
  {
    marks[n - 1].index + SAMPLES_PER_SLOT <= marks[n].index
  }

  /** Each mark answers its request, never early, and 720 calls after the mark before it. */
  ghost predicate MarksMatch(q: seq<Slot>, requests: seq<Request>, marks: seq<Mark>, times: seq<int>) {
    && |marks| <= |requests|
    && (forall n :: 0 <= n < |requests| ==> requests[n].at <= |times|)
    && (forall n :: 0 <= n < |marks| ==> MarkedRight(marks[n], requests[n], times))
    && (forall n :: 0 < n < |marks| ==> Apart(marks, n))
    && (marks != [] ==> marks[|marks| - 1].index + Since(q) <= |times|)
  }

  ghost predicate Sound(h: History) {
    && QueueMatches(h.channel.queue, h.requests, |h.marks|)
    && MarksMatch(h.channel.queue, h.requests, h.marks, h.times)
  }

  lemma ServeKeepsQueue(q: seq<Slot>, requests: seq<Request>, m: nat, now: int)
    requires QueueMatches(q, requests, m)
    ensures var r := Serve(q, now);
            QueueMatches(r.queue, requests, if r.answer == 0 then m else m + 1)
  {
  }

  lemma ServeKeepsMarks(q: seq<Slot>, requests: seq<Request>, marks: seq<Mark>, times: seq<int>, now: int)
    requires QueueMatches(q, requests, |marks|) && MarksMatch(q, requests, marks, times)
    ensures var r := Serve(q, now);
            MarksMatch(r.queue, requests, Logged(marks, r.answer, |times|), times + [now])
  {
    var after := Logged(marks, Serve(q, now).answer, |times|);
    forall n | 0 <= n < |after|
      ensures MarkedRight(after[n], requests[n], times + [now])
    {
      if n == |marks| {
        assert SameSlot(q[0], requests[n]);
      } else {
        assert MarkedRight(marks[n], requests[n], times);
      }
    }
    forall n | 0 < n < |after|
      ensures Apart(after, n)
    {
      if n < |marks| { assert Apart(marks, n); }
    }
  }

  lemma RequestKeepsSound(q: seq<Slot>, requests: seq<Request>, marks: seq<Mark>, times: seq<int>,
                          s: Slot, r: Request)
    requires QueueMatches(q, requests, |marks|) && MarksMatch(q, requests, marks, times)
    requires SameSlot(s, r) && s.counter == 0 && r.at == |times|
    ensures QueueMatches(q + [s], requests + [r], |marks|)
    ensures MarksMatch(q + [s], requests + [r], marks, times)
  {
    assert Occupied(q + [s]) == Occupied(q) && Since(q + [s]) == Since(q);
    forall n | 0 <= n < |marks|
      ensures MarkedRight(marks[n], (requests + [r])[n], times)
    {
      assert MarkedRight(marks[n], requests[n], times);
    }
  }

  lemma SoundStep(cfg: Config, h: History, e: Event)
    requires Sound(h)
    ensures Sound(Step(cfg, h, e))
  {
    var q := h.channel.queue;
    hide QueueMatches, MarksMatch;
    match e
    case Timer(value) =>
    case Sample(first) =>
      var now := SampleTime(cfg, Tick(h.channel, first));
      ServeKeepsQueue(q, h.requests, |h.marks|, now);
      ServeKeepsMarks(q, h.requests, h.marks, h.times, now);
      assert Step(cfg, h, e).channel.queue == Serve(q, now).queue;
    case Allocate(no) =>
      var last := AllocateSlot(cfg, h.channel, no).lastSlot;
      RequestKeepsSound(q, h.requests, h.marks, h.times, Slot(no, last + cfg.rfDelay, 0),
                        Request(no, last + cfg.rfDelay, Elapsed(h.channel), |h.times|));
  }

  lemma {:induction false} RunIsSound(cfg: Config, es: seq<Event>)
    ensures Sound(Run(cfg, es))
  {
    if es == [] {
    } else {
      RunIsSound(cfg, es[..|es| - 1]);
      SoundStep(cfg, Run(cfg, es[..|es| - 1]), es[|es| - 1]);
    }
  }
}

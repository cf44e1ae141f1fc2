/**
 * One channel of the slot scheduler as a value, with the three operations
 * of DMRTiming as functions. The class in DMRTiming.dfy is proved against
 * these functions; SlotHistory.dfy proves what they promise over whole runs.
 */
module SlotChannel {
  import opened Constants

  function Max(a: int, b: int): int { if a < b then b else a }

  /** Callers allocate only slots 1 and 2; 0 is the answer "no mark here". */
  type SlotNo = n: nat | 1 <= n <= 2 witness 1

  datatype Slot = Slot(no: SlotNo, time: int, counter: nat)

  /** The two configured delays, already in nanoseconds. sampleDelay may be negative. */
  datatype Config = Config(rfDelay: nat, sampleDelay: int) {
    function Delay(): int { TOTAL_FILTER_DELAY + sampleDelay }
  }

  datatype Channel = Channel(
    timeBase: int, sampleCounter: int, lastSlot: int, initialized: bool, queue: seq<Slot>)

  const FRESH_CHANNEL := Channel(0, 0, 0, false, [])

  function Elapsed(ch: Channel): int {
    ch.timeBase + ch.sampleCounter * TIME_PER_SAMPLE
  }

  /** The instant the channel's current sample entered the antenna. */
  function SampleTime(cfg: Config, ch: Channel): int {
    Elapsed(ch) - cfg.Delay()
  }

  function SetTimer(ch: Channel, value: int): Channel {
    ch.(sampleCounter := 0, timeBase := value, initialized := ch.initialized || value > 4 * SLOT_TIME)
  }

  function Tick(ch: Channel, first: bool): Channel {
    if first then ch else ch.(sampleCounter := ch.sampleCounter + 1)
  }

  /** What one look at the queue leaves behind and answers. */
  datatype Served = Served(queue: seq<Slot>, answer: nat)

  function Serve(q: seq<Slot>, now: int): Served {
    if q == [] || now < q[0].time then
      Served(q, 0)
    else if q[0].counter == 0 then
      Served([q[0].(counter := 1)] + q[1..], q[0].no)
    else if q[0].counter >= SAMPLES_PER_SLOT - 1 then
      Served(q[1..], 0)
    else
      Served([q[0].(counter := q[0].counter + 1)] + q[1..], 0)
  }

  function CheckTime(cfg: Config, ch: Channel, first: bool): Channel {
    var c := Tick(ch, first);
    c.(queue := Serve(c.queue, SampleTime(cfg, c)).queue)
  }

  /** The four-branch rule that moves m_lastSlot. */
  function NextSlotTime(last: int, elapsed: int): int {
    if elapsed <= last then last + SLOT_TIME
    else if last == 0 then elapsed
    else if elapsed - last >= SLOT_TIME then elapsed
    else last + SLOT_TIME
  }

  function AllocateSlot(cfg: Config, ch: Channel, no: SlotNo): Channel {
    var last := NextSlotTime(ch.lastSlot, Elapsed(ch));
    ch.(lastSlot := last, queue := ch.queue + [Slot(no, last + cfg.rfDelay, 0)])
  }

  /** The pacing correction an allocation on channel 0 leaves behind. */
  function NextCorrection(ch: Channel, correction: int): int {
    if Elapsed(ch) <= ch.lastSlot then ch.lastSlot - Elapsed(ch) else correction
  }
}

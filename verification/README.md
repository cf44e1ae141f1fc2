# DMR slot timing of MMDVM-Multi, modelled and proved in Dafny

MMDVM-Multi transmits and receives several channels through one SDR. Its
timing rests on three pieces, and this project models all of them:

- the slot scheduler (`DMRTiming`), which gives each channel a clock, a last
  allocated slot time and a queue of 30 ms slots, and is asked once per sample
  whether a slot starts there;
- the two threads around it. Both hold the timing mutex for a whole step, so a
  run is an interleaving of receiver blocks and transmitter passes;
- the data path: packet layout, packetisation, mark scan, filter bank bins and
  the blockwise resampler.

`dafny verify dfyconfig.toml` checks the project.

## How it is built

- `SlotChannel.dfy` has the scheduler's operations on one channel as functions.
  `SlotHistory.dfy` runs any sequence of calls and logs what was asked and
  answered. `MarkQueue.dfy` and `SlotSpacing.dfy` prove what such runs keep.
- `StepMachine.dfy` has the interleavings of blocks and passes.
  `MarkPlacement.dfy`, `Lockstep.dfy`, `Pacing.dfy` and `TransmitTime.dfy` prove
  where marks fall, that channels stay together, how far the transmitter runs
  ahead and which timestamp a buffer gets.
- `SlotNumbering.dfy` says which slot numbers a sequence of packets is sent
  under, `PacingLimits.dfy` where pacing and the bounded queue end.
- `DmrTiming.dfy`, `Transmitter.dfy`, `Receiver.dfy`, `Resampler.dfy`,
  `PfbBins.dfy` and `TransmitPath.dfy` are imperative. `DMRTiming` carries a ghost
  trace of the calls made on it, and its invariant says that its fields are
  those of the run of that trace. Each thread's step is proved to append exactly
  one command of the step machine.
- `ThreadSchedule.dfy` is a whole schedule of thread turns as a value: what the
  device and the network hand each turn, which packets go into which pass, and
  how long the transmitter asks to sleep. It takes the theorems about passes to
  the packets received.
- `Modem.dfy` puts the two thread objects on one scheduler and runs any schedule
  of their steps. The objects end where `ThreadSchedule` says, pass for pass and
  sleep for sleep, and its `Live` lemmas read the theorems off the objects.

Times are in nanoseconds. The filters, the FM modem and the power meter are
kernels with state or inputs. The environment assumptions are preconditions
that name themselves: `HardwareClock` (no block dropped, stamps 3 ms apart),
`SimulatedClock`, `SleepHonoured` and, over the sleeps the program asks for,
`SleepsKept` (by the next pass the receiver's clock has moved on by what was
slept, up to a slack), `StampsNondecreasing`.

## What turned out not to hold

- Exact marking fails when the RF delay, the filter delay and the configured
  sample delay do not add up to more than zero: the slot is overdue when it is
  asked for. `MarkPlacement.ExactMarkingIff` has the condition.
- The least-schedule reading of `allocateSlot` fails when a channel's first
  allocation sees a clock at or before zero, because `m_lastSlot == 0` doubles as
  "none yet". `SlotSpacing.LeastScheduleIff`.
- One timestamp does not serve the whole transmit buffer. It is channel 0's, so
  a mark of another channel is on the air at its slot time exactly when it is
  the first of its packet and sits where channel 0's sits. An idle channel 0 and
  a packet that opens with its mark send that mark 29.58 ms early.
  `TransmitTime.OnTimeIff` and `TransmitTime.MisalignedMark`.
- Pacing fails from 34 marks a packet on: the second such packet asks for more
  than a second, `nanosleep` refuses it and the thread does not sleep at all.
  `PacingLimits.PacingIff` has the condition and `PacingLimits.OverlongPackets`
  the run.
- On the simulated clock the queue is not bounded: 720 samples last 240 ns more
  than a slot, and a paced run outgrows any bound. `PacingLimits.SimulatedQueueGrows`.
- Slot numbers do not simply alternate: a marked pass sets the number without
  advancing it. `SlotNumbering.AlternationIff` has the condition on the packets
  and `SlotNumbering.RepeatedNumber` the shortest run that repeats one.
- The comment at Receiver.cpp:114-116 calls the bin where the filter bank wraps
  unusable. The code uses the middle bin whenever only one bin is left over, for
  example for 5 channels at 150 kHz. `PfbBins.MiddleBinIff`; from ten bins up it
  is never used.
- A sample of -32768 does not survive the way through transmitter scaling and
  receiver quantising, whose clamp stops at -32767. `Modem.SampleRoundTrip`.

## Model

| member | source | states |
|---|---|---|
| MarkQueue.ExactlyOnceInOrder | DMRTiming.cpp:100-153 | On every sequence of calls, whatever the clock does, the slot numbers allocated are the marks given followed by the numbers still unmarked in the queue |
| MarkQueue.OnlyHeadCounts | DMRTiming.cpp:113-123 | Only the head of the queue has a nonzero counter, and it never passes 719 |
| MarkQueue.MarkSeparation | DMRTiming.cpp:113-126 | Marks i and j of a channel are at least 720 * (j - i) checkTime calls apart, even if timestamps go backwards |
| MarkQueue.NeverEarly | DMRTiming.cpp:110-115 | The n-th mark is given after the n-th slot was asked for, at a sample whose filter-adjusted time has reached it |
| MarkQueue.AnswersAreMarks | DMRTiming.cpp:100-127 | Call by call, checkTime returns the number of the mark logged there and 0 everywhere else |
| MarkQueue.OneMarkPerPacket | DMRTiming.cpp:113-126 | Any 720 consecutive checkTime results hold at most one mark |
| MarkQueue.QueueRefinesRecurrence | DMRTiming.cpp:100-127 | While sample times do not decrease, the queue and its 0..719 counter mark exactly the calls named by a recurrence that has neither: first call after the request, 720 after the mark before, with the slot's time reached |
| SlotHistory.RunIsSound | DMRTiming.cpp:100-153 | The invariant behind these, kept by setTimer, checkTime and allocateSlot in any order |
| SlotHistory.SampleDelayShifts | DMRTiming.cpp:110 | On any sequence of calls, a sample delay longer by d judges every sample exactly d earlier and changes nothing else of the clock |
| SlotSpacing.ClosedForm | DMRTiming.cpp:135-146 | The four branches are max-plus: the n-th slot is the maximum of e_i + (n - i) slots over all clock readings e_i, with the exact correction for a first reading at or before zero |
| SlotSpacing.BestIsMaximum | DMRTiming.cpp:135-146 | The maximum in the closed form is attained by one reading and bounds all of them |
| SlotSpacing.LeastScheduleIff | DMRTiming.cpp:135-146 | The slots are a schedule at least a slot apart and never before their request, and the least such schedule exactly when the first reading is positive |
| SlotSpacing.RunFollowsSchedule | DMRTiming.cpp:129-153 | On any run the n-th slot time is the RF delay after the n-th element of that schedule |
| SlotSpacing.RequestsSpaced | DMRTiming.cpp:129-153 | Slot times are at least SLOT_TIME apart and at least the RF delay after the clock that asked |
| StepMachine.BlockStep | Receiver.cpp:128-151 | A block judges sample i at its stamp plus i sample times less the delays and leaves the counter at 71 |
| StepMachine.PassStep | Transmitter.cpp:156-198 | A pass leaves clock and marks alone, so all its allocations see one elapsed time |
| StepMachine.BlockClock | Receiver.cpp:127-153 | Whenever the lock is free, in every interleaving, the counter is 71, every request read the last sample's clock, sample times follow the block stamps, and the timing latch is closed exactly when some stamp exceeded four slots |
| StepMachine.SampleInstants | DMRTiming.cpp:110 | In every interleaving sample g is judged at its block's stamp plus 41667 ns for each sample before it in the block, less 6000048 ns of filters and the configured sample delay |
| MarkPlacement.ExactMarking | DMRTiming.cpp:100-153 | On a hardware clock with a positive total delay, in every interleaving, each slot is marked at the first sample of the whole run that reaches it, and unmarked only if none has; samples are judged at their place on the clock less 6000048 ns and the sample delay |
| MarkPlacement.ExactMarkingIff | DMRTiming.cpp:110-148 | Exact marking holds on all hardware-clocked runs exactly when the delays add up to more than zero |
| MarkPlacement.LateWithoutDelay | DMRTiming.cpp:110-148 | Otherwise one block, one pass and one more block already mark late |
| MarkPlacement.OffsetSteps | Constants.h:29-31 | 720 samples of ten blocks advance by exactly one slot although 720 * 41667 is 240 more, and time never steps back between blocks |
| MarkPlacement.SimulatedTimes | Receiver.cpp:155-158 | On the simulated clock global sample g is judged at exactly g * 41667 less the delays |
| MarkPlacement.SimulatedLateness | DMRTiming.cpp:110-123 | There a slot is marked under one sample late, or at most 240 ns later than the slot before |
| MarkPlacement.SimulatedLatenessBound | DMRTiming.cpp:110-123 | Over a whole simulated run the n-th slot is at most 41666 + 240 * n ns late |
| MarkPlacement.SimulatedDrift | DMRTiming.cpp:110-123 | Slots 0 to n back to back on the simulated clock, each asked for in time: slot n is marked exactly 240 * n ns later after its time than slot 0 |
| PacingLimits.SimulatedQueueGrows | DMRTiming.cpp:110-153 | For every bound there is a paced run on the simulated clock, one slot a packet, that ends with more slots than that in the queue and the next one overdue by more than that |
| Lockstep.BalancedLockstep | Transmitter.cpp:156-196 | Channels asked for equally many slots in each pass agree in clock, slot times, queues, counters and mark positions after any interleaving |
| ThreadSchedule.PacketsLockstep | Transmitter.cpp:83-196 | If no message read carries more than one marked control byte, every two channels agree so after any schedule of the threads |
| Lockstep.LockstepIff | Transmitter.cpp:156-196 | One pass keeps two channels in lockstep exactly when it asks both for equally many slots |
| TransmitTime.OnTimeIff | Transmitter.cpp:163-211 | Timestamps nondecreasing and the channels in lockstep so far: a mark leaves at the slot time allocated for it exactly when it is the first of its packet and sits where channel 0's first mark sits; otherwise it is off by a slot for every mark before it, less the samples it sits behind channel 0's |
| TransmitTime.MisalignedMark | Transmitter.cpp:163-211 | With nothing received for channel 0 and a mark at the start of channel 1's packet, the first pass of a run sends that mark 29.58 ms early |
| ThreadSchedule.NextPassOnTimeIff | Transmitter.cpp:83-211 | With at most one mark a message, the same of the next pass of any schedule: on time exactly when its position is channel 0's |
| Pacing.SleepIsWholeIff | Thread.cpp:117-125 | sleepNano sleeps the whole correction exactly when that is under a second |
| Pacing.SleptWraps | Thread.cpp:117-125 | From a second up nothing is slept, until the 32-bit argument wraps around and starts over |
| Pacing.PacedLead | Transmitter.cpp:144-187 | Timestamps nondecreasing, sleeps kept up to a slack, and so few marks a packet that their slots and the slack stay under a second: at the start of every pass channel 0 is at most a slot and the slack ahead of the receiver's clock, and a pass of n marks asks for at most n slots and the slack of sleep |
| PacingLimits.PacingIff | Transmitter.cpp:144-147 | With sleeps kept to the nanosecond, every run with at most so many marks a packet starts every pass at most a slot ahead exactly when that many slots are under a second |
| PacingLimits.OverlongPackets | Transmitter.cpp:171-186 | Two packets of 34 marks: the first is slept off whole, the second asks for 1.02 s, sleeps nothing and may be 35 slots ahead at the next pass |
| Pacing.BoundedQueue | DMRTiming.cpp:110-153 | On a hardware clock, paced, one mark a packet: (n - 1) slots of any channel's queue of length n fit strictly into three slots, the slack and the delays |
| TransmitPlan.MarksInSound | Transmitter.cpp:171-186 | The scan allocates only for marked control bytes, in increasing position, with the number of the mark |
| TransmitPlan.MarksInComplete | Transmitter.cpp:171-186 | The scan misses no marked control byte |
| TransmitPlan.PlanSize | Transmitter.cpp:157-196 | A pass makes max(1, marks) allocations for a channel |
| SlotNumbering.AlternationIff | Transmitter.cpp:75-81 | For every sequence of packets, the slot numbers sent alternate throughout exactly when no unmarked packet follows a marked one, the marks received alternate within and between packets, and the first mark continues the count of the unmarked packets before it |
| SlotNumbering.RepeatedNumber | Transmitter.cpp:171-195 | A packet with one mark and then one without send the same number twice |
| ThreadSchedule.SlotsAlternateIff | Transmitter.cpp:75-195 | The same of what a channel's scheduler is asked for in any schedule of the threads |
| TransmitPlan.PassAdvances | DMRTiming.cpp:133-146 | Within a pass every allocation after the first adds exactly one slot time |
| TransmitPlan.CorrectionCoversLead | DMRTiming.cpp:135-139 | A pass leaves the channel ahead of the clock by at most the correction plus a slot, by exactly that if it asks to wait, and, if it started at most a slot ahead, asks for at most a slot per allocation |
| TransmitTime.TimestampIsFirstSlot | Transmitter.cpp:111-209 | Behind the gate and with nondecreasing timestamps every time computed in a pass is positive, so zero is a sound sentinel and the timestamp is channel 0's first slot less the samples before its mark |
| TransmitTime.TimestampsApart | Transmitter.cpp:156-211 | With nondecreasing timestamps, those of two passes are apart by a slot per slot asked for, less how much later in its packet the next mark sits |
| DmrTiming.DMRTiming.constructor | DMRTiming.cpp:32-53 | A new scheduler is the empty run on every channel, with the delays in nanoseconds |
| DmrTiming.DMRTiming.GetTimeDelta | DMRTiming.cpp:75-80 | Returns the elapsed time of the channel's run |
| DmrTiming.DMRTiming.GetInit | DMRTiming.cpp:93-98 | Returns the timing latch of the channel's run |
| DmrTiming.DMRTiming.SetTimer | DMRTiming.cpp:82-91 | The object is afterwards that of the run with one more setTimer call on this channel, all others as before |
| DmrTiming.DMRTiming.CheckTime | DMRTiming.cpp:100-127 | Returns the run's answer and leaves the object of the run with one more sample on this channel, slot objects updated in place; that sample is judged at time base plus counted samples less 6000048 ns of filters and the sample delay |
| DmrTiming.DMRTiming.AllocateSlot | DMRTiming.cpp:129-153 | Returns the slot time, leaves the object of the run with one more allocation, and writes the correction on channel 0 only |
| TransmitterThread.Transmitter.NextSlot | Transmitter.cpp:75-81 | Swaps the channel's slot number and no other |
| TransmitterThread.Transmitter.ReadNetwork | Transmitter.cpp:83-109 | Empty buffers end, byte for byte, with the control bytes 4 to 723 and the scaled 16-bit samples behind them of each message that has 2164 bytes and counts 720, and empty after any other |
| TransmitterThread.MessageIsBuffered | Transmitter.cpp:86-106 | The functions the buffers are specified by are that layout, for every message |
| TransmitterThread.PacketIsBuffered | Receiver.cpp:164-170 | Every packet the receiver can send, its RSSI word dropped, is buffered as its own control bytes and its samples times deviation over 32767 |
| TransmitterThread.MarksFromBytes | Transmitter.cpp:171-186 | Of an accepted message exactly the control bytes 0x08 and 0x04 become marks, of slot 1 and slot 2, at their place |
| TransmitterThread.Transmitter.CheckGate | Transmitter.cpp:116-135 | The gate opens exactly once some block was stamped after four slots, with the device set to not transmitting |
| TransmitterThread.Transmitter.Prepare | Transmitter.cpp:113-147 | Empty between passes: an open gate leaves whole packets or nothing in the buffers and hands the owed correction to the sleep, a closed one changes nothing |
| TransmitterThread.Transmitter.ScanMarks | Transmitter.cpp:171-187 | The loop over control bytes makes exactly the allocations of the packet's marks, keeping first nonzero time, correction and slot number |
| TransmitterThread.Transmitter.AllocateChannel | Transmitter.cpp:157-195 | Idle, unmarked and marked channels each make exactly their planned allocations, and an idle one is filled with a silent unmarked slot |
| TransmitterThread.Transmitter.LockedPass | Transmitter.cpp:156-198 | The stretch under the lock is one command of the step machine, with that command's timestamp and correction |
| TransmitterThread.Transmitter.SetTx | Transmitter.cpp:263-284 | Carrier and device are on exactly while some channel is not idle |
| TransmitterThread.Transmitter.TakeSlots | Transmitter.cpp:228-245 | Every channel gives up its 720 samples and control bytes and is empty |
| TransmitterThread.Transmitter.Transmit | Transmitter.cpp:149-203 | From full buffers to empty ones: the pass the packets ask for, the carrier set, and each channel's slot handed on: what it had buffered, or 720 zeros |
| PfbBins.BinsAreInjective | Transmitter.cpp:250-258 | Bins are in range, distinct, and each knows its channel, for every configuration that starts |
| PfbBins.BinMap | Transmitter.cpp:250-258 | Channels 0 to 3 below the last bin of the real side sit in the bin of their number, the others run down from the top bin in order without a gap |
| PfbBins.ColumnElsewhere | Transmitter.cpp:246-258 | A bin of no channel holds zero |
| PfbBins.ScaleShares | Transmitter.cpp:251-255 | A channel's share times the number of active channels is its sample times the DAC scaling |
| PfbBins.UsedBins | Transmitter.cpp:250-258 | A bin that carries a channel is that channel's bin, and no other bin carries any |
| PfbBins.MiddleBinIff | Receiver.cpp:114-125 | The middle bin is used exactly when only one bin is left over |
| PfbBins.MiddleBinFree | Transmitter.cpp:54-56 | From ten bins up the middle bin is never used |
| PfbBins.CollectUndoesSpread | Receiver.cpp:117-125 | Collecting a spread column gives back every channel's own scaled sample |
| PfbBins.SpreadSlot | Transmitter.cpp:248-258 | Through one array of bins that is never cleared, every column has each channel in its bin and zero elsewhere; the index m never goes below zero |
| PfbBins.Rearrange | Receiver.cpp:102-125 | Transpose and rearrangement put channel p's bin of every column into row p |
| Resampling.Streaming | Resampler.cpp:56-60 | Cutting a stream at a block boundary gives the output and filter state of one call |
| Resampling.BlocksAreFiltered | Resampler.cpp:56-60 | There are filter states from the first to the last such that block i takes the kernel from one to the next and comes out as the i-th output block |
| Resampling.SlotSizes | Resampler.cpp:46-85 | 720 inputs give exactly 750 outputs and 75 give exactly 72 |
| Resampling.Resampler.Upsample | Resampler.cpp:46-64 | The loop writes the fold of the kernel over whole blocks, leaves the rest of the output and the other channels' filters alone |
| Resampling.Resampler.Downsample | Resampler.cpp:66-85 | The same with interpolation and decimation exchanged |
| TransmitPath.TransmitPath.ProcessSamples | Transmitter.cpp:222-258 | Each column carries every channel's upsampled stream in its bin: the upsampling of a live channel's modulated slot, of 720 zeros for an idle one, while every modulator steps over its slot |
| Packets.LayoutRoundTrip | Receiver.cpp:164-170 | For all control bytes, samples and RSSI, the message without its RSSI word is read back as the same packet |
| Packets.LayoutBytes | Receiver.cpp:164-170 | Byte by byte: D0 02 00 00, the RSSI, 720 control bytes, 720 two's complement samples, little end first, 2168 bytes in all |
| Packets.AcceptedIff | Transmitter.cpp:89-96 | A message is accepted exactly when it has 2164 bytes and its first four count 720 |
| Packets.AcceptedBytes | Transmitter.cpp:97-106 | Control byte i is then byte 4 + i, and sample i the two bytes from 724 + 2 i |
| Packets.ParseIsInjective | Transmitter.cpp:86-106 | Exactly one message carries each packet that is accepted |
| Packetiser.PacketsAreTens | Receiver.cpp:160-179 | What was sent is exactly the tens of blocks that ended with the latch closed, each with its least RSSI, and the buffers hold exactly the blocks since, 72 * (blocks mod 10) samples |
| Packetiser.DiscardsAreAPrefix | Receiver.cpp:163-171 | Only a prefix of the packets is ever discarded |
| Packetiser.PacketIsSlice | Receiver.cpp:160-179 | Packet k carries entries 720k to 720k + 719 of the whole stream of samples and control bytes |
| Packetiser.LeastRssiIsLeast | Receiver.cpp:203-204 | A datagram's RSSI is at most 1024 and every block's reading, and is one of these |
| Packetiser.DatagramBytes | Receiver.cpp:160-179 | Byte by byte: datagram k carries the count, that RSSI, and the control bytes and samples of blocks 10 k to 10 k + 9 in order |
| ReceiverThread.SimulatedStepIsExact | Receiver.cpp:155-158 | For every number of bins both divisions of the simulated clock are exact: a block is 72 sample times |
| ReceiverThread.MarkByteRoundTrip | Receiver.cpp:135-141 | The transmitter's scan reads back the slot number the receiver wrote |
| ReceiverThread.MarkByteValues | Constants.h:23-26 | 0x08 stands for slot 1, 0x04 for slot 2, on both sides, and no other byte for a mark |
| ReceiverThread.QuantiseTruncates | Receiver.cpp:143 | Within the range less than a unit is dropped, towards zero |
| ReceiverThread.QuantiseClamps | Receiver.cpp:144-145 | The result is 32767 exactly for samples at or above the deviation and -32767 exactly for those at or below its negative |
| ReceiverThread.QuantiseIsMonotone | Receiver.cpp:143-147 | A larger sample is never quantised to a smaller value |
| ReceiverThread.OneMarkPerDatagram | Receiver.cpp:134-170 | Every 720-sample datagram carries at most one mark |
| ReceiverThread.Receiver.constructor | Receiver.cpp:25-57 | A new receiver's streams are those of no blocks |
| ReceiverThread.Receiver.ReceiveSample | Receiver.cpp:134-150 | One sample asks the scheduler once and pushes the control byte of its answer and the clamped sample |
| ReceiverThread.Receiver.ReceiveChannel | Receiver.cpp:128-151 | A channel's share of a block is one setTimer and 72 checkTime calls, 72 control bytes and samples, and the stronger RSSI |
| ReceiverThread.Receiver.FlushChannel | Receiver.cpp:160-178 | A full buffer is sent or discarded by the latch, erased, and its RSSI reset; a partial one stays |
| ReceiverThread.Receiver.ReceiveBlock | Receiver.cpp:77-179 | A short read changes nothing; a full block is one command of the step machine with the right stamp, moves the simulated clock exactly when it was used, and adds to every channel's stream the samples and power it was handed |
| Modem.SampleRoundTrip | Receiver.cpp:143-147 | Over the reals, quantising undoes the transmitter's scaling for every 16-bit sample but -32768 |
| ThreadSchedule.ScheduleIsSane | Transmitter.cpp:113-198 | After any schedule the commands given to the scheduler are a legal interleaving, whose passes are those the packets ask for; packets are a slot or nothing; without device timestamps the stamps are the simulated clock's |
| ThreadSchedule.StampsAreDevices | Receiver.cpp:77-94 | With a clock in the device the scheduler's stamps are those of the full blocks read |
| ThreadSchedule.EveryPacketOnce | Transmitter.cpp:83-147 | Every second transmitter turn behind the gate reads the network, and what those turns read is, in order and each once, the packets of the passes made and of the one being slept before |
| ThreadSchedule.PacketsBecomeSlots | Transmitter.cpp:156-196 | On every channel the slots asked for over a run are, in order, those its packets are sent under: a slot for every mark, one for a packet without |
| ThreadSchedule.PacketsToMarks | Transmitter.cpp:156-196 | So those slots are the marks checkTime has given followed by the slots still unmarked in the queue, after any schedule |
| ThreadSchedule.SchedulePaces | Transmitter.cpp:144-147 | If no message carries more marks than fit a second and the sleeps the program asked for were kept, the schedule is a run the pacing theorems cover |
| Modem.Interleave | MMDVM-Multi.cpp:270-283 | Any schedule of the two threads' steps leaves the objects, the scheduler they share, slot numbers and buffers where the schedule leads, and has asked to sleep the correction each pass owed; on a hardware clock with positive delays every slot of every channel is marked exactly |
| Modem.LivePackets | MMDVM-Multi.cpp:270-283 | Of the live objects: the slots of the packets put into passes are the marks given and the slots queued |
| Modem.LiveLockstep | MMDVM-Multi.cpp:270-283 | Of the live objects: with at most one mark a message all channels are in lockstep |
| Modem.LiveLead | MMDVM-Multi.cpp:270-283 | Of the live objects: about to make a pass, its sleeps kept, channel 0 is at most a slot and the slack ahead |
| Modem.LiveQueue | MMDVM-Multi.cpp:270-283 | Of the live objects: on a hardware clock, sleeps kept and one mark a message, (n - 1) slots of a queue of n objects fit strictly into three slots, the slack and the delays |

## Left out

- Modem.Interleave: does not model real time; it returns the sleeps asked for, and how far the receiver's clock moves during one is the assumption `SleepsKept` of the pacing theorems.
- Modem.SampleRoundTrip: is over the reals. The code multiplies and divides floats and truncates, so for other samples one rounding can lose a unit; and no path joins the two conversions without FM modulation between them.
- TransmitTime.OnTimeIff: is about the sample within the buffer; the delay of the transmit filters is not part of it.
- Pacing.SleepIsWholeIff: models the `nanosleep` version of `sleepNano`, not the `select` version of Thread.cpp:56-68.
- MarkPlacement.ExactMarking: says nothing of runs with dropped blocks, of stamps that are not 3 ms apart, or of a switch between hardware and simulated stamps.
- ReceiverThread.Receiver.ReceiveBlock: takes the demodulated samples and power readings as inputs; derotation, channelising, downsampling and demodulation are not composed with it.
- TransmitterThread.Transmitter.Transmit: hands the slots on; the synthesiser, the rotator and the device write, with its time flag, are outside.
- DmrTiming.DMRTiming.CheckTime: does not model freeing an erased slot object.
- Overflow of 64-bit nanosecond clocks: times are mathematical integers.
- Float rounding: samples are reals, and a conversion of a float beyond the 32-bit range is not modelled.
- The mutex itself and the stop flags: each locked stretch is one atomic step.
- SoapySDR device setup and streams, gains and antennas (Device.cpp).
- liquid-dsp kernels (filter bank, resampler taps, oscillator, FM modem).
- Sockets, MQTT, logging, configuration parsing, signals and daemonising: input and output plumbing.

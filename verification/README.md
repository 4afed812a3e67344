# A model of libsidplayfp's timing core

libsidplayfp plays Commodore 64 music by emulating the machine cycle by cycle. Much of its code is
a shortcut for something simpler: a timer that sleeps until just before it underflows, a video chip that jumps
over the cycles of a line in which nothing happens, a hash computed piecemeal, a relocator that rewrites the
table it is walking. This project models those parts and proves that the shortcut and the simple form agree, or
says exactly when they do.

| component | files | simple form it is compared with |
|---|---|---|
| event scheduler | EventQueue, EventScheduler | a stable priority queue |
| CIA timers | Timer, TimerChip, TimerPeriods | a timer clocked once per cycle |
| VIC-II raster, sprites and BA | Sprites, SpriteLines, Vic, VicBus, VicRaster, VicChip | a chip stepped once per cycle; a table of who needs the bus when |
| 6510, its instructions | CpuTable, Cpu, CpuDecode, CpuAddressing, CpuInstructions, CpuLaws, CpuDecimal | the bit fields of the opcode; one instruction at a time; numbers of any length |
| 6510, cycles and interrupts | CpuSequencer, CpuRuns, CpuInterrupts, CpuIrq, CpuStack, CpuChip | bounds over whole runs |
| IRQ line and BA line | IrqLine, IrqRelease | a wired OR |
| CIA interrupt register (8521) | CiaInterrupt | a register emptied by a read |
| time-of-day clock | Tod, TodAlarm | tenths of a second since midnight |
| MD5 | Rfc1321, Md5, Md5Vectors | RFC 1321, section 3, and a digest from its test suite |
| o65 relocator | Reloc, RelocLayout, RelocEntries, RelocTheorems, Reloc65 | a list of disjoint fields, shifted at once |
| SIDLite sample clock | SampleClock | one division |

Objects that the source updates in place are classes here: the scheduler is a linked list on the heap, and the
timer, the VIC, the 6510, the CIA interrupt source and the time-of-day clock run on it with their own events. The
scheduler relies on its callers not to queue an event twice. For one event nothing sees to that: the one that tells
the 6510 of a released IRQ line (`CleanIffSpaced`, below). The methods of the objects are specified by functions on
values, and the theorems are about those functions.

Where the code does not do what one would expect of it, the model follows the code and a lemma says where it
parts: `UndefListIsMeasured` (the relocator's list of undefined references, whose comment promises its size),
`SplittingIsInvisibleIff` (sample counts at small clock ratios), `SpacingIsExact` (reads of the interrupt register
in consecutive cycles), `CleanIffSpaced` with `ReleasedTooEarly` (a second release of the IRQ line within three cycles,
which damages the list of events), `LateRemovalForgets` with `ForgottenIrqIsIgnored` (a held IRQ that is forgotten),
`ResetSwallowsNmi`, `SixthState`.

Memory is an arbitrary array of 64K; what other chips, the wave generators and the filter do enters as parameters.
Widths are explicit: 16-bit counters, 8-bit registers and 32-bit words wrap where the source wraps, and the 16-bit
sample counter, the 64-bit length of a message and the unsigned borrows of SBC are modelled as such.

## Model

| member | source | states |
|---|---|---|
| `EventQueue.PhasedTimeIsEarliest` | src/EventScheduler.h:102-107 | a phased request fires in the earliest slot of its phase, the one getTime names, plus whole cycles |
| `EventQueue.PlainTimeIsWholeCycles` | src/EventScheduler.h:115-119 | a plain request moves the time of either phase by exactly that many cycles and fires in the phase it was made in |
| `EventQueue.InsertAt` | src/EventScheduler.h:76-90 | the insertion walk links the new event in behind every event due no later |
| `EventQueue.RemoveAt` | src/EventScheduler.cpp:35-48 | cancel cuts out exactly the first node of the event and keeps the order of the others |
| `EventQueue.RemoveMissing` | src/EventScheduler.cpp:35-48 | cancelling an event that is not pending changes nothing |
| `EventQueue.StepAdd` | src/EventScheduler.h:76-119 | inserting keeps the queue sorted, first in first out among equal times and free of duplicates |
| `EventQueue.StepCancel` | src/EventScheduler.cpp:35-48 | cancelling strikes that event and no other from the set of pending events |
| `EventQueue.StepRefines` | src/EventScheduler.h:76-142 | every operation does to the list what the stable priority queue does to its set; time never goes back |
| `EventQueue.RunRefinesPriorityQueue` | src/EventScheduler.h:76-142 | under any mix of schedule, cancel and clock the list fires the events of the stable priority queue, in its order |
| `EventQueue.FirstIsUnique` | src/EventScheduler.h:136-142 | the event the priority queue fires next is unique, so the order of firing is determined |
| `Scheduling.EventScheduler.FindSlot` | src/EventScheduler.h:79-89 | the walk over the linked nodes stops at the first one due later |
| `Scheduling.EventScheduler.Link` | src/EventScheduler.h:76-90 | splicing a node in is insertion into the queue the chain stands for; the chain stays acyclic and gains exactly that node |
| `Scheduling.EventScheduler.Unlink` | src/EventScheduler.cpp:35-48 | unlinking through the predecessor is removal from the queue the chain stands for |
| `Scheduling.EventScheduler.SchedulePhased` | src/EventScheduler.h:102-107 | the new queue is the old one with the event at its phased time |
| `Scheduling.EventScheduler.Schedule` | src/EventScheduler.h:115-119 | the new queue is the old one with the event that many cycles later in the same phase |
| `Scheduling.EventScheduler.Cancel` | src/EventScheduler.cpp:35-48 | the new queue is the old one without the event |
| `Scheduling.EventScheduler.Clock` | src/EventScheduler.h:136-142 | takes the first event and moves time to it |
| `Scheduling.EventScheduler.IsPending` | src/EventScheduler.cpp:50-62 | answers whether the event is on the chain |
| `Scheduling.EventScheduler.Reset` | src/EventScheduler.cpp:29-33 | empties the queue and restarts time |
| `TimerCore.ClockKeepsSound` | src/c64/CIA/timer.cpp:80-129 | after every clock COUNT3 implies a nonzero counter, LOAD excludes COUNT3, ONESHOT0 equals CR_ONESHOT, and COUNT2 implies START and PHI2IN |
| `TimerCore.ApplyKeepsSound` | src/c64/CIA/timer.cpp:142-157 | register accesses and cascade ticks keep COUNT3 implying a nonzero counter |
| `TimerCore.CountNeverWraps` | src/c64/CIA/timer.cpp:82-85 | in a sound state the 16-bit decrement never wraps |
| `TimerCore.ClockForgets` | src/c64/CIA/timer.cpp:87-121 | two timers that differ only in the last one-shot stage are equal after a clock and underflow together |
| `TimerCore.ApplySame` | src/c64/CIA/timer.cpp:142-157 | no access makes that stage matter |
| `TimerCore.LatchHalves` | src/c64/CIA/timer.cpp:142-157 | a write to one half of the latch sets that half and keeps the other |
| `TimerCore.LatchWritten` | src/c64/CIA/timer.cpp:142-157 | after both writes, in either order, the latch is lo + 256 * hi |
| `TimerSkipping.RescheduleAgrees` | src/c64/CIA/timer.h:218-271 | whichever event is queued next, the sleeping timer still stands for the clocked one |
| `TimerSkipping.Phi1Agrees` | src/c64/CIA/timer.cpp:66-78 | ticking, sleeping and the end of a sleep all agree with one clock of the timer clocked every cycle |
| `TimerSkipping.SyncAgrees` | src/c64/CIA/timer.cpp:37-58 | a catch-up reaches the state of the clocked timer and adds no underflow |
| `TimerSkipping.AccessAgrees` | src/c64/CIA/timer.cpp:37-64 | one bracketed access leaves both timers in agreement and shows the same counter, START bit and PB output |
| `TimerSkipping.SkippingIsInvisible` | src/c64/CIA/timer.h:218-271 | for every schedule of reads, writes and cascade ticks every access sees what the timer clocked every cycle shows, and the underflows fall in the same cycles |
| `TimerSkipping.SkippingFromReset` | src/c64/CIA/timer.cpp:131-140 | the same from reset on |
| `TimerBits.DecodeShift` | src/c64/CIA/timer.cpp:87-100 | the shifts and masks on the state word move the flags as the record does |
| `TimerBits.DecodeControl` | src/c64/CIA/timer.cpp:30-35 | the mask and exclusive-or of the control register set START, ONESHOT and FLOAD and PHI2IN inverted |
| `TimerBits.DecodeUnderflow` | src/c64/CIA/timer.cpp:103-106 | the two bits an underflow sets in the state word |
| `TimerBits.DecodeStop` | src/c64/CIA/timer.cpp:107-110 | a one-shot underflow clears START and the second count stage in the state word and nothing else |
| `TimerBits.DecodeLoaded` | src/c64/CIA/timer.cpp:124-128 | a load clears the third count stage in the state word and nothing else |
| `TimerBits.DecodeReload` | src/c64/CIA/timer.cpp:149-156 | writing the high latch byte of a stopped timer sets the first load stage in the state word and nothing else |
| `TimerBits.DecodeStep` | src/c64/CIA/mos652x.h:91-97 | a cascade tick sets STEP in the state word and nothing else |
| `TimerChip.Timer.Adjusted` | src/c64/CIA/timer.cpp:87-100 | the shifted state word, built bit by bit |
| `TimerChip.Timer.Clock` | src/c64/CIA/timer.cpp:80-129 | the shifts and masks on the state word, one after the other, decode to one clock of the model; it reports an underflow exactly when there is one |
| `TimerChip.Timer.Reschedule` | src/c64/CIA/timer.h:218-271 | queues the tick event, the skip event or neither, and leaves ciaEventPauseTime 0, positive or -1 accordingly |
| `TimerChip.Timer.TickEvent` | src/c64/CIA/timer.cpp:66-70 | the tick handler; afterwards the tri-state again says which event is queued |
| `TimerChip.Timer.CycleSkippingEvent` | src/c64/CIA/timer.cpp:72-78 | the skip handler subtracts the skipped cycles and ticks |
| `TimerChip.Timer.SyncWithCpu` | src/c64/CIA/timer.cpp:37-58 | cancels what is queued and catches up; neither event is queued afterwards |
| `TimerChip.Timer.WakeUpAfterSyncWithCpu` | src/c64/CIA/timer.cpp:60-64 | queues the tick event for the next PHI1, never a second time |
| `TimerChip.Timer.Reset` | src/c64/CIA/timer.cpp:131-140 | the state after reset, with only the tick event queued |
| `TimerChip.Timer.SetControlRegister` | src/c64/CIA/timer.cpp:30-35 | the flags the control register holds |
| `TimerChip.Timer.SetLatchLo` | src/c64/CIA/timer.cpp:142-147 | the low half of the latch is the byte written and the high half stays; a load in progress takes it into the counter |
| `TimerChip.Timer.SetLatchHi` | src/c64/CIA/timer.cpp:149-157 | the high half of the latch is the byte written and the low half stays; a stopped timer reloads |
| `TimerChip.Timer.Access` | src/c64/CIA/mos652x.cpp:183-288 | catch up, act and resume is one access of the skipping timer, and keeps the tri-state |
| `TimerPeriods.ContinuousPeriod` | src/c64/CIA/timer.cpp:80-129 | from one underflow to the next are exactly latch + 1 clocks, a latch of 0 included |
| `TimerPeriods.ContinuousUnderflows` | src/c64/CIA/timer.cpp:80-129 | the n-th clock underflows if and only if n is a multiple of latch + 1 |
| `TimerPeriods.ContinuousFromStart` | src/c64/CIA/timer.cpp:80-129 | from the control write that starts it, whatever counter and latch hold, a continuous timer underflows for the first time in the clock named and then in exactly every (latch + 1)-th |
| `TimerPeriods.WrittenPeriod` | src/c64/CIA/timer.cpp:80-157 | a stopped timer whose latch is written as lo and hi and that is then started underflows exactly every lo + 256 * hi + 1 clocks |
| `TimerPeriods.StoppedReloads` | src/c64/CIA/timer.cpp:149-156 | writing the high half of the latch of a stopped timer loads the counter within three clocks |
| `TimerPeriods.OutputShowsUnderflow` | src/c64/CIA/timer.cpp:102-121 | the pulse output is up in exactly the clocks that underflow, and the toggle output changes there alone |
| `TimerPeriods.ToggleCountsUnderflows` | src/c64/CIA/timer.cpp:102-121 | over any run the toggle output has changed sides as often as the timer has underflowed |
| `TimerPeriods.OneShotRests` | src/c64/CIA/timer.cpp:107-110 | an underflow with the one-shot bit set is the last one |
| `TimerPeriods.OneShotUnderflowsOnce` | src/c64/CIA/timer.cpp:80-129 | a stopped timer that a control write starts in one-shot mode, with or without force load and whatever counter and latch hold, underflows in exactly one clock, which is named, and is then stopped and at its latch for good |
| `TimerPeriods.OneShotAtMostOnce` | src/c64/CIA/timer.cpp:102-110 | from any state, whatever is in flight, an untouched timer with the one-shot bit set underflows at most once |
| `TimerPeriods.OnePeriodOfA` | src/c64/CIA/mos652x.cpp:290-306 | in one period of timer A a cascaded timer B is stepped once, and underflows only if it had nothing left |
| `TimerPeriods.CascadePeriod` | src/c64/CIA/mos652x.cpp:290-306 | in one period of (latchA + 1) * (latchB + 1) cycles timer B counting underflows of A underflows in the first cycle only |
| `TimerPeriods.CascadeUnderflows` | src/c64/CIA/mos652x.cpp:290-306 | over a whole run timer B underflows exactly in the cycles whose number is a multiple of (latchA + 1) * (latchB + 1) |
| `SpriteLogic.UpdatesLeftStep` | src/c64/VIC_II/sprites.h:68-93 | (63 - mc_base) * 43 mod 64, with 0 counting as 64, is the number of line updates until the counter reaches 63 |
| `SpriteLogic.DmaEndsOnTime` | src/c64/VIC_II/sprites.h:68-101 | from any mc_base a crunch may leave, DMA ends after exactly that many line updates, twice as many lines when expanded |
| `SpriteLogic.FullDma` | src/c64/VIC_II/sprites.h:120-133 | told by the updates of a line, a DMA started by a Y match lasts exactly 21 lines, or 42 when Y-expanded |
| `SpriteLines.LineOfChip` | src/c64/VIC_II/mos656x.cpp:295-698 | one line of the PAL, NTSC or old NTSC clock does to a sprite the updates of a line, in this order, and moves the raster on by one line |
| `SpriteLines.LineOnChip` | src/c64/VIC_II/mos656x.cpp:295-698 | so it does on the chip with any accesses in every cycle that spare the registers of the sprite |
| `SpriteLines.DmaEndsOnChip` | src/c64/VIC_II/sprites.h:68-133 | on the chip a DMA ends after exactly the lines left, from any counters a crunch may leave |
| `SpriteLines.DmaOnChip` | src/c64/VIC_II/sprites.h:68-133 | on each of the five chips a DMA lasts exactly 21 lines, or 42 when Y-expanded, from the line of the Y match on |
| `SpriteLogic.CrunchInRange` | src/c64/VIC_II/sprites.h:149-157 | a crunched counter stays below 64 |
| `SpriteLogic.CrunchBits` | src/c64/VIC_II/sprites.h:149-157 | a crunch keeps in the odd bits what counter and base share and gathers in the even bits what either has |
| `SpriteLogic.LineCrunchKeepsDma` | src/c64/VIC_II/sprites.h:141-162 | a crunch changes no DMA bit |
| `SpriteUnit.DmaMaskOf` | src/c64/VIC_II/sprites.h:164-172 | the mask byte holds the DMA bit of every sprite |
| `SpriteUnit.Sprites.UpdateMc` | src/c64/VIC_II/sprites.h:68-76 | all counters of sprites in DMA advance by 3 modulo 64, the others stay |
| `SpriteUnit.Sprites.UpdateMcBase` | src/c64/VIC_II/sprites.h:81-93 | bases follow the counters where the flip-flop is set, and a base of 63 ends that DMA |
| `SpriteUnit.Sprites.CheckExp` | src/c64/VIC_II/sprites.h:98-101 | the flip-flops of expanded sprites in DMA toggle |
| `SpriteUnit.Sprites.CheckDisplay` | src/c64/VIC_II/sprites.h:106-112 | every counter is reloaded from its base |
| `SpriteUnit.Sprites.CheckDma` | src/c64/VIC_II/sprites.h:120-133 | DMA starts for exactly the enabled sprites whose Y matches and that are not in DMA |
| `SpriteUnit.Sprites.LineCrunch` | src/c64/VIC_II/sprites.h:141-162 | the expansion write, with the crunch in cycle 14 only |
| `VicSkipping.TickKeepsBusInv` | src/c64/VIC_II/mos656x.cpp:295-698 | in every cycle of every line clock BA is high unless a sprite that may hold it is in DMA or a bad line holds it |
| `VicSkipping.DelayIsPositive` | src/c64/VIC_II/mos656x.cpp:295-698 | every delay a line clock returns is at least 1 |
| `VicSkipping.JumpPal` | src/c64/VIC_II/mos656x.cpp:295-424 | no cycle the PAL clock announces as uneventful holds work, given BA and the DMA mask |
| `VicSkipping.JumpNtsc` | src/c64/VIC_II/mos656x.cpp:426-564 | the same for the NTSC clock |
| `VicSkipping.JumpOldNtsc` | src/c64/VIC_II/mos656x.cpp:566-698 | the same for the old NTSC clock |
| `VicSkipping.NothingSkipped` | src/c64/VIC_II/mos656x.cpp:274-293 | in a skipped cycle the line clock would change nothing, endDma calls included |
| `VicSkipping.Phi1Agrees` | src/c64/VIC_II/mos656x.cpp:274-293 | the VIC that jumps and the one stepped every cycle agree after every PHI1 |
| `VicSkipping.SyncCatchesUp` | src/c64/VIC_II/mos656x.h:222-226 | a sync in PHI2 brings the jumping VIC to exactly the state of the stepped one |
| `VicSkipping.AccessAgrees` | src/c64/VIC_II/mos656x.cpp:126-251 | register reads and writes leave the two in agreement |
| `VicSkipping.JumpingIsInvisible` | src/c64/VIC_II/mos656x.cpp:274-698 | for every model and every sequence of accesses without a $D011 write both show the same BA level, raster line, bad-line flag, sprite state and read values in every cycle |
| `VicSkipping.ResetAgrees` | src/c64/VIC_II/mos656x.cpp:84-105 | the two agree after reset |
| `VicChip.Mos656x.HandleIrqState` | src/c64/VIC_II/mos656x.cpp:253-272 | flag bit 7 is set if and only if an enabled flag is pending, and the machine is told exactly when it changes |
| `VicChip.Mos656x.EdgeDetector` | src/c64/VIC_II/mos656x.h:160-166 | the raster interrupt is raised on the rising edge of the comparison only |
| `VicChip.Mos656x.CheckVblank` | src/c64/VIC_II/mos656x.h:231-265 | next line, bad-line window and bad-line condition |
| `VicChip.Mos656x.Vblank` | src/c64/VIC_II/mos656x.h:270-283 | line 0, with the light pen released or retriggered |
| `VicChip.Mos656x.StartDma` | src/c64/VIC_II/mos656x.h:288-293 | BA falls if the sprite is in DMA |
| `VicChip.Mos656x.EndDma` | src/c64/VIC_II/mos656x.h:298-303 | BA rises unless one of the next two sprites is in DMA |
| `VicChip.Mos656x.LineClock` | src/c64/VIC_II/mos656x.cpp:295-698 | one line clock does the work of its cycle and returns the announced delay; what that work amounts to is said by BusIsExact, RunKeepsBadLines and LineOfChip |
| `VicChip.Mos656x.RasterEvent` | src/c64/VIC_II/mos656x.cpp:274-293 | the handler does the cycles that have passed and queues itself after the delay |
| `VicChip.Mos656x.Sync` | src/c64/VIC_II/mos656x.h:222-226 | cancels and runs the handler |
| `VicChip.Mos656x.Read` | src/c64/VIC_II/mos656x.cpp:126-161 | what each register reads as after a sync |
| `VicChip.Mos656x.Write` | src/c64/VIC_II/mos656x.cpp:163-251 | the register is stored before the sync and takes effect after it; an edge comparison is asked for at most once |
| `VicBus.TickIsExact` | src/c64/VIC_II/mos656x.cpp:295-698 | every cycle of every line clock keeps BA low exactly where a sprite in DMA or a bad line needs the bus |
| `VicBus.AccessIsExact` | src/c64/VIC_II/mos656x.cpp:126-251 | register reads and writes keep it so |
| `VicBus.RunIsExact` | src/c64/VIC_II/mos656x.cpp:274-698 | so does every run |
| `VicBus.BusIsExact` | src/c64/VIC_II/mos656x.cpp:295-698 | from reset on, on every chip: BA is low if and only if the line cycle is one of the five of a sprite in DMA (sprite n from cycle 54 + 2n, or 55 + 2n on NTSC) or lies in 11 to 53 of a bad line |
| `VicRaster.CheckVblankBadLines` | src/c64/VIC_II/mos656x.h:231-265 | going to the next line keeps exactly the lines $30 to $F7 bad whose low three bits are the vertical scroll, with the display enabled |
| `VicRaster.BadLinesSettle` | src/c64/VIC_II/mos656x.h:231-265 | whatever $D011 has been through, this holds again behind line $F7 |
| `VicRaster.RunKeepsBadLines` | src/c64/VIC_II/mos656x.cpp:274-698 | over every run without $D011 writes exactly these lines are bad, on every chip |
| `VicRaster.RasterFlag` | src/c64/VIC_II/mos656x.h:160-197 | the comparison is with $D012 and bit 7 of $D011; its rising edge raises the raster flag and nothing else changes |
| `VicRaster.RasterReads` | src/c64/VIC_II/mos656x.cpp:126-161 | $D011 and $D012 together read as the raster line |
| `VicRaster.ComparisonReads` | src/c64/VIC_II/mos656x.cpp:126-161 | in the line of the comparison both read as they were set |
| `VicRaster.FlagsReadBack` | src/c64/VIC_II/mos656x.cpp:126-251 | writing back what $D019 reads as acknowledges every flag, and a write acknowledges no flag it does not name |
| `VicRaster.PenSteps` | src/c64/VIC_II/lightpen.h:59-73 | the light pen counts four a cycle from line cycle 13 on; a line of 65 cycles has one cycle that does not count |
| `CpuSequencer.RowShape` | src/c64/CPU/mos6510.cpp:1505-2150 | every opcode fills 1 to 8 slots ending in the look for the next opcode, never skips past that, marks exactly its writes, and keeps at most three cycles in a row; which instruction it is is said by Decoding |
| `CpuSequencer.BrkRow` | src/c64/CPU/mos6510.cpp:1778-1788 | the eight slots of BRK, which interrupts share |
| `CpuSequencer.CtlProgress` | src/c64/CPU/mos6510.cpp:64-81 | an ending micro-operation starts a row, any other moves on by one slot or skips one |
| `CpuSequencer.StaysInTable` | src/c64/CPU/mos6510.cpp:64-81 | the sub-cycle index names a filled slot after any micro-operation, whatever registers and memory hold |
| `CpuSequencer.KeptIffWrites` | src/c64/CPU/mos6510.cpp:74-81 | a cycle is marked nosteal exactly when its micro-operation writes the bus |
| `CpuRuns.RunStaysInTable` | src/c64/CPU/mos6510.cpp:64-115 | over every run, with stolen cycles, interrupt lines moving and memory changing, the index names a filled slot |
| `CpuRuns.InstructionEnds` | src/c64/CPU/mos6510.cpp:232-280 | from any slot the instruction reaches its end, or the CPU halts, within its eight slots |
| `CpuRuns.AtMostThreeAhead` | src/c64/CPU/mos6510.cpp:1505-2150 | at most three cycles in a row are kept from the VIC |
| `CpuRuns.RdyStopsTheCpu` | src/c64/CPU/mos6510.cpp:74-115 | with RDY low at most three more cycles execute, and after them neither memory nor any register but the I flag changes |
| `CpuInterrupts.BrkSlots` | src/c64/CPU/mos6510.cpp:1778-1788 | only the BRK row chooses a vector or fetches without looking at interrupts |
| `CpuInterrupts.DecisionKeepsNmi` | src/c64/CPU/mos6510.cpp:232-280 | at the end of an instruction a noted NMI is taken or remembered for the next end |
| `CpuInterrupts.MicroOpKeepsNmi` | src/c64/CPU/mos6510.cpp:64-81 | every micro-operation but the one that chooses the vector leaves a pending NMI pending and nearer |
| `CpuInterrupts.LinesKeepNmi` | src/c64/CPU/mos6510.cpp:117-121 | IRQ arrival and removal cannot make a pending NMI wait longer |
| `CpuInterrupts.StallKeepsNmi` | src/c64/CPU/mos6510.cpp:82-115 | neither can a stalled cycle, through CLI and SEI |
| `CpuInterrupts.ServingNmi` | src/c64/CPU/mos6510.cpp:633-656 | choosing the vector with an NMI pending goes through $FFFA and ends the request |
| `CpuInterrupts.NmiIsServedInTime` | src/c64/CPU/mos6510.cpp:194-296 | while an NMI waits fewer than 19 cycles execute and at most one more instruction begins |
| `CpuInterrupts.TriggeredNmiIsServed` | src/c64/CPU/mos6510.cpp:194-205 | after a trigger, any run of 19 executed cycles, or of two instruction starts, contains a vector choice at which the NMI is still pending, which takes $FFFA and ends the request, be it its own or that of a BRK in progress |
| `CpuInterrupts.RunKeepsNoted` | src/c64/CPU/mos6510.cpp:286-296 | in every run without a reset a pending NMI has its trigger cycle noted |
| `CpuInterrupts.ResetSwallowsNmi` | src/c64/CPU/mos6510.cpp:633-656 | the exception: with a reset pending its vector is taken and the NMI request is dropped |
| `CpuIrq.MaskedIrqIsIgnored` | src/c64/CPU/mos6510.cpp:232-296 | while I is set and no NMI comes, in every run of the IRQ line and of stolen cycles, every instruction is followed by the one at the PC: the row of BRK is entered only by fetching opcode 0 and never as an interrupt |
| `CpuIrq.TriggeredIrqIsServed` | src/c64/CPU/mos6510.cpp:210-296 | with I clear a held IRQ is served: any run of 19 executed cycles, or of two instruction starts, contains a vector choice with $FFFE |
| `CpuIrq.IrqIsServedInTime` | src/c64/CPU/mos6510.cpp:210-296 | until then fewer than 19 cycles execute and at most one more instruction begins |
| `CpuIrq.LateRemovalForgets` | src/c64/CPU/mos6510.cpp:117-121 | if the removal that a release has queued comes after the line was pulled again, the line is held but nothing is noted |
| `CpuIrq.ForgottenIrqIsIgnored` | src/c64/CPU/mos6510.cpp:232-296 | an IRQ that is not noted is not taken until the CPU looks at its lines again, held and unmasked or not |
| `CpuIrq.TwoCycleRule` | src/c64/CPU/mos6510.cpp:232-253 | an interrupt noted in some slot is let in by a slot that ends the instruction n steps later if and only if n is at least 2 |
| `CpuIrq.NotedWhereItComes` | src/c64/CPU/mos6510.cpp:194-224 | NMI, and an IRQ with I clear, are noted in the slot in which they come; a masked IRQ is not; a cycle stolen there counts as one of the two |
| `CpuIrq.CliRemembers` | src/c64/CPU/mos6510.cpp:671-676 | CLI with the line held lets one more instruction be fetched and remembers the interrupt for its end |
| `CpuIrq.RememberedIsLetIn` | src/c64/CPU/mos6510.cpp:232-280 | a remembered interrupt is let in by the next slot that can |
| `CpuIrq.SeiForgets` | src/c64/CPU/mos6510.cpp:719-725 | SEI lets in with I set what was due in its last cycle, and forgets any other IRQ |
| `CpuIrq.PullsEnd` | src/c64/CPU/mos6510.cpp:160-178 | flags pulled with I clear and the line held: PLP lets one more instruction run first, RTI does not |
| `CpuIrq.BranchPutsOff` | src/c64/CPU/mos6510.cpp:969-1008 | at the end of a branch taken within its page an interrupt is let in if and only if it was noted before the branch began |
| `CpuIrq.VectorIsLoaded` | src/c64/CPU/mos6510.cpp:298-308 | the PC is loaded from the vector, low byte first, and I is set |
| `CpuIrq.VectorOrder` | src/c64/CPU/mos6510.cpp:633-656 | reset chooses $FFFC, NMI $FFFA, IRQ and BRK $FFFE, in this order |
| `CpuDecode.Decoding` | src/c64/CPU/mos6510.cpp:1505-2150 | for all 256 opcodes instruction, addressing mode and the read of the operand follow from the three bit fields of the opcode; $89 and the other exceptions are named |
| `CpuDecode.BranchDecoding` | src/c64/CPU/mos6510.cpp:1010-1056 | a branch is taken if and only if the flag that bits 6 and 7 select (N, V, C, Z) equals bit 5 |
| `CpuDecode.OnlyBranches` | src/c64/CPU/mos6510.cpp:1505-2150 | the opcodes of row 4 in column 0 are branches, with their conditions, and no other opcode is |
| `CpuDecode.BranchRow` | src/c64/CPU/mos6510.cpp:1505-2150 | the four slots of a branch |
| `CpuDecode.HaltDecoding` | src/c64/CPU/mos6510.cpp:1505-2150 | the opcodes without an instruction are the twelve of column 2 that halt the processor |
| `CpuDecode.OnlyReadersSkip` | src/c64/CPU/mos6510.cpp:1505-2150 | among the indexed modes the short form is for instructions that only read, and for no others |
| `CpuAddressing.EveryModeFinds` | src/c64/CPU/mos6510.cpp:313-580 | running its cycles, every addressing mode finds the address of the 6502, wrapping in page zero and in memory, in the cycles it should take: one fewer in the short form unless the page is crossed |
| `CpuAddressing.IndexAdds` | src/c64/CPU/mos6510.cpp:322-334 | the high byte is corrected exactly when the sum leaves the page |
| `CpuInstructions.AluInstruction` | src/c64/CPU/mos6510.cpp:924-1480 | from opcode to opcode: the registers become what the instruction makes of the operand at the address of its mode; memory stays |
| `CpuInstructions.StoreInstruction` | src/c64/CPU/mos6510.cpp:727-745 | STA, STX, STY and SAX write the register, or A and X, to the address of the mode and change nothing else |
| `CpuInstructions.LeakingStore` | src/c64/CPU/mos6510.cpp:769-826 | the SH* stores write the value and-ed with the high byte of the unindexed address plus one; across a page that byte is also the high byte of the address; RDY in the cycle before spares the value |
| `CpuInstructions.StallSpoils` | src/c64/CPU/mos6510.cpp:82-115 | the stolen cycles that do so are exactly the address correction of these five opcodes |
| `CpuInstructions.RmwWritesBack` | src/c64/CPU/mos6510.cpp:574-580 | a read-modify-write instruction first writes the old operand back, in a cycle kept from the VIC |
| `CpuInstructions.RmwInstruction` | src/c64/CPU/mos6510.cpp:946-1224 | and then leaves the new operand at that address and the registers that go with it |
| `CpuInstructions.BranchInstruction` | src/c64/CPU/mos6510.cpp:960-1008 | a branch goes on behind itself or -128 to 127 bytes from there, in 2, 3 or, across a page, 4 cycles |
| `CpuInstructions.JmpInstruction` | src/c64/CPU/mos6510.cpp:678-683 | JMP goes on at its address in 3 cycles, or in 5 at the address a pointer that stays in its page holds |
| `CpuInstructions.NopInstruction` | src/c64/CPU/mos6510.cpp:1505-2150 | the NOPs, documented and not, change nothing but the PC |
| `CpuInstructions.PushInstruction` | src/c64/CPU/mos6510.cpp:685-693 | PHA and PHP leave A, or the status with B and bit 5 set, on top of the stack in 3 cycles |
| `CpuInstructions.PlaInstruction` | src/c64/CPU/mos6510.cpp:1173-1176 | PLA takes A from the top of the stack, with N and Z, in 4 cycles |
| `CpuInstructions.PlpInstruction` | src/c64/CPU/mos6510.cpp:160-178 | PLP takes all six flags from there |
| `CpuInstructions.BrkInstruction` | src/c64/CPU/mos6510.cpp:633-656 | BRK takes seven cycles, pushes the address two behind its opcode and the status with B set, sets I and goes on at the address at $FFFE |
| `CpuLaws.LogicBits` | src/c64/CPU/mos6510.cpp:930-945 | AND, OR and EOR work bit by bit |
| `CpuLaws.StatusBits` | src/c64/CPU/mos6510.cpp:149-158 | where each flag stands in the byte pushed; bit 5 is set, and B unless an interrupt pushes |
| `CpuLaws.BinaryAdc` | src/c64/CPU/mos6510.cpp:843-877 | a + operand + carry is the result plus 256 times the new carry; V is set if and only if the signed sum does not fit |
| `CpuLaws.BinarySbc` | src/c64/CPU/mos6510.cpp:879-922 | the same for the difference and the borrow |
| `CpuLaws.SbcAddsComplement` | src/c64/CPU/mos6510.cpp:879-922 | SBC is ADC of the complement |
| `CpuLaws.DecimalSbcFlags` | src/c64/CPU/mos6510.cpp:879-922 | in decimal mode the flags of SBC are those of the binary difference |
| `CpuLaws.DecimalAdcFlags` | src/c64/CPU/mos6510.cpp:843-877 | in decimal mode Z of ADC is that of the binary sum, N and V that of the sum before the high digit is adjusted |
| `CpuLaws.ComparisonSubtracts` | src/c64/CPU/mos6510.cpp:1070-1092 | a comparison leaves the flags of a subtraction without borrow, V and the register apart |
| `CpuLaws.BitTells` | src/c64/CPU/mos6510.cpp:1025-1031 | BIT: Z of the conjunction with A, N and V from bits 7 and 6 of the operand |
| `CpuLaws.ShiftsConserve` | src/c64/CPU/mos6510.cpp:946-1220 | a shift moves every bit by one place, the last one into the carry; nothing is lost |
| `CpuLaws.RotationsUndo` | src/c64/CPU/mos6510.cpp:1178-1220 | ROL and ROR undo each other in A and in the carry |
| `CpuLaws.MemoryShifts` | src/c64/CPU/mos6510.cpp:946-1220 | the shifts of memory do to the operand and the flags what those of A do to A |
| `CpuLaws.CountsUp` | src/c64/CPU/mos6510.cpp:1117-1133 | counting up adds one, from $FF to 0, and sets N and Z alone |
| `CpuLaws.CountingUndoes` | src/c64/CPU/mos6510.cpp:1093-1133 | counting down undoes it, in X, Y and memory |
| `CpuLaws.MovesOneByte` | src/c64/CPU/mos6510.cpp:1135-1283 | transfers and loads move one byte between the registers they name and set N and Z by it |
| `CpuLaws.StackPointerMoves` | src/c64/CPU/mos6510.cpp:1261-1277 | TXS and TSX undo each other; TXS sets no flags |
| `CpuLaws.FlagDecoding` | src/c64/CPU/mos6510.cpp:1058-1068 | a flag instruction gives the flag that bits 6 and 7 of its opcode select the value of bit 5; $B8 clears V |
| `CpuLaws.CombinedDoesBoth` | src/c64/CPU/mos6510.cpp:1365-1480 | an undocumented read-modify-write instruction does the one of its row in column 2 and then, with the result, the one in column 1 |
| `CpuLaws.LaxLoadsBoth` | src/c64/CPU/mos6510.cpp:1415-1419 | LAX loads A and X; SAX stores what they share |
| `CpuLaws.ImmediateAndFirst` | src/c64/CPU/mos6510.cpp:1308-1363 | ALR, ANC and ARR and the operand to A first and then shift right, copy N to C, or rotate with C and V from bits 6 and 5 |
| `CpuLaws.SharedBits` | src/c64/CPU/mos6510.cpp:1222-1408 | SBX compares what A and X share with the operand; LAS leaves what operand and S share in A, X and S |
| `CpuStack.FlagsRoundTrip` | src/c64/CPU/mos6510.cpp:149-164 | packing the six flags and unpacking them again is the identity, whatever B and bit 5 are |
| `CpuStack.ThreePushes` | src/c64/CPU/mos6510.cpp:582-597 | three pushes hit three cells that three pops find again, wherever S wraps |
| `CpuStack.EnterPushes` | src/c64/CPU/mos6510.cpp:1778-1788 | entering an interrupt leaves flags and return address on the stack |
| `CpuStack.LeavePops` | src/c64/CPU/mos6510.cpp:695-704 | RTI takes flags and address off again |
| `CpuStack.RunFold` | src/c64/CPU/mos6510.cpp:64-115 | cycles stolen and interrupt lines moving between the micro-operations of a row change nothing of what it pushes or pops |
| `CpuStack.RtiUndoesInterrupt` | src/c64/CPU/mos6510.cpp:582-656 | interrupt, any handler that leaves S and the three cells as it found them, and RTI, with cycles stolen and interrupt lines moving meanwhile, restore PC, all six flags and S, for every S |
| `CpuStack.RtiGoesOn` | src/c64/CPU/mos6510.cpp:695-704 | the last cycle of RTI goes on at the address it pulled |
| `CpuStack.JsrRtsWalk` | src/c64/CPU/mos6510.cpp:1888-1898 | the sequencer really walks the micro-operations of JSR and RTS |
| `CpuStack.JsrWrites` | src/c64/CPU/mos6510.cpp:1888-1898 | JSR pushes the address of its last byte |
| `CpuStack.RtsPops` | src/c64/CPU/mos6510.cpp:2009-2026 | RTS goes on one past the address it pulls |
| `CpuStack.CallsReturn` | src/c64/CPU/mos6510.cpp:582-629 | well-nested calls, up to 128 deep, all return behind their JSR with S restored and the stack above untouched |
| `CpuDecimal.AdcDecimal` | src/c64/CPU/mos6510.cpp:843-876 | on valid BCD, ADC in decimal mode adds two-digit numbers with carry in and out |
| `CpuDecimal.SbcDecimal` | src/c64/CPU/mos6510.cpp:881-907 | on valid BCD, SBC in decimal mode subtracts them with borrow in and out |
| `CpuDecimal.AddChainAdds` | src/c64/CPU/mos6510.cpp:843-876 | LDA, ADC, STA over byte strings of any length is multi-precision addition, binary or decimal |
| `CpuDecimal.SubChainSubtracts` | src/c64/CPU/mos6510.cpp:881-907 | the same with SBC is multi-precision subtraction |
| `CpuDecimal.SubChainUndoesAddChain` | src/c64/CPU/mos6510.cpp:843-907 | chained SBC with the matching borrow undoes chained ADC, bytes and carry |
| `CpuChip.MOS6510.CalculateInterruptTriggerCycle` | src/c64/CPU/mos6510.cpp:286-296 | notes the cycle of the first request |
| `CpuChip.MOS6510.FetchNextOpcode` | src/c64/CPU/mos6510.cpp:258-280 | opcode, PC and the interrupt bookkeeping of an instruction start |
| `CpuChip.MOS6510.InterruptsAndNextOpcode` | src/c64/CPU/mos6510.cpp:232-256 | enters an interrupt that is old enough, or fetches |
| `CpuChip.MOS6510.BrkPushLowPC` | src/c64/CPU/mos6510.cpp:633-656 | pushes, chooses the vector with reset before NMI before IRQ, and drops the requests |
| `CpuChip.MOS6510.PopSR` | src/c64/CPU/mos6510.cpp:160-164 | flags from the stack, and a second look at the interrupts |
| `CpuChip.MOS6510.BranchInstr` | src/c64/CPU/mos6510.cpp:969-1008 | taken, crossing and untaken branches, with the interrupt put off in the one case |
| `CpuChip.MOS6510.DoADC` | src/c64/CPU/mos6510.cpp:843-876 | the step-by-step sum is the specified one |
| `CpuChip.MOS6510.DoSBC` | src/c64/CPU/mos6510.cpp:881-907 | the step-by-step difference is the specified one |
| `CpuChip.MOS6510.Compute` | src/c64/CPU/mos6510.cpp:924-1441 | the arithmetic, logic, load, compare and flag instructions, step by step on the object, are the specified ones |
| `CpuChip.MOS6510.ArrInstr` | src/c64/CPU/mos6510.cpp:1333-1358 | ARR in binary and in decimal mode |
| `CpuChip.MOS6510.FetchLow` | src/c64/CPU/mos6510.cpp:361-505 | low address and pointer bytes, with the index added within the page |
| `CpuChip.MOS6510.FetchHigh` | src/c64/CPU/mos6510.cpp:403-458 | the index is added before the high byte is fetched; the carry says that the page is wrong |
| `CpuChip.MOS6510.FetchEffAddr` | src/c64/CPU/mos6510.cpp:528-556 | the second pointer byte wraps in its page; the index is added before |
| `CpuChip.MOS6510.FixOp` | src/c64/CPU/mos6510.cpp:322-328 | throw-away cycles put the page right |
| `CpuChip.MOS6510.PushOp` | src/c64/CPU/mos6510.cpp:149-158 | what goes on the stack, and the break bit an interrupt clears |
| `CpuChip.MOS6510.PopOp` | src/c64/CPU/mos6510.cpp:1173-1176 | what comes off it; PLA also sets N and Z |
| `CpuChip.MOS6510.RmwInstr` | src/c64/CPU/mos6510.cpp:946-1471 | read-modify-write instructions write the old operand back and compute the new one, legal and illegal ones |
| `CpuChip.MOS6510.StoreInstr` | src/c64/CPU/mos6510.cpp:727-837 | stores, and the SH* stores whose address and value the page crossing and RDY corrupt |
| `CpuChip.MOS6510.DataCycle` | src/c64/CPU/mos6510.cpp:313-656 | every micro-operation that leaves the interrupt logic alone makes the specified bus access and leaves the specified registers |
| `CpuChip.MOS6510.DataOp` | src/c64/CPU/mos6510.cpp:431-556 | and skips the next slot exactly if it may and no page was crossed |
| `CpuChip.MOS6510.CliInstr` | src/c64/CPU/mos6510.cpp:671-676 | CLI looks at the interrupts before it looks for the next opcode |
| `CpuChip.MOS6510.SeiInstr` | src/c64/CPU/mos6510.cpp:719-725 | SEI lets an interrupt in that was due already, and forgets the IRQ otherwise |
| `CpuChip.MOS6510.Execute` | src/c64/CPU/mos6510.cpp:64-69 | running any micro-operation on the object is running it on the model |
| `CpuChip.MOS6510.EventWithoutSteals` | src/c64/CPU/mos6510.cpp:64-69 | a free cycle is one step of the model, and queues the next one cycle later |
| `CpuChip.MOS6510.EventWithSteals` | src/c64/CPU/mos6510.cpp:74-115 | with RDY low only a write goes on, and only then is the event queued again, one cycle later |
| `CpuChip.MOS6510.Stall` | src/c64/CPU/mos6510.cpp:82-114 | what a stalled cycle still does for CLI, SEI, SH* and the interrupt delay |
| `CpuChip.MOS6510.SetRDY` | src/c64/CPU/mos6510.cpp:129-143 | a change of RDY swaps the two events; the new one is queued for the next PHI2 slot, neither twice |
| `CpuChip.MOS6510.TriggerNMI` | src/c64/CPU/mos6510.cpp:194-205 | the request, and a waiting CPU gets a turn in the next PHI2 slot |
| `CpuChip.MOS6510.TriggerIRQ` | src/c64/CPU/mos6510.cpp:210-221 | the same for IRQ, only in the first clock of the delay; otherwise the queue stays as it is |
| `CpuChip.MOS6510.ClearIRQ` | src/c64/CPU/mos6510.cpp:226-230 | the pin at once, and the removal two cycles later if it was not queued; if it was, the chain of events is damaged |
| `Scheduling.EventScheduler.ScheduleUnguarded` | src/EventScheduler.h:76-107 | an event that is queued already becomes its own successor, or cuts off the events between its two places; any other is queued as it should be |
| `IrqRelease.FiredIffUnqueued` | src/c64/CPU/mos6510.cpp:226-230 | while a handler acts, the removal event is unqueued exactly if it comes before the event that is firing |
| `IrqRelease.CleanIffSpaced` | src/c64/CPU/mos6510.cpp:226-230 | in every run of the machine, every release of the line finds the removal event unqueued if and only if no release comes before the removal event of the release before has fired |
| `IrqRelease.CpuReleases` | src/c64/c64.h:265-280 | for a release by the CPU that means: in the third cycle after a release in PHI2, the second after one in PHI1, or later |
| `IrqRelease.RolRow` | src/c64/CPU/mos6510.cpp:1178-1187 | ROL absolute writes in two consecutive cycles that cannot be stolen |
| `IrqRelease.RolWritesTwice` | src/c64/CPU/mos6510.cpp:1178-1187 | first the byte read back, then the rotated one |
| `IrqRelease.TwoFalls` | src/c64/VIC_II/mos656x.cpp:232-272 | ROL on $D019 across the start of the line that raises the raster interrupt makes bit 7 of the flags fall in two consecutive cycles, on every chip and line |
| `IrqRelease.ReleasedTooEarly` | src/c64/CPU/mos6510.cpp:226-230 | and so the second release finds the removal event of the first still queued |
| `CpuChip.MOS6510.RemoveIRQ` | src/c64/CPU/mos6510.cpp:117-121 | forgets the trigger cycle unless reset or NMI needs it |
| `IrqLine.NextKeepsCount` | src/c64/c64.h:265-280 | every event of CIA 1 and the VIC keeps the reference count equal to the number of asserting sources |
| `IrqLine.RunKeepsCount` | src/c64/c64.h:265-280 | so does every run |
| `IrqLine.LineIsWiredOr` | src/c64/c64.h:265-280 | after reset the count is 0, 1 or 2 and never negative, the CPU pin is asserted if and only if a source asserts, and VIC flag bit 7 is set if and only if an enabled flag is pending |
| `IrqLine.BitSeven` | src/c64/VIC_II/mos656x.cpp:253-272 | bit 7 after handleIrqState says whether an enabled flag is pending |
| `IrqLine.C64.InterruptIRQ` | src/c64/c64.h:265-280 | count and pin after one report of a source |
| `IrqLine.C64.SetBA` | src/c64/c64.h:282-292 | the CPU hears of BA exactly when it changes, and so always knows it |
| `CiaFlags.CycleHolds` | src/c64/CIA/interrupt.cpp:41-50 | one cycle keeps either the register or idrTemp equal to what has been raised since the last read |
| `CiaFlags.ReadsCollect` | src/c64/CIA/interrupt.cpp:110-123 | with reads at least two cycles apart each read returns exactly the bits raised since the read before, for either order of a source and updateIdr in the same PHI1 |
| `CiaFlags.NothingIsLost` | src/c64/CIA/interrupt.cpp:73-91 | the bits returned so far together with the bits held are exactly the bits raised |
| `CiaFlags.SecondRead` | src/c64/CIA/interrupt.cpp:110-123 | a read in the cycle after a read repeats what that one returned |
| `CiaFlags.SpacingIsExact` | src/c64/CIA/interrupt.cpp:110-123 | a schedule of reads returns the right bits for all inputs if and only if no two of its reads are in consecutive cycles |
| `CiaInterrupt.InterruptSource8521.UpdateIdr` | src/c64/CIA/interrupt.cpp:41-50 | the register takes over idrTemp; after an acknowledge it is queued once more |
| `CiaInterrupt.InterruptSource8521.Clear` | src/c64/CIA/interrupt.cpp:110-123 | returns the register, and queues the IRQ release and at most one update |
| `CiaInterrupt.InterruptSource8521.IsTriggered` | src/c64/CIA/interrupt.cpp:73-91 | raises the bits in both registers and cancels a queued interrupt only right after a mask write |
| `CiaInterrupt.InterruptSource8521.Trigger` | src/c64/CIA/mos652x.cpp:76-82 | an enabled source queues the interrupt event for the next PHI1 unless it is queued; any other leaves it as it is, except right after a mask write |
| `CiaInterrupt.InterruptSource8521.Set` | src/c64/CIA/interrupt.cpp:93-108 | the mask bits named are set or cleared; unless in the acknowledge cycle, the interrupt event is queued if a pending source is enabled now, and cancelled if the cycle before wrote the mask and none is |
| `CiaInterrupt.InterruptSource8521.Interrupt` | src/c64/CIA/interrupt.cpp:30-39 | raises the request bit once and asserts, or in the acknowledge cycle queues the assertion |
| `CiaInterrupt.InterruptSource8521.SetIrq` | src/c64/CIA/interrupt.cpp:52-62 | asserts the line once, not in the acknowledge cycle |
| `CiaInterrupt.InterruptSource8521.ClearIrq` | src/c64/CIA/interrupt.cpp:64-71 | releases the line once |
| `CiaInterrupt.MaskBits` | src/c64/CIA/interrupt.cpp:93-103 | after any sequence of writes a bit of the mask is set if and only if the last write that named it had bit 7 set |
| `CiaInterrupt.DueWhenEnabled` | src/c64/CIA/interrupt.h:95-98 | an interrupt is due if and only if some pending source is enabled by the writes so far |
| `CiaInterrupt.SignalsWhenEnabled` | src/c64/CIA/interrupt.h:95-98 | a source that triggers signals an interrupt if and only if it is enabled, whatever else is pending |
| `TodCounters.HourTicks` | src/c64/CIA/tod.cpp:206-223 | the hour counter runs 1 to 12 in BCD with AM/PM flipping at 12, which is 24 hours in order |
| `TodCounters.TickAdvances` | src/c64/CIA/tod.cpp:169-233 | an update of a clock that shows a time adds one tenth of a second and wraps at midnight |
| `TodCounters.TicksAdvance` | src/c64/CIA/tod.cpp:169-233 | n updates add n tenths modulo 24 hours |
| `TodCounters.EventuallyATime` | src/c64/CIA/tod.cpp:169-233 | from any register contents enough updates lead to a time |
| `TimeOfDay.RingDivides` | src/c64/CIA/tod.cpp:143-165 | the ring counter passes on every fifth power-line tick at 50 Hz and every sixth at 60 Hz |
| `TimeOfDay.SixthState` | src/c64/CIA/tod.cpp:143-165 | after a switch to 50 Hz in the sixth state the ring takes one tick more |
| `TimeOfDay.ClockKeepsTime` | src/c64/CIA/tod.cpp:133-236 | after n power-line ticks a running clock that shows a time is ahead by a fifth or a sixth of them, modulo 24 hours |
| `TimeOfDay.ClockSettles` | src/c64/CIA/tod.cpp:133-236 | a running clock comes to show a time whatever its registers hold |
| `TimeOfDay.DelaysAddUp` | src/c64/CIA/tod.cpp:135-139 | n ticks are scheduled over exactly floor((c0 + n * period) / 128) cycles |
| `TimeOfDay.OneSnapshot` | src/c64/CIA/tod.cpp:49-64 | reading hours, then the rest, then tenths shows one moment whatever the clock does meanwhile |
| `TimeOfDay.TenthsRelease` | src/c64/CIA/tod.cpp:49-64 | reading the tenths lets the registers follow the clock again |
| `TimeOfDay.Tod.Read` | src/c64/CIA/tod.cpp:49-64 | latch, release and the value read |
| `TimeOfDay.Tod.Write` | src/c64/CIA/tod.cpp:66-131 | what a write stores in clock or alarm, when it stops and restarts the clock, and when the alarm is compared |
| `TimeOfDay.Tod.Event` | src/c64/CIA/tod.cpp:133-167 | queues the next tick with the fraction carried over, and divides the tick if the clock runs |
| `TimeOfDay.Tod.UpdateCounters` | src/c64/CIA/tod.cpp:169-236 | the nested counters in the registers make one tick, and the alarm is compared |
| `TimeOfDay.Tod.Reset` | src/c64/CIA/tod.cpp:33-47 | 01:00:00.0, stopped, unlatched, with the event queued |
| `TodAlarm.StoredBits` | src/c64/CIA/tod.cpp:66-85 | a register stores the bits it has |
| `TodAlarm.StoredFlag` | src/c64/CIA/tod.cpp:78-84 | the AM/PM flag is stored inverted if and only if the clock is set to hour 12 |
| `TodAlarm.SetTime` | src/c64/CIA/tod.cpp:66-131 | the four bytes of a time set the clock to that time, but at hour 12 to the other half of the day, and the alarm to that time |
| `TodAlarm.AlarmOnceADay` | src/c64/CIA/tod.cpp:169-244 | after n tenths a running clock equals the alarm if and only if it was set n tenths before it, modulo 24 hours |
| `Rfc1321.WordOfBytes` | src/libs/hashlib/md5.hpp:81-89 | a word written out low byte first gives back the bytes it was made of |
| `HashLib.MovingIsTakingTurns` | src/libs/hashlib/md5.hpp:137-140 | moving the four variables past each other is letting the four registers take turns as in section 3.4 of RFC 1321 |
| `HashLib.WordOfRound` | src/libs/hashlib/md5.hpp:116-135 | 5i+1, 3i+5 and 7i modulo 16 give the order of words the standard lists |
| `HashLib.RotationByShifts` | src/libs/hashlib/md5.hpp:140 | the two shifts are the rotation of the standard |
| `HashLib.PadBuffered` | src/libs/hashlib/md5.hpp:70-73 | the padding computed from the buffer fill is that of section 3.1 |
| `HashLib.BitCount` | src/libs/hashlib/md5.hpp:74 | the wrapped 64-bit byte count still gives the bit count modulo 2^64 |
| `HashLib.Md5.WTable` | src/libs/hashlib/md5.hpp:149-159 | sixteen words from a block, low byte first |
| `HashLib.Md5.Process` | src/libs/hashlib/md5.hpp:92-146 | the 64-step loop is the block function of the standard |
| `HashLib.Md5.Update` | src/libs/hashlib/md5.hpp:39-63 | the message hashed so far grows by exactly these bytes, however they fall on blocks |
| `HashLib.Md5.UpdateFromIterator` | src/libs/hashlib/md5.hpp:23-32 | the overload that goes through a 128-byte temporary does the same |
| `HashLib.Md5.AddPadding` | src/libs/hashlib/md5.hpp:70-76 | padding and length make the message the padded message of sections 3.1 and 3.2 |
| `HashLib.Md5.DoDigest` | src/libs/hashlib/md5.hpp:66-78 | the registers are those after the padded message, and every field is as before |
| `HashLib.Md5.Restore` | src/libs/hashlib/core.hpp:396-417 | every field is put back |
| `HashLib.Md5.Digest` | src/libs/hashlib/core.hpp:468-480 | the sixteen bytes are the digest of RFC 1321 of everything hashed, and hashing can go on |
| `HashLib.DigestOfParts` | src/libs/hashlib/md5.hpp:39-78 | however a message is cut into updates, with a digest taken after each, every digest is that of the parts so far joined |
| `Md5Vectors.AlphabetDigest` | src/libs/hashlib/md5.hpp:61-167 | the digest of the 26 letters is the one in the test suite of RFC 1321, which pins every constant, rotation and word order |
| `RelocSpec.PatchAllTwice` | src/reloc65.cpp:145-195 | relocating disjoint fields by d and then by e is relocating them by d + e |
| `RelocSpec.PatchAllValue` | src/reloc65.cpp:162-181 | every field that names the text is shifted by the same distance, every other one stays |
| `RelocSpec.PatchAllElsewhere` | src/reloc65.cpp:162-181 | bytes outside the fields stay |
| `RelocTheorems.TableShape` | src/reloc65.cpp:145-195 | a table names disjoint fields, in the unused part of its segment or in its own low-byte slots |
| `RelocTheorems.TableStands` | src/reloc65.cpp:145-195 | the walk reads no byte that relocation may change, although it rewrites low bytes inside its own table |
| `RelocTheorems.GlobalsStand` | src/reloc65.cpp:197-214 | neither does the walk over the exported globals |
| `RelocTheorems.LayoutStands` | src/reloc65.cpp:98-138 | a file that differs only in the fields it names is read in the same way |
| `RelocTheorems.RelocatedIsWellFormed` | src/reloc65.cpp:98-138 | relocating keeps the file well formed, with the same sections and fields |
| `RelocTheorems.RelocatedFields` | src/reloc65.cpp:145-214 | what becomes of each field |
| `RelocTheorems.RelocatedElsewhere` | src/reloc65.cpp:98-138 | only fields named by the tables and the header base change |
| `RelocTheorems.RelocatedBase` | src/reloc65.cpp:133 | the header holds the new base |
| `RelocTheorems.RelocatingTwice` | src/reloc65.cpp:98-138 | relocating to B1 and then to B2 is relocating to B2 at once, byte for byte |
| `RelocTheorems.RelocatingBack` | src/reloc65.cpp:98-138 | relocating back to the original base restores the whole file |
| `RelocTheorems.UndefListIsMeasured` | src/reloc65.cpp:82-93 | the list of undefined references is measured correctly if and only if it is empty |
| `RelocTheorems.UndefListExample` | src/reloc65.cpp:82-93 | one reference to a two-letter name: taken to end after its first letter |
| `RelocEntries.EntryByBits` | src/reloc65.cpp:157-186 | an entry of an offset and a type byte t names the word, high byte or low byte at that offset for t & $E0 = $80, $40, $20, to be moved if and only if t & 7 = 2, with two more bytes if and only if t & 7 = 0 |
| `RelocEntries.TextEntryMoves` | src/reloc65.cpp:145-195 | in the relocated file the field an entry of the text table points to is the old value plus the distance if the entry names segment 2, and the old value otherwise |
| `RelocEntries.DataEntryMoves` | src/reloc65.cpp:145-195 | the same for the data table |
| `RelocEntries.GlobalMoves` | src/reloc65.cpp:197-214 | the same for the exported globals |
| `RelocEntries.HeaderByBits` | src/reloc65.cpp:100-112 | refused are files without the magic bytes, of 32 bits or pagewise relocated, by bits 5 and 6 of byte 7 |
| `Reloc65Code.SetWord` | src/reloc65.cpp:53-57 | stores the two low-order bytes, of a negative value too |
| `Reloc65Code.Reloc65.RelocEntry` | src/reloc65.cpp:155-186 | one entry in place: the field it names (EntryByBits) patched, and the position of the next entry |
| `Reloc65Code.Reloc65.RelocSeg` | src/reloc65.cpp:145-195 | the loop over a table that changes under it patches exactly the fields the original table names |
| `Reloc65Code.Reloc65.RelocGlobals` | src/reloc65.cpp:197-214 | the same for the exported globals |
| `Reloc65Code.Reloc65.ReadOptions` | src/reloc65.cpp:64-75 | the size of the chain of header options |
| `Reloc65Code.Reloc65.ReadUndef` | src/reloc65.cpp:82-93 | the size the relocator gives the list of undefined references |
| `Reloc65Code.Reloc65.Reloc` | src/reloc65.cpp:98-138 | refuses what is not a 16-bit, bytewise o65 file and leaves it alone, otherwise leaves the relocated file in the buffer |
| `SampleClock.FeedConserves` | src/builders/sidlite-builder/sidlite/SID.cpp:56-67 | feeding chunks of at most seven cycles loses no count and stops at the first sample due |
| `SampleClock.ClockConserves` | src/builders/sidlite-builder/sidlite/SID.cpp:37-50 | count before plus 16 per cycle is ratio per sample plus count after |
| `SampleClock.NothingPending` | src/builders/sidlite-builder/sidlite/SID.cpp:37-84 | when a chunk brings at most one sample no sample is left pending at the end of a call |
| `SampleClock.SplitsAgree` | src/builders/sidlite-builder/sidlite/SID.cpp:37-84 | at a ratio of at least 112 the number of samples depends only on the number of cycles N: 16 N = ratio * samples + remainder, remainder in (0, ratio] |
| `SampleClock.SplitsDisagree` | src/builders/sidlite-builder/sidlite/SID.cpp:56-69 | below 112 two ways to split the same cycles give different numbers of samples |
| `SampleClock.SplittingIsInvisibleIff` | src/builders/sidlite-builder/sidlite/SID.cpp:37-84 | splitting is invisible if and only if the ratio is at least 112 |
| `SampleClock.RealRatios` | src/builders/sidlite-builder/sidlite/SID.cpp:124-134 | the sampling rates accepted, at system clocks from 336 kHz to 16.3 MHz, give such ratios |
| `SampleClock.SaturateIsNearest` | src/builders/sidlite-builder/sidlite/SID.cpp:76-81 | saturating takes the nearest 16-bit sample |
| `SampleClock.SID.GenerateSample` | src/builders/sidlite-builder/sidlite/SID.cpp:52-84 | ends, and says whether a sample is due and how many cycles are left |
| `SampleClock.SID.Clock` | src/builders/sidlite-builder/sidlite/SID.cpp:37-50 | ends, and writes as many saturated samples as the equation allows, in order, and nothing else |

## Left out

- VicSkipping.JumpingIsInvisible: does not cover writes to $D011, because a late change of the bad-line condition can land in a stretch that was announced as uneventful.
- VicSkipping.AccessAgrees: does not cover writes to $D011, for the same reason.
- VicSkipping.JumpingPhi1: has the raster event ahead of the raster comparison. That is so because the CPU makes one access a cycle: a catch-up after a write to $D012 in the same PHI2 would put the event behind the comparison.
- CiaFlags.ReadsCollect: requires two cycles between reads; SpacingIsExact shows that this is needed.
- CpuInterrupts.TriggeredNmiIsServed: starts with no reset pending, since a reset takes the vector and drops the request (ResetSwallowsNmi); a halt opcode ends the run.
- CpuInterrupts.NmiIsServedInTime: counts cycles the CPU executes; while the VIC holds RDY low the wait is as long as it holds it.
- CpuIrq.TriggeredIrqIsServed: asks that the line is neither released nor the trigger forgotten by a late removal (LateRemovalForgets) before the vector is chosen, and that no NMI comes, which would go first.
- CpuInstructions.AluInstruction: one instruction without stolen cycles, interrupt events or writes by other chips between its cycles; what those do is said by the theorems about runs.
- VicBus.BusIsExact: does not cover writes to $D011, which may make a line bad or not in the middle of it.
- VicRaster.RunKeepsBadLines: does not cover writes to $D011; BadLinesSettle says when their effect is over.
- CpuStack.CallsReturn: what runs between calls is described by what it leaves on the stack, not executed.
- RelocTheorems.RelocatingTwice: is about well-formed files: tables inside the buffer, fields inside their segment and on no other field. Truncated and malformed images are not covered.
- SpriteLines.DmaOnChip: is for a sprite whose own registers are not written meanwhile; DmaEndsOnChip covers what a crunch leaves behind, and asks that the sprite is not switched on again in the line in which its DMA ends.
- SampleClock.SplitsAgree: is for ratios up to 32655, where the 16-bit count cannot wrap; RealRatios shows that real sampling rates are below that.
- SampleClock.SID.GenerateSample: the envelopes, wave generators and the filter are a counter and a function parameter.
- CiaInterrupt.InterruptSource8521.Interrupt: takes it as given that the queued assertion is not queued yet, which the order of events in one PHI1 provides.
- CpuChip.MOS6510.ClearIRQ: says how the chain is damaged if the removal event is queued already, not what the scheduler does with the damaged chain afterwards.
- IrqRelease.ReleasedTooEarly: leaves out that the write to $D019 also queues the VIC's own event anew, for the same slot.
- CpuChip.MOS6510.Execute: the registers are one record in a field of the object, which the micro-operations replace field by field; the micro-operations are chosen by a match on the opcode table's entry, not by a function pointer.
- CpuSequencer.RowShape: the instruction table is a function of the opcode, not an array filled by a loop.
- CiaInterrupt.InterruptSource8521.Trigger: the 6526, its one-cycle delay and its timer B acknowledge quirk are not modelled, only the 8521.
- TimerChip.Timer.Access: stands for the bracketing of one timer by the CIA's register file; ports, the serial port and the register decoding are not modelled.
- VicChip.Mos656x.Write: for the VIC, the $D011 case and the light pen's screen position beyond what the interrupt needs are not modelled.
- The CPU's triggerRST, which re-initialises an object that is already queued; a pending reset is modelled as a flag.
- Changing the chip model in mid-run; a reset is assumed to follow.
- The opcode fetch as a bus access of its own; the memory is plain, so it has no effect to order.
- MMU banking, power-on memory contents, and the debug output of the CPU.
- The hexadecimal form of an MD5 digest.
- File formats, the tune database, the STIL viewer, mixers and the drivers for hardware: input, output and text.
- SIDLite's filter, wave generators and envelopes: floating point, large tables, or deliberate chip wrap-arounds without a clean specification.

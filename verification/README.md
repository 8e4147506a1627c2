# QRISC-V996: a verified model of its clocked blocks

QRISC-V996 is a dual-issue RV32 system-on-chip built around the biRISC-V core: a write-back data
cache, an instruction cache, an in-order two-lane pipeline with branch prediction, an Sv32 MMU, an
AXI interconnect and a UART. This project models the blocks of its RTL that hold state across clocks
and proves, for every run, that each stands for the simple thing it is built to be: flat memory, a
one-instruction-at-a-time machine, long division, the two-level page walk, a serial line.

Every block is written twice.

* **Specification.** The registers are a datatype, one rising clock edge is a function `Next`, and
  everything outside the block (requests, bus accept and acknowledge signals, predictions, unit
  results) is a free input of each clock. Runs are sequences of inputs. The theorems are about `Next`
  and about runs of any length. What the surroundings must promise is a predicate over each clock
  (`Legal`, `EnvOk`, `Answers`, `PortsOk`), with no bound on delays.
* **Machine.** A class with one field per register or RAM, written in place by methods that follow
  the always-blocks of the RTL; its `Clock` is proved to take `View()` to `Next(View())`, so each
  theorem about `Next` is a theorem about the machine.

| file | what it stands for |
|---|---|
| `Words.dfy`, `Seqs.dfy`, `Fifo.dfy` | words as byte lanes, word memories, sequence facts, the two-entry ring FIFO |
| `DCacheCore.dfy`, `DCacheMachine.dfy` | the data cache: signals and clock; the machine of RAM blocks and registers |
| `DCacheStore.dfy`, `DCacheInvariant.dfy`, `DCacheSteps.dfy` | storage laws, the representation invariant, and its survival state by state |
| `DCacheRefinement.dfy`, `DCacheProgress.dfy` | the cache is flat memory; its bursts; every request and every flush ends |
| `AxiBurst.dfy` | the cache's bridge to AXI write bursts |
| `Pipeline.dfy`, `PipelineProof.dfy`, `PipelineMachine.dfy`, `Regfile.dfy` | scheduler, bypass network, squash and retirement; both register files |
| `FetchPc.dfy`, `Branches.dfy` | fetch FIFO, issue program counter, branch decisions |
| `Divider.dfy` | the restoring divider |
| `Mmu.dfy` | page-table walker, TLBs, permission checks |
| `Lsu.dfy` | the load/store unit |
| `ICache.dfy` | the instruction cache |
| `Arbiter.dfy`, `ReadPath.dfy` | the four-port arbiter; the read path through arbiter and address tap |
| `Uart.dfy` | transmitter and receiver |
| `InterruptPending.dfy` | buffering of mip and sip |

Where the RTL falls short of the property in question, the model keeps the RTL's behaviour and states
how far the property goes:

* The divider answers all its requests if and only if none comes while it is stepping
  (`AnsweredExactlyWhenLegal`).
* A store whose data beat the bus takes before its address leaves the FIFO, and its address is never
  sent; write bursts have the right shape exactly up to the first such beat (`EarlyDataBreaksShape`,
  `EarlyDataLosesAddress`). The arbiter's exclusion breaks in exactly the same circumstance
  (`EarlyBeatBreaksOrder`).
* The fetch port translates outside machine mode even when satp is off (`BareFetchDeparts`), user-mode
  loads ignore MXR (`UserMxrDeparts`), misaligned superpages are accepted
  (`WalkedExactlyWhenPlain`), and a walk whose requester has moved to another page mixes two addresses
  (`MovedRequestMixes`).
* A raised timer interrupt can be lost inside a read-modify-write of mip if the cycle counter meets a
  compare value that is switched off (`PendingExactly`, `IdleCompareLoses`), and a compare value written
  in the clock in which the old one is met never fires (`CompareFires`).
* A read that the instruction cache accepts in the clock that starts a flush is answered with stale
  data exactly when its tag is still held in the last line that is emptied (`StaleReadIsAnswered`).
* A peripheral that took a second read would have its first answer routed by the second reader's
  identifier (`SecondReadMisroutes`), and a cache operation issued right behind a load or store is
  presented while that access is outstanding (`CacheOperationOvertakes`).

## Model

| member | source | states |
|---|---|---|
| DCacheRefinement.CacheIsFlatMemory | src/dcache/dcache_core.v:131-915 | After reset, for every legal sequence of reads, byte-enabled writes, line writebacks and full flushes and every accept/acknowledge pattern, the responses are flat memory's responses to the accepted requests, tags and data, in order, with at most one outstanding; whenever a writeback or a flush is acknowledged, the backing memory holds the flat memory's words in that line or everywhere. |
| DCacheRefinement.RunFromReset | src/dcache/dcache_core.v:131-915 | The same, and the run ends with the representation invariant, for the flat memory the accepted writes make. |
| DCacheRefinement.FlushLeavesMemory | src/dcache/dcache_core.v:587-641 | When a full flush is acknowledged, in any run, no line of either way is valid and the backing memory alone holds the flat memory's word at every address. |
| DCacheRefinement.WritebackLeavesMemory | src/dcache/dcache_core.v:714-782 | When a line writeback is acknowledged, in any run, the backing memory holds the flat memory's word at every address of the line. |
| DCacheRefinement.RunIsFlat | src/dcache/dcache_core.v:131-196 | The same from any state that satisfies the invariant, counting the request already in the buffer. |
| DCacheRefinement.Step | src/dcache/dcache_core.v:661-819 | Every clock in every state keeps the representation invariant, with the backing memory and the flat memory moved by the same clock. |
| DCacheRefinement.ReadIsFlat | src/dcache/dcache_core.v:644-658 | Whenever a read is acknowledged, the data output is the flat memory's word at its address. |
| DCacheRefinement.BufferStep | src/dcache/dcache_core.v:131-175 | The request buffer keeps its request until it is acknowledged and takes a new one only when empty or in that very clock. |
| DCacheRefinement.AckClock | src/dcache/dcache_core.v:177-196 | A clock that acknowledges answers the oldest request as flat memory does and leaves the invariant for the memory after it. |
| DCacheRefinement.NoAckClock | src/dcache/dcache_core.v:177-196 | A clock that does not acknowledge answers nothing and only appends to what is buffered. |
| DCacheProgress.EveryRunAnswers | src/dcache/dcache_core.v:661-793 | From reset, after any run, the request then buffered, a full flush included, is answered in every continuation with more than 24,660 clocks not spent waiting for the memory. |
| DCacheProgress.EveryRequestIsAnswered | src/dcache/dcache_core.v:661-793 | Every buffered request, a full flush included, is answered in any run that gives the cache more non-waiting clocks than its work measure. |
| DCacheProgress.WorkShrinks | src/dcache/dcache_core.v:587-641 | The measure (lines left, dirty ways left, beats left) falls in every clock of service that does not wait for the memory and stays put in those that do; the request stays buffered. |
| DCacheProgress.WorkBounded | src/dcache/dcache_core.v:587-616 | The measure never exceeds that of flushing a cache whose every line is dirty in both ways. |
| DCacheProgress.WaysTakeTurns | src/dcache/dcache_core.v:618-641 | After a refill the other way is the next victim; a flush starts each line at way 0 and a line writeback chooses the way that holds the line; nothing else moves the choice. |
| DCacheProgress.FreeCacheAccepts | src/dcache/dcache_core.v:177-196 | From reset, after any run that has left the reset sweep, a request that finds the buffer empty or just acknowledged is accepted at once, if and only if it is not a read behind a write to the same word. |
| DCacheProgress.ResetEnds | src/dcache/dcache_core.v:671-676 | The reset sweep is over after one clock a line and one more. |
| DCacheProgress.EvictionBurst | src/dcache/dcache_core.v:822-915 | Beat n of an eviction, with or without the skid buffer, carries word n of the victim line at its own address; the first announces eight; the memory has collected exactly the words before it. |
| DCacheProgress.EvictionAcknowledged | src/dcache/dcache_core.v:750-770 | A write burst is acknowledged only once the memory has all eight words of the victim line. |
| DCacheProgress.ReadBurst | src/dcache/dcache_core.v:822-915 | A refill asks for the whole wanted line, from its first word, only while nothing else is outstanding. |
| DCacheSteps.StepReset | src/dcache/dcache_core.v:671-676 | The reset sweep over all lines keeps the invariant and ends with both ways empty. |
| DCacheSteps.StepFlushAddr | src/dcache/dcache_core.v:680-680 | Reading the next line's tags during a flush keeps the invariant. |
| DCacheSteps.StepFlush | src/dcache/dcache_core.v:684-698 | A flush empties a line only when neither way of it is dirty, so no word is lost. |
| DCacheSteps.StepLookup | src/dcache/dcache_core.v:702-723 | Lookup clocks (hits, write hits, misses, acceptance of the next request) keep the invariant. |
| DCacheSteps.LookupSettles | src/dcache/dcache_core.v:513-585 | After a hit the storage alone shows the flat memory: the buffered write has gone into the way that holds its line. |
| DCacheSteps.LookupReads | src/dcache/dcache_core.v:177-196 | A read accepted behind a write reads the right word from a RAM that shows old contents, because the one conflicting case is not accepted. |
| DCacheSteps.LookupMissedDirty | src/dcache/dcache_core.v:424-454 | A miss on a dirty victim starts the eviction of exactly that line. |
| DCacheSteps.LookupMissedClean | src/dcache/dcache_core.v:702-723 | A miss on a clean or empty victim starts the refill and gives up no word. |
| DCacheSteps.HitsWhatHolds | src/dcache/dcache_core.v:345-412 | The comparators hit exactly the way that holds the address, and never both. |
| DCacheSteps.StepRead | src/dcache/dcache_core.v:743-746 | The read replayed after a refill keeps the invariant. |
| DCacheSteps.StepWrite | src/dcache/dcache_core.v:743-746 | The write replayed after a refill goes into the new line, and applying it once more on acknowledgement changes nothing. |
| DCacheSteps.MergeTwice | src/dcache/dcache_core.v:513-585 | Applying a byte-enabled write twice is applying it once. |
| DCacheSteps.StepRefill | src/dcache/dcache_core.v:727-739 | Every clock of a refill keeps the invariant. |
| DCacheSteps.RefillClock | src/dcache/dcache_core.v:465-511 | One beat of a refill stores its word in the victim way and advances all counters together. |
| DCacheSteps.RefillStores | src/dcache/dcache_core.v:280-322 | A refill beat changes no word of the view, although the way may already carry the new tag. |
| DCacheSteps.RefillComplete | src/dcache/dcache_core.v:457-511 | With the last beat the whole line equals memory word for word. |
| DCacheSteps.StepEvict | src/dcache/dcache_core.v:750-756 | Every clock of an eviction, taken or held, keeps the invariant. |
| DCacheSteps.EvictBus | src/dcache/dcache_core.v:901-915 | The memory collects the victim line's words in address order. |
| DCacheSteps.EvictNextBeat | src/dcache/dcache_core.v:822-864 | A taken beat puts the next word of the line on the bus. |
| DCacheSteps.EvictHeld | src/dcache/dcache_core.v:867-886 | A beat that is not taken is kept by the skid buffer while the RAM reads on. |
| DCacheSteps.EvictPorts | src/dcache/dcache_core.v:296-379 | An eviction writes no RAM, answers no request and accepts none. |
| DCacheSteps.EvictClocks | src/dcache/dcache_core.v:822-886 | During an eviction only the counters, the skid buffer and the read outputs move. |
| DCacheSteps.StepEvictWait | src/dcache/dcache_core.v:759-770 | Waiting for and receiving the acknowledgement of an eviction keeps the invariant. |
| DCacheSteps.EvictedByFlush | src/dcache/dcache_core.v:618-641 | An eviction by a flush empties exactly that way of the line. |
| DCacheSteps.EvictedByWriteback | src/dcache/dcache_core.v:280-322 | An eviction by a line writeback leaves the line in place, clean and equal to memory. |
| DCacheSteps.EvictedByMiss | src/dcache/dcache_core.v:280-322 | An eviction by a miss writes the new tag before the new data and still changes no word of the view. |
| DCacheSteps.StepWriteback | src/dcache/dcache_core.v:774-782 | A line writeback evicts the line if and only if it is held dirty. |
| DCacheStore.Drop | src/dcache/dcache_core.v:280-294 | Emptying a line that equals memory keeps coherence and every word. |
| DCacheStore.Clean | src/dcache/dcache_core.v:280-294 | Marking a line clean once memory equals it keeps coherence and every word. |
| DCacheStore.WriteOut | src/dcache/dcache_core.v:750-770 | Writing a dirty line out makes memory equal it and changes no word of the view. |
| DCacheStore.Fill | src/dcache/dcache_core.v:513-585 | Storing into an unused line changes no word of the view. |
| DCacheStore.Install | src/dcache/dcache_core.v:280-294 | Putting a line into use once it equals memory changes no word of the view. |
| DCacheStore.WriteHitView | src/dcache/dcache_core.v:513-585 | A write hit changes the written lanes of one word as flat memory would, and no other word. |
| DCacheStore.IndexInjective | src/dcache/dcache_core.v:226-255 | Distinct tag/line/word triples are distinct words, and the words of a line are eight adjacent addresses. |
| DCacheStore.RamIndexInjective | src/dcache/dcache_core.v:457-511 | Distinct words of distinct lines lie at distinct data RAM addresses. |
| DCacheCore.NextSized | src/dcache/dcache_core.v:587-616 | Register widths and RAM depths are kept by every clock. |
| DCacheMachine.TagRamBlock.Clock | src/dcache/dcache_core_tag_ram.v:54-62 | The tag RAM, updated in place, shows a write to a read of the same clock. |
| DCacheMachine.DataRamBlock.Clock | src/dcache/dcache_core_data_ram.v:59-72 | The data RAM, updated in place by byte enables, shows a read of the same clock the old word. |
| DCacheMachine.DCache.constructor | src/dcache/dcache_core.v:131-175 | The reset state, whatever the RAMs contain. |
| DCacheMachine.DCache.Clock | src/dcache/dcache_core.v:795-819 | One edge of the in-place machine takes its registers and RAMs to exactly the specified next state and drives exactly the specified outputs. |
| DCacheMachine.DCache.Compare | src/dcache/dcache_core.v:345-454 | The comparator and dirty tests, computed from the RAM outputs. |
| DCacheMachine.DCache.Handshake | src/dcache/dcache_core.v:177-196 | Accept, acknowledge, tag and read data of this clock. |
| DCacheMachine.DCache.NextStateLogic | src/dcache/dcache_core.v:661-793 | The next state in all states. |
| DCacheMachine.DCache.Outport | src/dcache/dcache_core.v:901-915 | The outport's request, length, address and data. |
| DCacheMachine.DCache.TagPorts | src/dcache/dcache_core.v:226-379 | The tag RAM addresses, data and write enables, within range. |
| DCacheMachine.DCache.DataPorts | src/dcache/dcache_core.v:457-585 | The data RAM addresses, data and byte enables, within range. |
| DCacheMachine.DCache.ClockRequestBuffer | src/dcache/dcache_core.v:131-175 | The request buffer's new contents. |
| DCacheMachine.DCache.ClockRefillAddress | src/dcache/dcache_core.v:465-478 | The line address counter's new value. |
| DCacheMachine.DCache.ClockReplaceWay | src/dcache/dcache_core.v:618-641 | The victim way's new value. |
| DCacheMachine.DCache.ClockFlushCounter | src/dcache/dcache_core.v:587-616 | The flush counter, its last-line flag and the flushing flag. |
| DCacheMachine.DCache.ClockBurst | src/dcache/dcache_core.v:822-864 | The burst length and address counters. |
| DCacheMachine.DCache.ClockOutport | src/dcache/dcache_core.v:867-886 | The request flags and the write skid buffer. |
| AxiBurst.WriteBurstShape | src/dcache/dcache_axi_axi.v:84-185 | If no first data beat is taken before its address, then for every ready pattern the channels carry one address with its length for each pushed burst and after it the pushed beats in order, last marked on the last only; and all of them once FIFO and widget are empty. |
| AxiBurst.EarlyDataBreaksShape | src/dcache/dcache_axi_axi.v:84-112 | The condition is exact: the first early beat puts data where an address belongs. |
| AxiBurst.EarlyDataLosesAddress | src/dcache/dcache_axi_axi.v:181-185 | For every single store there is a run of three clocks in which its data passes and its address never does. |
| AxiBurst.RunCarries | src/dcache/dcache_axi_axi.v:84-185 | From any good state: what is held and queued, plus what is pushed, is what passes plus what is still held and queued. |
| AxiBurst.Step | src/dcache/dcache_axi.v:84-150 | One clock keeps the counters' meaning and conserves what must pass. |
| AxiBurst.EmitsExpected | src/dcache/dcache_axi_axi.v:114-157 | The items of one clock are the next ones owed. |
| AxiBurst.KeepsInv | src/dcache/dcache_axi_axi.v:114-133 | The two beat counters, the inhibit flags and the skid buffer keep agreeing on the beats left. |
| AxiBurst.OutstandingCounts | src/dcache/dcache_axi.v:152-173 | The response counter is the number of transactions without a response and never passes two. |
| AxiBurst.OutstandingIsUnanswered | src/dcache/dcache_axi.v:136-173 | From reset, the counter is the number of transactions pushed, less those still in the FIFO, less the responses. |
| AxiBurst.CountsTransactions | src/dcache/dcache_axi.v:136-150 | Over any run what is counted is exactly the reads and last write beats that have left the FIFO. |
| AxiBurst.CompletesAtEnd | src/dcache/dcache_axi.v:136-150 | A transaction is counted in the clock its last request leaves the FIFO. |
| AxiBurst.ReadsPassOnce | src/dcache/dcache_axi.v:84-134 | For every ready pattern each pushed read passes the read address channel once, in order, with its address and length, and none is missing once the FIFO is empty. |
| AxiBurst.RunReads | src/dcache/dcache_axi.v:84-134 | The same from every state. |
| AxiBurst.ReadyBusDrains | src/dcache/dcache_axi_axi.v:181-185 | With a ready bus and room for a transaction the oldest request leaves in every clock; a write waits one clock behind a beat held in the widget. |
| AxiBurst.EarlyBeatHoldsRest | src/dcache/dcache_axi_axi.v:84-112 | After an early beat no further data is shown until the address has passed. |
| AxiBurst.BurstPort.Clock | src/dcache/dcache_axi_axi.v:84-185 | One edge of the in-place machine reaches the specified next state and puts the specified items on the channels. |
| AxiBurst.BurstPort.Drive | src/dcache/dcache_axi_axi.v:84-112 | The channel valids, the data beat and the accept signal. |
| AxiBurst.BurstPort.ClockCounters | src/dcache/dcache_axi.v:136-173 | The burst and response counters' new values. |
| AxiBurst.BurstPort.ClockWidget | src/dcache/dcache_axi_axi.v:84-157 | The inhibit flags', beat counter's and skid buffer's new values. |
| Fifo.Clocked | src/dcache/dcache_axi.v:237-314 | The FIFO never holds more than its depth. |
| Fifo.Ring.Clock | src/dcache/dcache_axi.v:237-314 | The ring buffer pops the oldest entry and appends the pushed one, for every pointer position. |
| PipelineProof.OperandsAreSequential | src/core/biriscv_issue.v:774-895 | After any run, an instruction issued from the first slot is handed, for both sources, the register values of the sequential machine that has executed every older instruction, unless one of those ended in an exception. |
| PipelineProof.PairedOperandsAreSequential | src/core/biriscv_issue.v:836-895 | So is its companion from the second slot, with the first slot's instruction executed too. |
| PipelineProof.RetirementIsSequential | src/core/biriscv_pipe_ctrl.v:228-436 | The register writes of any run are, in order, those of the sequential machine, which skips everything from an exception to its redirect; once drained, they are all of them and the register files are equal. |
| PipelineProof.EverythingRetires | src/core/biriscv_issue.v:598-735 | Three clocks without an offer, with the units answering, and every register write of the sequential machine has reached the register file, after any run. |
| PipelineProof.OfferedInstructionIssues | src/core/biriscv_issue.v:598-718 | After any run, an instruction offered for four clocks in which the units answer issues in one of them: no blocking flag or scoreboard bit stays up for ever. |
| PipelineProof.NothingPassesCsr | src/core/biriscv_issue.v:598-628 | After any run nothing issues while a CSR access is anywhere in the pipeline, write-back included. |
| PipelineProof.CsrStep | src/core/biriscv_issue.v:598-628 | A CSR access stays alone in front of an empty pipeline until it has written back. |
| PipelineProof.IssuesOnlyWhenFree | src/core/biriscv_issue.v:649-699 | An instruction issues only if the load/store unit takes it, nothing redirects or blocks, none of its registers is awaited from E1, and a multiplication, division or CSR access is not right behind a memory access. |
| PipelineProof.ReadyInstructionIssues | src/core/biriscv_issue.v:649-699 | With nothing awaited it does issue. |
| PipelineProof.PairsIssueTogether | src/core/biriscv_issue.v:636-718 | Two instructions that find the pipeline empty go together if and only if a second lane is built, they share no unit, and the second names nothing the first writes. |
| PipelineProof.FlagsStep | src/core/biriscv_issue.v:598-628 | The division flag is up only with a division in E1 and the CSR flag only with a CSR access in lane 0. |
| PipelineProof.IdleClock | src/core/biriscv_issue.v:333-454 | A clock in which nothing issues empties one more stage and keeps the blocking flags earned. |
| PipelineProof.RegisterFilesAgree | src/core/biriscv_regfile.v:57-157 | In every run the flop register file and the two-bank one answer every read alike. |
| PipelineProof.RunIsSequential | src/core/biriscv_issue.v:333-772 | From any good state a run moves the abstract sequential machine by exactly the issued instructions and redirects, and the two write ports never name one register. |
| PipelineProof.Step | src/core/biriscv_pipe_ctrl.v:150-423 | Every clock keeps the invariant and is the sequential machine's step for that clock's events. |
| PipelineProof.RedirectIsEarned | src/core/biriscv_pipe_ctrl.v:318-337 | The pipeline empties itself only when the sequential machine has met an exception, and then once. |
| PipelineProof.OperandIsSequential | src/core/biriscv_issue.v:600-718 | A source register that the scoreboard leaves free is read, through whichever bypass applies, with its sequential value. |
| PipelineProof.WbBypass | src/core/biriscv_issue.v:786-830 | What WB offers completes the register file. |
| PipelineProof.E2Bypass | src/core/biriscv_issue.v:786-830 | What E2 offers, early load and multiply results included, completes what is behind it. |
| PipelineProof.E1Bypass | src/core/biriscv_issue.v:786-830 | What E1 offers completes what is behind it, because unready results are on the scoreboard. |
| PipelineProof.PortsApart | src/core/biriscv_issue.v:688-717 | The lanes never write one register in the same clock. |
| PipelineProof.Retire | src/core/biriscv_pipe_ctrl.v:340-436 | What leaves WB is what the sequential machine does with those two instructions. |
| PipelineProof.StepStall | src/core/biriscv_pipe_ctrl.v:150-212 | A held clock writes nothing and leaves the abstract machine where it was. |
| PipelineProof.StepAdvance | src/core/biriscv_pipe_ctrl.v:150-316 | A moving clock executes the issued instructions in order. |
| PipelineProof.StepFirstSquash | src/core/biriscv_pipe_ctrl.v:318-337 | The clock of an exception drops everything younger, keeps everything older and is a redirect. |
| PipelineProof.StepSecondSquash | src/core/biriscv_pipe_ctrl.v:318-337 | In the clock after it nothing issues and what is left in WB retires. |
| PipelineProof.Cut | src/core/biriscv_issue.v:553-556 | A fault in lane 0 drops its companion in lane 1; a fault in lane 1 keeps its companion in lane 0. |
| PipelineProof.CodeStops | src/core/biriscv_pipe_ctrl.v:228-296 | An exception code seen in E2 is one that stops the sequential machine at that instruction. |
| PipelineProof.ToE1 | src/core/biriscv_pipe_ctrl.v:150-212 | An instruction enters E1 of lane 0 with sequential operands. |
| PipelineProof.ToE1Beside | src/core/biriscv_issue.v:636-718 | So does its companion in lane 1, which reads and writes nothing that lane 0 writes. |
| PipelineProof.ToE2 | src/core/biriscv_pipe_ctrl.v:228-316 | An instruction takes its own result and exception from E1 to E2. |
| PipelineProof.ToWb | src/core/biriscv_pipe_ctrl.v:340-423 | An instruction takes its own result and exception from E2 to WB. |
| PipelineProof.UnitsAfterIssue | src/core/biriscv_issue.v:910-920 | The shared unit registers hold what the instructions just issued need. |
| PipelineProof.ProductArrives | src/core/biriscv_multiplier.v:100-140 | A product arrives in E2 with the multiplication it belongs to. |
| PipelineProof.NotBehindAccess | src/core/biriscv_issue.v:649-718 | Divisions and CSR accesses never stand right behind a memory access. |
| PipelineProof.Lane1Kind | src/core/biriscv_issue.v:636-647 | Lane 1 never holds a division or a CSR access, and a CSR access goes alone. |
| PipelineMachine.LaneBlock.ClockWb | src/core/biriscv_pipe_ctrl.v:340-423 | WB's new contents, held, emptied or taken over. |
| PipelineMachine.LaneBlock.ClockE2 | src/core/biriscv_pipe_ctrl.v:228-296 | E2's new contents, held, emptied or taken over. |
| PipelineMachine.LaneBlock.Clock | src/core/biriscv_pipe_ctrl.v:150-423 | One edge of a lane reaches exactly the specified stages and squash flag. |
| PipelineMachine.PipelineBlock.constructor | src/core/biriscv_issue.v:598-628 | The empty pipeline that reset leaves. |
| PipelineMachine.PipelineBlock.Scoreboard | src/core/biriscv_issue.v:649-687 | The bit set step by step for each register is on exactly for the registers no bypass can supply. |
| PipelineMachine.PipelineBlock.Schedule | src/core/biriscv_issue.v:688-718 | Which slots issue. |
| PipelineMachine.PipelineBlock.Bypass | src/core/biriscv_issue.v:774-833 | The overriding assignments pick the newest value in flight. |
| PipelineMachine.PipelineBlock.Flags | src/core/biriscv_issue.v:598-628 | The division and CSR blocking flags' new values. |
| PipelineMachine.PipelineBlock.MulSelect | src/core/biriscv_issue.v:910-920 | The multiplier's operands come from the slot that multiplies. |
| PipelineMachine.PipelineBlock.UnitResults | src/core/biriscv_exec.v:242-250 | The result registers' new values. |
| PipelineMachine.PipelineBlock.Clock | src/core/biriscv_issue.v:333-772 | One edge of the in-place pipeline and register file reaches exactly the specified next state. |
| Regfile.Flops.Clock | src/core/biriscv_regfile.v:255-358 | The registers written in place; port 0 wins a conflict and register 0 stays zero. |
| Regfile.FlopIsTwoWrites | src/core/biriscv_regfile.v:259-358 | Without a conflict a clock is two single writes. |
| Regfile.ReadAfter | src/core/biriscv_xilinx_2r1w.v:81-108 | What each version reads after a clock: port 0's value first in one, port 1's in the other. |
| Regfile.SameReadsStep | src/core/biriscv_regfile.v:131-157 | A clock without a conflict keeps every read equal. |
| Regfile.BanksAreFlops | src/core/biriscv_regfile.v:57-157 | Over any run without conflicts both versions answer every read alike. |
| Regfile.ReadsPartOnlyOnConflict | src/core/biriscv_regfile.v:131-157 | They stay equal over a clock if and only if the ports write different registers or one value. |
| FetchPc.IssuesSequentialProgram | src/core/biriscv_issue.v:196-256 | For every sequence of fetched and predicted blocks, squashes, redirects and issue decisions, the issued instructions are the program's at exactly the addresses that the instruction set's branch decisions and targets lead to, pairs included. |
| FetchPc.Step | src/core/biriscv_issue.v:720-735 | One clock issues the next instructions of the program and the counter follows them. |
| FetchPc.SlotIsNext | src/core/biriscv_issue.v:222-256 | A valid slot holds the program's word at the counter, and the second slot the word after it. |
| FetchPc.NoStaleBlock | src/core/biriscv_issue.v:222-256 | A queued block offers the expected word or is flushed with a new fetch from the unchanged counter. |
| FetchPc.AllowedWordsIssue | src/core/biriscv_issue.v:222-256 | What the scheduler lets go is issued: the word at the counter, and the next word of its block with it. |
| FetchPc.IssuedWordsLeave | src/core/biriscv_issue.v:728-732 | Exactly the issued words leave the FIFO, with an unwanted first word before them. |
| FetchPc.FifoConserves | src/core/biriscv_decode.v:340-426 | The FIFO loses and repeats no word: exactly the popped words leave, and a pushed block follows the rest. |
| FetchPc.FifoMatches | src/core/biriscv_decode.v:340-408 | Every queued block keeps the program's words and at least one still to take. |
| FetchPc.FetchFifo.Pop | src/core/biriscv_decode.v:340-408 | The head loses exactly the popped words, the other entry nothing, and is done when both are gone. |
| FetchPc.FetchFifo.Clock | src/core/biriscv_decode.v:279-426 | The ring of blocks, updated in place, holds the specified queue after flush, push and pops together. |
| Branches.TakenIsMustTake | src/core/biriscv_exec.v:256-358 | The comparators decide every branch as section 2.5 of the RISC-V Unprivileged ISA 20191213 does. |
| Branches.TargetIsMustGoTo | src/core/biriscv_exec.v:299-358 | The unit's target of every jump and branch is the instruction set's. |
| Branches.MustGoTo | src/core/biriscv_exec.v:299-358 | The instruction set's target, section 2.5: a word congruent modulo 2^32 to pc plus offset for jal and branches; for jalr even, and congruent to register plus offset or to one less. |
| Branches.CongruentWords | src/core/biriscv_exec.v:299-358 | Congruence modulo 2^32 determines a word. |
| Branches.TargetAligned | src/core/biriscv_exec.v:292-358 | The unit's targets, which are the instruction set's, are four-byte aligned when offset and base are. |
| Divider.DividerIsIsa | src/core/biriscv_divider.v:90-191 | From reset the announced results are, in order, those of section 7.2 of the RISC-V Unprivileged ISA 20191213 for the requests, with at most the one under way missing; all operand pairs and all four operations. |
| Divider.SessionIsIsa | src/core/biriscv_divider.v:93-191 | The same from every reachable state, with what is owed before and after. |
| Divider.AnsweredExactlyWhenLegal | src/core/biriscv_divider.v:93-165 | All requests are answered correctly if and only if none comes while a division is still stepping. |
| Divider.EarlyRequestsLoseAnswers | src/core/biriscv_divider.v:93-165 | In every run each early request costs exactly one answer. |
| Divider.Latency | src/core/biriscv_divider.v:93-191 | An idle divider answers 34 clocks after a fresh request and 2 after one that repeats the last, not before, and with the right result. |
| Divider.WaitAnswers | src/core/biriscv_divider.v:178-191 | A busy divider answers exactly when its countdown ends. |
| Divider.FinishedIsIsa | src/core/biriscv_divider.v:167-176 | Quotient, remainder and sign flag after the last step make the instruction's result, division by zero and overflow included. |
| Divider.CompletedIsIsa | src/core/biriscv_divider.v:178-191 | The result announced at completion is right, whatever request starts in that clock. |
| Divider.SignedResult | src/core/biriscv_divider.v:167-176 | Dividing magnitudes and restoring signs is division rounded towards zero. |
| Divider.SubtractStep | src/core/biriscv_divider.v:155-165 | One subtract-and-shift step produces one more quotient bit. |
| Divider.BalancedStep | src/core/biriscv_divider.v:155-165 | The step keeps dividend = quotient * divisor + remainder, with a zero divisor setting every bit. |
| Divider.SetBitAdds | src/core/biriscv_divider.v:157-161 | Setting the mask bit in the quotient adds it. |
| Divider.LoadDivides | src/core/biriscv_divider.v:122-149 | Loading magnitudes and sign flags starts a division with 32 bits to go. |
| Divider.StartStep | src/core/biriscv_divider.v:110-150 | A request in any reachable state is taken up, with 33 clocks to go, or those left when it repeats the last. |
| Divider.BusyStep | src/core/biriscv_divider.v:155-165 | A stepping clock keeps the invariant, announces nothing and shortens the countdown by one. |
| Divider.CompleteStep | src/core/biriscv_divider.v:151-191 | The completing clock announces the instruction's result and leaves the divider idle. |
| Divider.DividerBlock.Start | src/core/biriscv_divider.v:110-150 | The in-place start: reuse when the request repeats, a full load otherwise. |
| Divider.DividerBlock.Clock | src/core/biriscv_divider.v:93-191 | One edge of the in-place divider reaches exactly the specified next state. |
| Divider.DividerBlock.Divide | src/core/biriscv_divider.v:93-191 | Clocking an idle divider until it answers returns the instruction's result after 34 or 2 clocks. |
| Mmu.TranslationIsSv32 | src/core/biriscv_mmu.v:189-435 | After a flush, with fixed tables, for every run and bus delay, each translated fetch, load or store passed on is one asked for, with its byte enables, at the physical page and with the permissions of the walk of section 4.3.2 of the RISC-V Privileged Architecture 1.10, and each hit whose leaf is missing or refuses it faults; what is not translated passes exactly as asked; and the bus sees either that access or the walker reading the entry it is at. |
| Mmu.FetchIsTranslated | src/core/biriscv_mmu.v:271-336 | A translated fetch is passed on only if asked for and allowed, at its physical address, and otherwise faults; an untranslated one passes exactly as asked. |
| Mmu.AccessIsTranslated | src/core/biriscv_mmu.v:345-435 | The same for loads and stores, with SUM and MXR, byte enables and own address. |
| Mmu.WalkedLeaf | src/core/biriscv_mmu.v:189-266 | The walker ends with the architecture's leaf, or with an entry that nobody may use. |
| Mmu.WalkedIsSv32 | src/core/biriscv_mmu.v:271-416 | Entry and leaf allow the same fetches, loads and stores in every privilege. |
| Mmu.WalkedExactlyWhenPlain | src/core/biriscv_mmu.v:189-266 | Among entries with 20-bit page numbers that agreement holds if and only if no superpage is misaligned and no entry is executable and writable but not readable. |
| Mmu.Step | src/core/biriscv_mmu.v:168-435 | Every clock keeps each valid TLB entry equal to the walk of its page. |
| Mmu.RunKeepsInv | src/core/biriscv_mmu.v:168-435 | So does every run. |
| Mmu.StepWalker | src/core/biriscv_mmu.v:189-266 | The walker reads the architecture's table entries in order. |
| Mmu.StepPort | src/core/biriscv_mmu.v:467-516 | The walker's read is asked for exactly once, and answered only when owed. |
| Mmu.StepTlbs | src/core/biriscv_mmu.v:269-435 | A TLB is filled only with the walk of the page it names. |
| Mmu.AcceptedIsForwarded | src/core/biriscv_mmu.v:465-516 | A data access is accepted only in a clock that passes it on or faults it. |
| Mmu.AcceptedExactly | src/core/biriscv_mmu.v:465-516 | An access that is asked for is accepted if and only if it faults or the bus takes it in this clock. |
| Mmu.ForwardsRequest | src/core/biriscv_mmu.v:137-165 | Over every run of a requester that asks until it is accepted, the port carries a load only if one is asked for and a store with exactly the byte enables asked for. |
| Mmu.RemembersRequest | src/core/biriscv_mmu.v:137-165 | What is remembered of an access that was not accepted is what is asked for again. |
| Mmu.Untranslated | src/core/biriscv_mmu.v:318-436 | With translation off, fetches, loads and stores pass exactly as asked and never fault. |
| Mmu.BusIsEither | src/core/biriscv_mmu.v:483-516 | The bus sees the access as checked or the read of the table entry the walker is at, never a write of the walker. |
| Mmu.EntryAddr | src/core/biriscv_mmu.v:216-238 | Entry n of a table is at byte 4n of its page. |
| Mmu.PortStays | src/core/biriscv_mmu.v:483-516 | What the bus does not take is shown again by the same side, and taking it releases the port. |
| Mmu.WalksExactlyForMisses | src/core/biriscv_mmu.v:189-223 | An idle walker starts if and only if a translated fetch or access misses its TLB. |
| Mmu.FetchWalkClosesTlb | src/core/biriscv_mmu.v:269-318 | The instruction TLB is closed during a walk for a fetch and untouched by one for data. |
| Mmu.FetchIsServed | src/core/biriscv_mmu.v:269-340 | A fetch that stays is served, by its second walk at the latest, however slow the bus. |
| Mmu.FetchStep | src/core/biriscv_mmu.v:269-340 | Each clock that does not wait for the bus brings it nearer. |
| Mmu.AccessIsServed | src/core/biriscv_mmu.v:343-380 | A load or store that stays hits, after a walk for a fetch under way and one of its own at most, however slow the bus. |
| Mmu.AccessStep | src/core/biriscv_mmu.v:343-380 | Each clock that does not wait for the bus brings it nearer. |
| Mmu.UserMxrDeparts | src/core/biriscv_mmu.v:345-416 | The load check agrees with the architecture if and only if the load is not a user-mode one, with MXR set, from a user page that can be executed and not read. |
| Mmu.BareFetchDeparts | src/core/biriscv_mmu.v:174-186 | The fetch port translates outside machine mode even with satp off: it agrees with the architecture on what is translated if and only if satp is on or the mode is machine; the data port always agrees. |
| Mmu.MovedRequestMixes | src/core/biriscv_mmu.v:216-245 | When the first table entry arrives the walk goes on for its own page if and only if the requester's address still has the same low page bits. |
| Mmu.MmuBlock.ClockWalker | src/core/biriscv_mmu.v:189-266 | The in-place walker's new state. |
| Mmu.MmuBlock.ClockTlbs | src/core/biriscv_mmu.v:269-435 | Both TLBs' new contents. |
| Mmu.MmuBlock.ClockPort | src/core/biriscv_mmu.v:467-516 | The read request and multiplexer hold's new values. |
| Mmu.MmuBlock.ClockRequest | src/core/biriscv_mmu.v:137-165 | The remembered load or store. |
| Mmu.MmuBlock.Clock | src/core/biriscv_mmu.v:137-516 | One edge of the in-place unit reaches exactly the specified next state. |
| Lsu.LsuIsInOrder | src/core/biriscv_lsu.v:101-418 | After reset, for every stream of instructions and every delay, the completions and the memory are those of a machine that serves one instruction at a time at the instruction set's address on bytes of memory and drops what stands behind a fault. |
| Lsu.OneOutstanding | src/core/biriscv_lsu.v:103-127 | In every run at most one access is outstanding, the FIFO head at each acknowledgement describes it, and what is presented is the oldest instruction that no fault has dropped. |
| Lsu.EveryAccessCompletes | src/core/biriscv_lsu.v:101-127 | Every load, store and cache operation completes: two clocks that do not wait for the data port are enough for the oldest. |
| Lsu.RankShrinks | src/core/biriscv_lsu.v:101-127 | Each such clock brings the oldest one step nearer. |
| Lsu.FreeUnitTakes | src/core/biriscv_lsu.v:311-321 | A unit with nothing in it never stalls. |
| Lsu.AddressIsEffective | src/core/biriscv_lsu.v:164-187 | The unit's adder and alignment check are the instruction set's. |
| Lsu.Effective | src/core/biriscv_lsu.v:170-177 | The address of a load or store is the word congruent to base plus offset modulo 2^32, and that of a cache operation its register. |
| Lsu.RunIsInOrder | src/core/biriscv_lsu.v:101-418 | The same from any state in the relation. |
| Lsu.Step | src/core/biriscv_lsu.v:245-347 | Every clock is a step of the in-order machine. |
| Lsu.StepHold | src/core/biriscv_lsu.v:245-309 | A clock that completes nothing only queues. |
| Lsu.StepPop | src/core/biriscv_lsu.v:245-347 | A clock that completes an access removes exactly it, and on a fault everything behind it. |
| Lsu.AnnouncesOutcome | src/core/biriscv_lsu.v:350-418 | The announced value, address and exception code are the in-order machine's. |
| Lsu.SameMemory | src/core/biriscv_lsu.v:130-239 | A store's data and byte enables change memory as the instruction asks. |
| Lsu.PresentsOldest | src/core/biriscv_lsu.v:245-321 | The data port never shows an access behind a faulting or misaligned one. |
| Lsu.ExtractIsLoaded | src/core/biriscv_lsu.v:350-398 | Lane extraction returns the little-endian bytes at the address, sign- or zero-extended. |
| Lsu.LoadedExtends | src/core/biriscv_lsu.v:350-398 | Read as a number, with its sign after a signed load, the result is the number in the bytes at the address. |
| Lsu.StoreChanges | src/core/biriscv_lsu.v:164-235 | A store changes exactly the bytes it names. |
| Lsu.LoadAfterStore | src/core/biriscv_lsu.v:164-398 | A load of what was just stored returns the stored bytes, extended. |
| Lsu.CacheOperationOvertakes | src/core/biriscv_lsu.v:103-121 | A cache operation is presented while an access is outstanding if and only if it was issued right behind one. |
| Lsu.LsuBlock.ClockStage | src/core/biriscv_lsu.v:242-309 | The in-place access stage and flags' new values. |
| Lsu.LsuBlock.Clock | src/core/biriscv_lsu.v:101-347 | One edge of the in-place unit, FIFO included, reaches exactly the specified next state. |
| Uart.RoundTrip | src/soc/uart_lite.v:333-580 | With the output wired to the input, for every bit period and every pattern of writes, the receiver completes the bytes the idle transmitter accepted, in order and without an error. |
| Uart.AllArrive | src/soc/uart_lite.v:333-580 | All of them have arrived once the transmitter has been idle for three clocks. |
| Uart.ProcessorReadsWhatItWrote | src/soc/uart_lite.v:430-474 | A processor that drains the data register in time reads exactly the bytes it wrote and sees no error. |
| Uart.NothingLostExactlyWhenDrained | src/soc/uart_lite.v:430-474 | No received byte is lost if and only if none completes on top of an unread one. |
| Uart.OverrunsLoseBytes | src/soc/uart_lite.v:430-474 | Each overrun loses exactly one byte. |
| Uart.Prints | src/soc/uart_lite.v:477-580 | The transmitter's levels are a start bit, eight data bits and a stop bit for each byte, each a bit period long, with an idle line between. |
| Uart.TxStep | src/soc/uart_lite.v:477-580 | One clock sends the next level of what is left. |
| Uart.FrameParses | src/soc/uart_lite.v:351-474 | A framed byte is parsed back, whatever the bit period. |
| Uart.AgendaParses | src/soc/uart_lite.v:351-474 | So is every sequence of frames and idle clocks. |
| Uart.StartCell | src/soc/uart_lite.v:355-410 | The first sample falls in the middle of the start bit. |
| Uart.SampleInCell | src/soc/uart_lite.v:355-375 | A cell is sampled once, as many clocks into it as the cell before. |
| Uart.DataCells | src/soc/uart_lite.v:386-404 | Each data cell shifts its own bit in. |
| Uart.StopCell | src/soc/uart_lite.v:446-456 | The stop bit completes the byte. |
| Uart.LoopIsStream | src/soc/uart_lite.v:333-348 | The receiver sees the transmitter's levels three clocks late. |
| Uart.FetchesReceived | src/soc/uart_lite.v:430-474 | With timely reads the bytes read are the bytes received. |
| Uart.InboxStep | src/soc/uart_lite.v:430-470 | A completed byte takes the place of one that is read, or of none. |
| Uart.UartBlock.ClockReceiver | src/soc/uart_lite.v:351-425 | The in-place receiver's new counters and shift register. |
| Uart.UartBlock.Clock | src/soc/uart_lite.v:333-580 | One edge of the in-place loop and data register reaches exactly the specified next state. |
| Arbiter.Fairness | src/soc/axi4_arb.v:585-645 | A port that keeps requesting is granted within four fresh grants, from every reachable state, however long grants are held. |
| Arbiter.ServedWithin | src/soc/axi4_arb.v:585-645 | It waits behind exactly as many grants as stand before it in the round. |
| Arbiter.GrantIsNearest | src/soc/axi4_arb.v:612-643 | A fresh grant goes to one port, the nearest requester behind the mask, and the mask moves past it. |
| Arbiter.RobinStep | src/soc/axi4_arb.v:612-643 | At most one port is ever granted. |
| Arbiter.HeldGrantStays | src/soc/axi4_arb.v:626-643 | A held grant does not change. |
| Arbiter.WritesNeverInterleave | src/soc/axi4_arb.v:374-535 | Over every run, between an address and its last data beat nothing of any other port passes. |
| Arbiter.HoldIsEarned | src/soc/axi4_arb.v:374-434 | The grant is held if and only if a shown address was not taken or a transaction is under way; the last beat releases it. |
| Arbiter.WritersAreServed | src/soc/axi4_arb.v:374-434 | Over every run, a port that keeps asking has passed its address by the time five addresses have passed. |
| Arbiter.WriterServesPort | src/soc/axi4_arb.v:374-434 | It waits behind exactly those shown and those before it in the round. |
| Arbiter.AheadStep | src/soc/axi4_arb.v:374-434 | Each address that passes brings it one nearer. |
| Arbiter.WriterStep | src/soc/axi4_arb.v:374-434 | One clock passes only what may follow in the transaction under way. |
| Arbiter.SelectedGrant | src/soc/axi4_arb.v:437-535 | The multiplexer passes the granted port, or nothing. |
| Arbiter.EarlyBeatBreaksOrder | src/soc/axi4_arb.v:374-434 | The order breaks if and only if the bus takes a first data beat before its address. |
| Arbiter.WriterBlock.Clock | src/soc/axi4_arb.v:374-434 | One edge of the in-place write side reaches exactly the specified next state. |
| ReadPath.ReadsAreRouted | src/soc/axi4_arb.v:296-346 | From reset, for every interleaving of reads, each finished response goes to the port that asked with its identifier, once and in order; the tap's counter is the number outstanding, at most fifteen, all to one target. |
| ReadPath.RunRoutes | src/soc/axi4_lite_tap.v:209-368 | The same from any good state. |
| ReadPath.ResponseIsOldest | src/soc/axi4_lite_tap.v:289-368 | Every beat of a response carries the oldest read's identifier and goes to its port. |
| ReadPath.RoutedPort | src/soc/axi4_arb.v:296-346 | Each port owns the four identifiers that name it, so that 4 and 8 return to the ports of the data and the instruction cache. |
| ReadPath.Step | src/soc/axi4_lite_tap.v:228-262 | Every clock keeps the counter equal to the number outstanding and all of them on one target. |
| ReadPath.StepTags | src/soc/axi4_arb.v:296-346 | One clock's books: owed and asked for is answered and still owed. |
| ReadPath.CounterNeverWraps | src/soc/axi4_lite_tap.v:228-258 | Whenever the counter changes it changes by one, and never wraps. |
| ReadPath.TapTakes | src/soc/axi4_lite_tap.v:260-289 | The tap takes a read if and only if its target is ready and nothing is outstanding, or fewer than fifteen reads to the same target. |
| ReadPath.FinishesWhenDone | src/soc/axi4_lite_tap.v:228-246 | It counts a read down exactly when the port that asked takes the last beat of its answer. |
| ReadPath.PassesGrantedRequest | src/soc/axi4_arb.v:229-294 | The request passed on is, address and identifier, that of the granted port, and none is shown if nobody asks. |
| ReadPath.HoldIsEarned | src/soc/axi4_arb.v:218-226 | The grant is held only for an address that was shown and not taken. |
| ReadPath.TargetIsWindow | src/soc/axi4_lite_tap.v:196-226 | Each peripheral answers exactly its sixteen-megabyte window and memory everything else. |
| ReadPath.AddressStays | src/soc/axi4_arb.v:218-294 | An address that is shown and not taken is shown again from the same port. |
| ReadPath.SecondReadMisroutes | src/soc/axi4_lite_tap.v:289-346 | With two reads at a peripheral the first answer goes to its port if and only if both came from it. |
| ICache.CacheIsMemory | src/icache/icache.v:160-540 | From the start of a flush, for every sequence of requests, flushes and invalidations and every bus delay, with memory changing anywhere in a clock that starts a flush and in the invalidated line in one that starts an invalidation, the answers are the blocks memory holds when the requests are accepted, in order, with at most one to come. |
| ICache.CacheIsFixedMemory | src/icache/icache.v:160-540 | The same for one fixed memory. |
| ICache.RunIsMemory | src/icache/icache.v:160-540 | The same from any good state, with a fixed memory. |
| ICache.RunFollowsMemory | src/icache/icache.v:428-500 | The same from any good state, with a memory that changes. |
| ICache.ChangeStep | src/icache/icache.v:428-500 | A clock that starts a flush or invalidation leaves a cache that fits any new memory, or one changed in that line. |
| ICache.FlushEmptiesWays | src/icache/icache.v:384-398 | A flush asked for when no lookup misses leaves both ways empty and the cache looking up, one clock a line later. |
| ICache.InvalidationEmptiesLine | src/icache/icache.v:384-398 | An invalidation empties its line in both ways within two clocks and touches nothing else. |
| ICache.FreeCacheAccepts | src/icache/icache.v:485-486 | A cache with no lookup waiting, or one answered in this clock, accepts every read. |
| ICache.Step | src/icache/icache.v:428-500 | Every clock keeps every valid line outside a refill equal to memory. |
| ICache.StepFlush | src/icache/icache.v:384-398 | Flush clocks empty the lines in turn. |
| ICache.StepLookup | src/icache/icache.v:160-184 | Lookup clocks keep the invariant, whether they answer, miss, or start a flush. |
| ICache.StepRelookup | src/icache/icache.v:428-485 | After a refill the waiting lookup is read again. |
| ICache.StepRefillBeat | src/icache/icache.v:186-381 | A refill beat keeps the invariant although it writes each double word twice under a tag that may still be valid. |
| ICache.StepRefillWaits | src/icache/icache.v:500-511 | A refill clock without a beat keeps the invariant. |
| ICache.VictimBeat | src/icache/icache.v:296-381 | The victim way after a beat: one block more when the beat completes it, and the tag with the last. |
| ICache.FillBlock | src/icache/icache.v:296-381 | Writing inside the line left out harms no other line. |
| ICache.CloseLine | src/icache/icache.v:186-294 | Setting the tag is safe once all four blocks have arrived. |
| ICache.AnswerIsMemory | src/icache/icache.v:411-426 | Whenever the cache answers, it answers memory's block at the address asked for. |
| ICache.EveryRequestIsAnswered | src/icache/icache.v:428-485 | Every accepted request is answered, by one refill at most and after a flush under way, however slow the bus. |
| ICache.WorkShrinks | src/icache/icache.v:428-485 | Each clock that does not wait for the bus brings the answer nearer. |
| ICache.RelookupHits | src/icache/icache.v:160-184 | The lookup after a refill hits. |
| ICache.StaleReadIsAnswered | src/icache/icache.v:384-426 | A read accepted with a flush is answered at its end without a lookup if and only if the last emptied line held its tag, with whatever block the port then points at. |
| ICache.WayBlock.Clock | src/icache/icache_tag_ram.v:43-57 | Tag and data RAM of a way, updated in place; reads show the old contents. |
| ICache.ICacheBlock.Clock | src/icache/icache.v:160-540 | One edge of the in-place cache reaches exactly the specified next state. |
| ICache.ICacheBlock.ClockWays | src/icache/icache.v:186-381 | Both ways' new contents. |
| ICache.ICacheBlock.ClockRefill | src/icache/icache.v:296-408 | The refill counters' new values. |
| ICache.ICacheBlock.ClockControl | src/icache/icache.v:384-540 | The state, lookup and request registers' new values. |
| InterruptPending.TimerIsNotLost | src/core/biriscv_csr_regfile.v:146-156 | In a window of fewer than 2^32 clocks from the read of mip or sip to its write, without a write of the compare value and with no timer line, every raised timer bit is pending after the write, whatever is written. |
| InterruptPending.PendingExactly | src/core/biriscv_csr_regfile.v:451-475 | After the write the bit is pending if and only if software left it set, or it was raised in the window and no idle compare came at or after that, or it was buffered before and none came at all. |
| InterruptPending.RaisedStaysPending | src/core/biriscv_csr_regfile.v:418-475 | Without an idle compare nothing raised in the window is lost, timer line included, for windows of any length. |
| InterruptPending.RaisedIsPending | src/core/biriscv_csr_regfile.v:451-475 | Inside a window or outside, a raised timer bit is pending in the next clock. |
| InterruptPending.PendingUntilWritten | src/core/biriscv_csr_regfile.v:418-475 | A pending timer bit stays pending until software writes mip or sip. |
| InterruptPending.ClearUntilRaised | src/core/biriscv_csr_regfile.v:418-475 | With nothing buffered, a bit that is clear stays clear until it is raised or written. |
| InterruptPending.PendingHasCause | src/core/biriscv_csr_regfile.v:418-475 | A pending bit was raised, buffered, pending before or written. |
| InterruptPending.WindowCloses | src/core/biriscv_csr_regfile.v:146-156 | A write of mip or sip, or an exception, closes the window, and a clock later the buffer is empty. |
| InterruptPending.CompareFires | src/core/biriscv_csr_regfile.v:430-467 | A compare value that software sets raises the timer bit when the counter reaches it, if and only if the counter did not meet the old value in the clock of the write. |
| InterruptPending.DelegatesAsWritten | src/core/biriscv_csr_regfile.v:418-428 | The delegation bits are those written last outside exceptions. |
| InterruptPending.WindowBuffers | src/core/biriscv_csr_regfile.v:146-156 | What the buffer holds inside a window, exactly. |
| InterruptPending.ShortWindow | src/core/biriscv_csr_regfile.v:458-467 | With the compare as the only source, a window of at most 2^32 clocks has no idle compare or raises nothing. |
| InterruptPending.NotAgain | src/core/biriscv_csr_regfile.v:458-467 | The counter meets the compare value only once in 2^32 clocks. |
| InterruptPending.IdleCompareLoses | src/core/biriscv_csr_regfile.v:458-467 | With the timer line in use a window of one clock can lose a raised bit. |
| InterruptPending.ExternalIsLevel | src/core/biriscv_csr_regfile.v:451-475 | Outside a window the external bits are the interrupt line, routed by delegation, whatever is written. |
| InterruptPending.SoftwareBits | src/core/biriscv_csr_regfile.v:418-449 | The software bits are exactly what software writes. |
| InterruptPending.PendingBlock.Collect | src/core/biriscv_csr_regfile.v:451-467 | The overriding assignments of incoming bits, in order. |
| InterruptPending.PendingBlock.Software | src/core/biriscv_csr_regfile.v:418-475 | What software leaves, with the external bits removed. |
| InterruptPending.PendingBlock.Clock | src/core/biriscv_csr_regfile.v:237-544 | One edge of the in-place registers reaches exactly the specified next state. |
| InterruptPending.PendingBlock.ClockTimer | src/core/biriscv_csr_regfile.v:418-467 | The counter, compare, enable and delegation registers' new values. |
| Words.WrBurstAt | src/dcache/dcache_core.v:750-770 | A write burst changes exactly the words it covers, each to its own beat. |

## Left out

- PipelineProof.RetirementIsSequential: interrupts taken between instructions (take_interrupt) are not modelled, nor are the memory effects of instructions younger than a fetch fault; execution is synchronous.
- DCacheRefinement.CacheIsFlatMemory: does not cover the invalidate request and its state, which discard data by design, or the bus-error path.
- Mmu.TranslationIsSv32: does not cover page numbers over 20 bits, misaligned superpages and reserved entries (WalkedExactlyWhenPlain says what happens then), or a flush or change of satp during a walk; PTE A/D bits are ignored as in the hardware.
- Mmu.AccessIsTranslated: compares user-mode loads with MXR clear, which is what the hardware checks (UserMxrDeparts says where that differs).
- What ALU, multiplier, CSR unit and memory compute for the pipeline is one uninterpreted function of an instruction and its operands; the decoder's mask table is replaced by the class it assigns. The CSR unit's read value for other opcodes, which nothing uses, is zero.
- In the MMU: the cacheable attribute and the registers that delay a fault report by a clock.
- In the load/store unit: the address register of an empty access stage reads as zero, and the three cache operations are one kind, whose effect is the cache's.
- In the AXI bridge: the order between the read and write channels, read data and error responses, which pass through unchanged, and the skid buffer's contents while it is empty.
- In the fetch path: predictor accuracy and the predictor's update ports, which do not matter to the theorem; targets that are not four-byte aligned, which raise an exception instead.
- In the instruction cache: bus errors, and changes of memory without a flush or invalidation.
- In the interconnect: the retiming FIFO between arbiter and tap, the tap's write half, which mirrors its read half, and write-response routing.
- In the UART: the register bus around the engines, a divider of zero, and metastability of the synchroniser.
- In the CSR file: all other CSRs, trap entry and interrupt masking.
- The composition of load/store unit, MMU, caches and AXI bridge into one system theorem.
- The register files of gpio, spi, timer and interrupt controller; the second copies of the two register banks; debug and trace modules.
- Pure wiring, boot loader, kernel drivers, SDK and tooling; power-up values and asynchronous reset timing.

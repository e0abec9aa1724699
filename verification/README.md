# A verified model of the DRAM simulator and the multi-hart tests

Four parts of the repository are modelled and proved here.

**The DRAM controller** (`DRAMSIM3/src`). One memory channel is a clocked machine: banks that are open or closed,
"earliest time" tables updated by every issued command, activation windows, command queues with first-ready
selection, a refresh engine that goes before the queues, and a front end that merges, forwards and reorders reads
and writes. `History` says what a log of issued commands means without any incremental state: the row of a bank and
the earliest time of a command are folds over the whole log. The classes `BankState`, `ChannelState`, `Refresh`,
`CommandQueue`, `Controller` and `BaseDRAMSystem` keep the tables and queues in place, loop by loop, and are proved to
compute exactly the functions of `History` and `Scheduler`. `ChannelTheorems` states what follows for every run, that
is, for every configuration and every sequence of offered transactions and memory cycles.

**The memory cube** (`DRAMSIM3/src/hmc.cc`). Link and quadrant queues, age arbitration, the response table and the two
clock domains, on top of the vault controllers. `Crossbar`, `Cube` and `CubeSystem` are the value level, `Hmc` is the
class. The conservation law of the response table rests on that of the controllers.

**The multi-hart protocols** (`riscv-tests/common`). The two barriers, the pairwise AMO tests and the coherency checker
are machines whose steps are single shared accesses, under sequential consistency, for any interleaving, any number
of rounds and, where the source allows it, any number of harts. AMOs are atomic as in section 8.4 of the RISC-V
Unprivileged ISA, version 20191213.

**The thermal solver** (`DRAMSIM3/src/thermal_solver.c`, `thermal.cc`). Assembly of the conductance matrix, its compressed
form, the blocked explicit Euler update and the choice of the time step, over exact reals.

How to read it: `DramTypes`, `DramConfig` and `Scheduler` are the controller's data and operations; `QueueFacts` to `Runs`
carry the invariants through one operation after the other; files named `...Theorems`, `CubeSystem`, `ThermalEpochs` and
the protocol files end with the results. `TimingRules` and `ChannelTiming` say what the delay tables mean, `Arbitration` and
`Scheduling` which command and which transaction goes next, and `IssuedCommands`, `RefreshOrder`, `RefreshNumbers` and
`LateRead` more about the histories of runs. `CubeDelivery`, `CubeTraffic`, `CubeTrafficRuns` and `CubeProgress` follow the
requests through the cube; `PairedFaults` and `CoherencyFaults` say which faults the tests report; `ThermalEntries` says
which cells the matrix joins. `Counting`, `Division`, `Rounds`, `Sums`, `BitFields`, `Words` and `HartSets` hold the
arithmetic.

## Points to note

- A callback comes on the recorded completion cycle if and only if the transaction is a write, or an earlier write of
  its address was not yet issued when it was accepted, or the read delay is at least one cycle (`CallbackTick`).
  Otherwise it comes later: `LateCallback` is a run of five events in which it does, for a whole family of
  configurations, and `SomeFast` is one of them.
- A link speed that gives the logic layer more than a million megahertz makes its period 0 (`hmc.cc:313-314`), and with
  it the loop of `ClockTick` (`hmc.cc:579-584`) never ends. `SetClockRatio` states exactly when; the cube's runs are
  those with a positive period.
- The table for REFRESH_BANK is stored among the same-rank tables (`timing.cc:225`) but looked up among the same-bank
  ones (`channel_state.cc:149-154`). The model does what the code does: REFRESH_BANK puts no delay on its own bank.
- The simultaneous refresh policy stops after the first rank (`refresh.cc:36`). The model does the same.
- `BuildAgeQueue` compares an age with an index (`hmc.cc:601`), so it does not sort by age. What is proved is that each
  position with a positive age is listed exactly once.
- The response table is searched by address only. A response carries the address, link and kind of the request it was
  made for, but two requests of the same address may be answered in either order.
- With closed pages nothing in the tables relates the burst of a read that closes its bank to the burst of the next
  write of that bank. `SharedExactly` gives the condition on the parameters under which they are apart all the same, and
  a history in which they are not when it fails.
- The coherency checker drops the errors of the last circuit (`coh_checker.h:156-160`). `FaultIsReported` names that case.
- Delays may be negative in some configurations. They are integers here; a negative sum does not wrap.

## Model

| member | source | states |
|---|---|---|
| `BitFields.LogBase2` | DRAMSIM3/src/common.cc:50-57 | the loop gives the largest exponent whose power of two does not exceed the argument |
| `BitFields.UnpackOfPack` | DRAMSIM3/src/configuration.cc:33-42 | fields packed side by side come back one by one |
| `BitFields.PackOfUnpack` | DRAMSIM3/src/configuration.cc:33-42 | a word is its fields packed again |
| `AddressMap.Tokenize` | DRAMSIM3/src/configuration.cc:401-407 | the twelve characters as six two-character tokens |
| `AddressMap.PlaceFields` | DRAMSIM3/src/configuration.cc:409-420 | positions are running sums of widths from the last token; an unknown token fails |
| `AddressMap.SetAddressMapping` | DRAMSIM3/src/configuration.cc:374-435 | a string is accepted if and only if its tokens are a permutation of the six fields, and then every field lies at the sum of the widths after it |
| `AddressMap.RangesTile` | DRAMSIM3/src/configuration.cc:409-420 | bit ranges of an accepted mapping are disjoint and leave no gap |
| `AddressMap.ExtractIsSlice` | DRAMSIM3/src/configuration.cc:33-42 | decoding a field is cutting out its bit range |
| `AddressMap.DecodedInRange` | DRAMSIM3/src/configuration.cc:33-42 | every decoded field is below the size of its structure, also when that is no power of two |
| `DramConfig.AcceptedMappingIsValid` | DRAMSIM3/src/configuration.cc:374-435 | every accepted mapping of a non-empty structure gives a configuration to which the channel results apply, as soon as the refresh interval is positive |
| `AddressMap.DecodeOfEncode` | DRAMSIM3/src/configuration.cc:33-42 | every tuple of coordinates is the image of its encoding |
| `AddressMap.EncodeOfDecode` | DRAMSIM3/src/configuration.cc:33-42 | coordinates and burst offset give the address back |
| `AddressMap.EveryPlaceHasAddresses` | DRAMSIM3/src/configuration.cc:374-435 | where all sizes are powers of two, every burst of every place of the structure has an address, and every byte of the burst leads there |
| `AddressMap.Layout.GetChannel` | DRAMSIM3/src/dram_system.cc:31-34 | the system's channel selection agrees with the full decoding |
| `History.RaiseIsMax` | DRAMSIM3/src/bankstate.cc:167-171 | raising an entry by a table is taking a maximum |
| `History.EarliestIsLatestRelease` | DRAMSIM3/src/channel_state.cc:140-263 | the incremental table entry is the maximum over all issued commands of issue time plus table delay for their relation, floored at 0, and nothing else is |
| `History.ScanFinds` | DRAMSIM3/src/channel_state.cc:79-95 | the scan of a rank finds the first bank, by group and bank, that must be precharged, or there is none |
| `History.ReadyIsAdmitted` | DRAMSIM3/src/channel_state.cc:76-115 | a command reported ready may be issued at once: bank states, all times and the windows allow it |
| `History.ClocksIncrease` | DRAMSIM3/src/controller.cc:65-149 | at most one command per cycle |
| `History.PairwiseSpacing` | DRAMSIM3/src/channel_state.cc:140-263 | in a legal history any two commands are spaced by the table delay of their relation, a rank refresh against every bank of its rank |
| `TimingRules.TablesMeanRules` | DRAMSIM3/src/timing.cc:13-250 | for every issued command, bank, kind and time: the tables allow the time if and only if the rules do, stated in clocks, data bursts and parameters (bursts apart with tRTRS at turnarounds, tCCD, tWTR, tRCD, tRAS, tRTP, tWR, tRP, tRC, tRRD, tRFC, tRFC and tREFI around bank refreshes, tPPD) |
| `TimingRules.EarliestMeansRules` | DRAMSIM3/src/channel_state.cc:140-263 | the time kept for a bank has come if and only if no issued command has a rule against it |
| `TimingRules.WindowMeans` | DRAMSIM3/src/channel_state.cc:271-314 | an activation window is open if and only if the last four (or thirty-two) ACTIVATEs of the rank do not all lie within it |
| `TimingRules.ReadyMeansRules` | DRAMSIM3/src/channel_state.cc:100-115 | a bank command is ready if and only if what its bank needs next breaks no rule and no window |
| `TimingRules.RefreshMeansRules` | DRAMSIM3/src/channel_state.cc:76-98 | a rank refresh is ready if and only if all banks of the rank are closed and no rule is against it; a precharge is, if and only if some bank is open and may be closed |
| `HistoryTheorems.TraceShape` | DRAMSIM3/src/bankstate.cc:96-165 | a bank is open on the row of its last ACTIVATE, with only that row accessed since, or closed since |
| `HistoryTheorems.ColumnInRowRun` | DRAMSIM3/src/bankstate.cc:22-165 | every column access sits in a run that starts with an ACTIVATE of exactly its row |
| `HistoryTheorems.ClosedBetween` | DRAMSIM3/src/bankstate.cc:22-165 | between an ACTIVATE and the next ACTIVATE or refresh of the bank something closed it |
| `HistoryTheorems.ActivateToRefresh` | DRAMSIM3/src/timing.cc:182-209 | the distance from ACTIVATE to a later refresh, which no table line states |
| `HistoryTheorems.OpenPageActivateToRefresh` | DRAMSIM3/src/timing.cc:182-209 | with open pages that distance is at least tRAS + tRP |
| `HistoryTheorems.WindowBound` | DRAMSIM3/src/channel_state.cc:282-314 | a window list never exceeds its limit although one entry at most is dropped per activation, and guarded activations are a window apart |
| `HistoryTheorems.ActivationWindows` | DRAMSIM3/src/channel_state.cc:271-314 | the k-th and (k+4)-th ACTIVATE of a rank are tFAW apart, for GDDR the k-th and (k+32)-th t32AW |
| `Banks.BankState.constructor` | DRAMSIM3/src/bankstate.cc:5-19 | a closed bank with all times zero |
| `Banks.BankState.GetReadyCommand` | DRAMSIM3/src/bankstate.cc:22-94 | the next command the bank needs and whether its time has come |
| `Banks.BankState.UpdateState` | DRAMSIM3/src/bankstate.cc:96-165 | the state machine of every state and command; where the source aborts the result is false and nothing changes |
| `Banks.BankState.UpdateTiming` | DRAMSIM3/src/bankstate.cc:167-171 | one entry raised, the others unchanged |
| `Channel.ChannelState.constructor` | DRAMSIM3/src/channel_state.cc:4-22 | separate closed banks for every rank, group and number; empty history |
| `Channel.ChannelState.GetReadyCommand` | DRAMSIM3/src/channel_state.cc:76-115 | tables and windows give the same answer as the history |
| `Channel.ChannelState.RankReadyCommand` | DRAMSIM3/src/channel_state.cc:78-101 | the loop over a rank's banks: first detour, or all ready |
| `Channel.ChannelState.ActivationWindowOk` | DRAMSIM3/src/channel_state.cc:271-280 | the window test as the history sees it |
| `Channel.ChannelState.IsFAWReady` | DRAMSIM3/src/channel_state.cc:297-304 | the four-activate test |
| `Channel.ChannelState.Is32AWReady` | DRAMSIM3/src/channel_state.cc:306-314 | the thirty-two-activate test |
| `Channel.ChannelState.RankNeedRefresh` | DRAMSIM3/src/channel_state.cc:61-74 | appends a request, or drops the first one of the rank |
| `Channel.ChannelState.BankNeedRefresh` | DRAMSIM3/src/channel_state.cc:44-59 | appends a request, or drops the first one of the bank |
| `Channel.ChannelState.UpdateState` | DRAMSIM3/src/channel_state.cc:117-138 | every bank touched moves as the history says, no other does, and requests are dropped |
| `Channel.ChannelState.UpdateSameBankTiming` | DRAMSIM3/src/channel_state.cc:188-197 | raises exactly the one bank |
| `Channel.ChannelState.UpdateOtherBanksSameBankgroupTiming` | DRAMSIM3/src/channel_state.cc:199-212 | raises exactly the other banks of the group |
| `Channel.ChannelState.UpdateOtherBankgroupsSameRankTiming` | DRAMSIM3/src/channel_state.cc:214-229 | raises exactly the other groups of the rank |
| `Channel.ChannelState.UpdateOtherRanksTiming` | DRAMSIM3/src/channel_state.cc:231-248 | raises exactly the other ranks |
| `Channel.ChannelState.UpdateSameRankTiming` | DRAMSIM3/src/channel_state.cc:250-263 | raises exactly the banks of the rank |
| `Channel.ChannelState.UpdateActivationTimes` | DRAMSIM3/src/channel_state.cc:282-295 | the window lists after an activation |
| `Channel.ChannelState.UpdateTiming` | DRAMSIM3/src/channel_state.cc:140-186 | after the fan-out every entry of every bank is that of the longer history |
| `Channel.ChannelState.UpdateTimingAndStates` | DRAMSIM3/src/channel_state.cc:265-269 | an admitted command extends the history and the whole channel state still agrees with it |
| `QueueFacts.QueueIndexInRange` | DRAMSIM3/src/command_queue.cc:164-171 | every bank has its queue |
| `QueueFacts.RefQueuesOfRank` | DRAMSIM3/src/command_queue.cc:146-162 | the queues set aside for a rank refresh are exactly those its banks map to |
| `QueueFacts.RefQueuesOfBank` | DRAMSIM3/src/command_queue.cc:146-162 | for a bank refresh, exactly the queue of that bank, or of its rank |
| `QueueFacts.FirstReadyIsFirst` | DRAMSIM3/src/command_queue.cc:178-196 | a queue issues for an entry before which no entry can issue anything, and nothing only if none can |
| `QueueFacts.ChoiceIsNext` | DRAMSIM3/src/command_queue.cc:36-54 | every queue passed in turn is set aside or can issue nothing; without a choice that is so for all |
| `QueueFacts.DecodedBank` | DRAMSIM3/src/controller.cc:268-280 | a transaction's command is for an existing bank |
| `Turns.DispatchTurn` | DRAMSIM3/src/controller.cc:69-82 | whatever the selection picks is legal now, completes pending transactions and never reaches an exit; refresh queues stay aside |
| `Turns.CoreAfterTurn` | DRAMSIM3/src/controller.cc:229-266 | after any turn every pending address still has exactly one waiting read or write and commands sit in their queues |
| `Turns.RefreshReadies` | DRAMSIM3/src/command_queue.cc:56-75 | a refresh request leads to a PRECHARGE or to the refresh itself |
| `Steps.CoreAccept` | DRAMSIM3/src/controller.cc:161-195 | accepting keeps that accounting |
| `Steps.CoreSchedule` | DRAMSIM3/src/controller.cc:197-227 | moving a transaction to a command queue keeps it |
| `Ordering.WriteWaitsForReads` | DRAMSIM3/src/command_queue.cc:178-230 | a write a queue can issue has no pending read of its address |
| `Ordering.OrderedSchedule` | DRAMSIM3/src/controller.cc:197-227 | scheduling never puts a write before an earlier read of its address, in unified and split mode |
| `Memory.FaithfulAccept` | DRAMSIM3/src/controller.cc:161-195 | merging and forwarding give each read the last accepted write |
| `Memory.FaithfulAfterTurn` | DRAMSIM3/src/controller.cc:229-266 | issued reads and writes keep memory and buffer a refinement of an atomic memory |
| `Delivery.ConservedAfterTurn` | DRAMSIM3/src/controller.cc:238-251 | completing reads moves them, each once |
| `Delivery.NewRead` | DRAMSIM3/src/controller.cc:178-184 | a read is answered from the write buffer if and only if an earlier write of its address was accepted and is not issued yet |
| `Delivery.OneTick` | DRAMSIM3/src/controller.cc:45-63 | what is recorded of a transaction and the command log fix the one tick of its callback: for a DRAM read, that of the first READ of its address since acceptance plus the read delay, but not the tick of that READ itself |
| `Delivery.DueOnTime` | DRAMSIM3/src/controller.cc:45-63 | a transaction is due on exactly one tick |
| `RowUse.NoWastedActivation` | DRAMSIM3/src/command_queue.cc:77-110 | a precharge from the queues closes a row that served an access, with no queued hit left unless four were served |
| `RefreshProgress.RefreshTurn` | DRAMSIM3/src/command_queue.cc:56-75 | with a rank refresh at the front each turn issues it or brings it closer |
| `Runs.EveryRun` | DRAMSIM3/src/controller.cc:65-149 | all invariants hold in every run and no exit is reached |
| `RefreshSchedule.RunRequests` | DRAMSIM3/src/refresh.cc:21-66 | in every run the request of a tick is the one its number calls for |
| `RefreshSchedule.RequestNumber` | DRAMSIM3/src/refresh.cc:21-66 | the k-th request comes at k intervals and goes to rank k-1 modulo ranks |
| `RefreshSchedule.RequestHasNumber` | DRAMSIM3/src/refresh.cc:21-66 | there are no other requests |
| `RefreshSchedule.EachRankOncePerRound` | DRAMSIM3/src/refresh.cc:12-66 | each rank is asked for exactly once in `ranks` intervals, at most tREFI and more than tREFI less `ranks` apart |
| `RefreshOrder.DispatchInLine` | DRAMSIM3/src/command_queue.cc:56-75 | a refresh that is issued comes from the front of the requests |
| `RefreshOrder.ServedInOrder` | DRAMSIM3/src/refresh.cc:21-82 | in every run and under every policy the refreshes issued followed by those waiting are exactly the requests made, in order |
| `RefreshNumbers.CalendarRanks` | DRAMSIM3/src/refresh.cc:21-66 | staggered: the timer's requests are the numbered ones, the k-th for rank k modulo the ranks, counting from 0 |
| `RefreshNumbers.NumberedRefresh` | DRAMSIM3/src/refresh.cc:21-82 | staggered: in the history of every run the k-th REFRESH is for rank (k - 1) modulo the ranks and is not issued before k intervals have passed |
| `RefreshNumbers.OnlyTheFirstRank` | DRAMSIM3/src/refresh.cc:12-40 | simultaneous: every REFRESH of every history is for rank 0, the k-th not before k times tREFI |
| `RefreshNumbers.CalendarBanks` | DRAMSIM3/src/refresh.cc:48-82 | by banks: the timer's requests go through all banks in turn, groups fastest, then banks, then ranks |
| `RefreshNumbers.NumberedBankRefresh` | DRAMSIM3/src/refresh.cc:48-82 | by banks: in the history of every run the k-th refresh is for the bank of that turn and not before k times tREFIb |
| `RefreshNumbers.EachBankOncePerRound` | DRAMSIM3/src/refresh.cc:62-82 | by banks: every bank has exactly one of any ranks times banks consecutive turns |
| `ChannelTheorems.NeverAborts` | DRAMSIM3/src/controller.cc:65-280 | no run reaches "cannot find cmd", "not in read queue", "not in write queue" or a bank abort |
| `ChannelTheorems.PendingIsQueuedOnce` | DRAMSIM3/src/controller.cc:161-262 | a pending address has exactly one read or write queued, any other none, and commands are in the queue of their bank |
| `ChannelTheorems.HistoryIsLegal` | DRAMSIM3/src/controller.cc:229-266 | every issued command was allowed by bank states, tables and windows |
| `ChannelTheorems.CommandsAreSpaced` | DRAMSIM3/src/channel_state.cc:140-263 | any two commands of a run keep every table delay that relates them; what the delays are, `TablesMeanRules` and `TimingKept` say |
| `ChannelTiming.TimingKept` | DRAMSIM3/src/timing.cc:13-250 | in every run every command respects every timing rule against every earlier one, on every bank it acts on |
| `ChannelTiming.BusIsShared` | DRAMSIM3/src/timing.cc:13-30 | in every run the bursts on the data bus are apart, by tRTRS when the bus turns around after a read or changes rank before or after one; with closed pages if a bank reopens slowly enough |
| `ChannelTiming.SharedExactly` | DRAMSIM3/src/timing.cc:18-29 | with closed pages the timing rules keep the bursts apart in all histories if and only if a bank reopens slowly enough |
| `ChannelTheorems.ActivationsAreSpaced` | DRAMSIM3/src/channel_state.cc:271-314 | tFAW and t32AW hold in every run |
| `ChannelTheorems.RefreshAfterRowCycle` | DRAMSIM3/src/timing.cc:182-209 | with open pages ACTIVATE and a later refresh are tRAS + tRP apart in every run |
| `ChannelTheorems.ReadsSeeLastWrite` | DRAMSIM3/src/controller.cc:161-262 | every read called back saw the last write accepted before it |
| `ChannelTheorems.NothingLostOrDuplicated` | DRAMSIM3/src/controller.cc:45-262 | each accepted transaction is pending, returning or called back, exactly once |
| `ChannelTheorems.AcceptedIsOwedOrCalled` | DRAMSIM3/src/controller.cc:45-262 | the same per address: accepted = owed + called back |
| `ChannelTheorems.CallbackTick` | DRAMSIM3/src/controller.cc:45-63 | in every run writes and forwarded reads are called back one cycle after acceptance, DRAM reads the read delay after the first READ of their address since; never before the recorded cycle, and on it if and only if the transaction is a write, is forwarded or the read delay is at least one |
| `LateRead.LateCallback` | DRAMSIM3/src/controller.cc:247 | with a read delay below one, a read and four cycles on an idle channel end with a callback in cycle 3 for a completion recorded in cycle 2 or before |
| `LateRead.SomeFast` | DRAMSIM3/src/controller.cc:247 | there are valid configurations for that run |
| `ChannelTheorems.WritesKeepOrder` | DRAMSIM3/src/command_queue.cc:178-230 | in every run no write can issue while an earlier read of its address is pending |
| `ChannelTheorems.PrechargesWasteNothing` | DRAMSIM3/src/command_queue.cc:77-110 | in every run precharges from the queues waste no activation |
| `Arbitration.SelectionInTurn` | DRAMSIM3/src/controller.cc:65-82 | in every run every cycle issues for the refresh at the front if it can; otherwise for the first able entry of the next able queue not of that refresh; nothing only if there is none |
| `Arbitration.CandidateMeans` | DRAMSIM3/src/command_queue.cc:77-110 | an entry opens its row, accesses it or closes another one exactly when the timing rules allow, no earlier read of the same place is queued before a write, and a row to be closed is not wanted or has served four |
| `Arbitration.NoNeedlessIdling` | DRAMSIM3/src/command_queue.cc:36-110 | in every run, once nothing issued holds anything back, a cycle issues a command while a queue that is not set aside has an entry |
| `Scheduling.ScheduledInTurn` | DRAMSIM3/src/controller.cc:198-227 | in every run every cycle moves the first transaction with room, of the queue whose turn it is by the watermarks; a drained write held back by a read stops the draining; nothing moves only if none has room |
| `Scheduling.QueuesStayBounded` | DRAMSIM3/src/controller.cc:150-227 | in every run no queue exceeds its capacity and no more writes are to be drained than the buffer holds |
| `Scheduling.RefusedWhenFull` | DRAMSIM3/src/controller.cc:150-159 | a transaction is refused if and only if its queue is full, and otherwise recorded as it came |
| `Scheduling.DrainingTakesItsWrites` | DRAMSIM3/src/controller.cc:200-221 | in every run draining takes as many writes as it set out to, unless a pending read of the write at hand stops it |
| `IssuedCommands.IssuedIn` | DRAMSIM3/src/controller.cc:65-82 | every entry of a history was appended by one cycle of the run, on its own clock |
| `IssuedCommands.WrittenAfterReads` | DRAMSIM3/src/command_queue.cc:178-230 | for every WRITE in the history of every run, no read of its address was pending when it was issued |
| `IssuedCommands.ClosedAfterUse` | DRAMSIM3/src/command_queue.cc:77-110 | for every PRECHARGE in the history of every run, the refresh at the front needed it, or its row had served an access and no queued command hit it unless it had served four |
| `ChannelTheorems.RefreshIsBounded` | DRAMSIM3/src/command_queue.cc:56-75 | a rank refresh at the front is issued within banks * max(1, tPPD) + max(0, tRP) of the times its rank is ready, whatever arrives meanwhile |
| `RefreshEngine.Refresh.ClockTick` | DRAMSIM3/src/refresh.cc:21-27 | the timer as the model's function |
| `RefreshEngine.Refresh.InsertRefresh` | DRAMSIM3/src/refresh.cc:29-60 | which request is made |
| `RefreshEngine.Refresh.Iterate` | DRAMSIM3/src/refresh.cc:62-82 | whose turn is next |
| `CommandQueues.CommandQueue.ArbitratePrecharge` | DRAMSIM3/src/command_queue.cc:77-110 | the three loops decide as the model's predicate |
| `CommandQueues.CommandQueue.HasDependency` | DRAMSIM3/src/command_queue.cc:218-230 | an earlier read of the same place in the queue |
| `CommandQueues.CommandQueue.GetFirstReadyInQueue` | DRAMSIM3/src/command_queue.cc:178-196 | the entry that issues is one before which none can; none is found only if no entry can issue |
| `CommandQueues.CommandQueue.EraseRWCommand` | DRAMSIM3/src/command_queue.cc:198-208 | removes the first match and nothing else; without one the result is false and nothing changes |
| `CommandQueues.CommandQueue.GetCommandToIssue` | DRAMSIM3/src/command_queue.cc:36-54 | the next queue in turn that is not set aside and can issue, and its first entry that can; nothing only if no such queue can |
| `CommandQueues.CommandQueue.GetRefQIndices` | DRAMSIM3/src/command_queue.cc:146-162 | the queues of the refresh |
| `CommandQueues.CommandQueue.FinishRefresh` | DRAMSIM3/src/command_queue.cc:56-75 | the step towards a refresh and which queues stay aside |
| `CommandQueues.CommandQueue.AddCommand` | DRAMSIM3/src/command_queue.cc:127-136 | appends to the queue of the bank if and only if it has room; otherwise the result is false and nothing changes |
| `CommandQueues.CommandQueue.WillAcceptCommand` | DRAMSIM3/src/command_queue.cc:112-115 | room in the queue of a bank |
| `CommandQueues.CommandQueue.QueueEmpty` | DRAMSIM3/src/command_queue.cc:117-124 | no command anywhere |
| `Controllers.Controller.constructor` | DRAMSIM3/src/controller.cc:9-43 | the initial state |
| `Controllers.Controller.WillAcceptTransaction` | DRAMSIM3/src/controller.cc:151-159 | room in the transaction queue |
| `Controllers.Controller.AddTransaction` | DRAMSIM3/src/controller.cc:161-195 | merging, forwarding and queueing as the model's function |
| `Controllers.Controller.ReturnDoneTrans` | DRAMSIM3/src/controller.cc:45-63 | hands out due transactions in queue order until none is left |
| `Controllers.Controller.CompleteReads` | DRAMSIM3/src/controller.cc:244-251 | all pending reads of an address leave together |
| `Controllers.Controller.IssueCommand` | DRAMSIM3/src/controller.cc:229-266 | pending queues, return queue and channel after a command |
| `Controllers.Controller.ScheduleTransaction` | DRAMSIM3/src/controller.cc:197-227 | write draining and the first transaction that fits |
| `Controllers.Controller.DispatchCommand` | DRAMSIM3/src/controller.cc:69-82 | refresh first, then the queues |
| `Controllers.Controller.ClockTick` | DRAMSIM3/src/controller.cc:65-149 | one cycle, from invariant to invariant, never aborting |
| `DramSystem.BaseDRAMSystem.constructor` | DRAMSIM3/src/dram_system.cc:96-114 | one separate controller per channel |
| `DramSystem.BaseDRAMSystem.GetChannel` | DRAMSIM3/src/dram_system.cc:31-34 | the decoded channel, always an existing one |
| `DramSystem.BaseDRAMSystem.AddTransaction` | DRAMSIM3/src/dram_system.cc:128-145 | steps the decoded channel and no other |
| `DramSystem.BaseDRAMSystem.ClockTick` | DRAMSIM3/src/dram_system.cc:147-170 | callbacks, then ticks: every channel makes exactly one cycle of its machine |
| `Outstanding.OwedTick` | DRAMSIM3/src/controller.cc:65-149 | a tick changes nothing about what a controller owes |
| `Crossbar.InsertOk` | DRAMSIM3/src/hmc.cc:397-442 | a new request keeps all laws of the crossbar |
| `Crossbar.MoveRequestOk` | DRAMSIM3/src/hmc.cc:470-490 | crossing or ageing keeps them, and the destination exists |
| `Crossbar.MoveResponseOk` | DRAMSIM3/src/hmc.cc:520-540 | the same for responses |
| `Crossbar.ToVaultOk` | DRAMSIM3/src/hmc.cc:446-459 | handing a request to its vault keeps them |
| `Crossbar.ToCpuOk` | DRAMSIM3/src/hmc.cc:496-509 | calling back keeps them |
| `Crossbar.ReplyFinds` | DRAMSIM3/src/hmc.cc:621-635 | a finished address has a table entry |
| `Crossbar.ReplyOk` | DRAMSIM3/src/hmc.cc:621-635 | taking the entry out keeps the laws |
| `Crossbar.EveryoneInTurn` | DRAMSIM3/src/hmc.cc:589-613 | each position with a positive age is listed exactly once, and no other |
| `Crossbar.RefusedWhenFull` | DRAMSIM3/src/hmc.cc:419-442 | a request is refused if and only if every link is full; otherwise the first link with room in turn takes it |
| `CubeProgress.RequestsCross` | DRAMSIM3/src/hmc.cc:462-491 | in a logic cycle the head of every link crosses unless its quadrant is full or the port busy |
| `CubeProgress.VaultsAreFed` | DRAMSIM3/src/hmc.cc:444-460 | in a logic cycle the head of every quadrant goes to its vault unless its flits have not passed, responses fill their queue or the vault's queue is full |
| `CubeProgress.ResponsesCross` | DRAMSIM3/src/hmc.cc:512-541 | the same for responses crossing to their links |
| `CubeProgress.LinksDeliver` | DRAMSIM3/src/hmc.cc:494-508 | every link hands over the response at its head exactly when its flits have passed |
| `Cube.DrainResponses` | DRAMSIM3/src/hmc.cc:494-542 | keeps the laws of the crossbar; nothing enters and callbacks only grow |
| `Cube.DrainRequests` | DRAMSIM3/src/hmc.cc:444-492 | keeps the laws of crossbar and vaults together |
| `Cube.MemoryCycle` | DRAMSIM3/src/hmc.cc:544-567 | what the vaults owe stays what the crossbar thinks is at the vaults |
| `CubeSystem.ClockTick` | DRAMSIM3/src/hmc.cc:569-587 | every law holds after it, and one memory cycle went by |
| `CubeSystem.AlwaysInPhase` | DRAMSIM3/src/hmc.cc:569-587 | after n ticks the logic clock is the least multiple of its period not below n memory periods |
| `CubeSystem.LogicCycles` | DRAMSIM3/src/hmc.cc:569-587 | exactly ceil(n * ps_per_dram / ps_per_logic) logic cycles have run |
| `CubeSystem.TableBalance` | DRAMSIM3/src/hmc.cc:397-542 | for every address, table entries = requests on links + in quadrants + owed by vaults |
| `CubeSystem.OneCallbackEach` | DRAMSIM3/src/hmc.cc:397-542 | each inserted request has exactly one response, so at most one callback, with its own address, kind, link and length |
| `CubeSystem.CallbacksFind` | DRAMSIM3/src/hmc.cc:621-635 | the table look-up of a vault's callback never fails |
| `CubeSystem.AgesTell` | DRAMSIM3/src/hmc.cc:397-542 | an age counter is positive exactly when its queue has a front |
| `CubeDelivery.VaultsGetTheirRequests` | DRAMSIM3/src/hmc.cc:444-460 | in every run, for every vault, address, kind and data: the transactions the vault has taken are the requests inserted for it less those still on links and in quadrants |
| `CubeDelivery.VaultReadsSeeLastWrite` | DRAMSIM3/src/hmc.cc:615-619 | in every run a read that a vault called back saw the last write of its address the vault had taken before it |
| `CubeTrafficRuns.VaultsTakeInOrder` | DRAMSIM3/src/hmc.cc:615-619 | in every run a vault has taken exactly the requests handed to it, in that order |
| `CubeTrafficRuns.LinksKeepOrder` | DRAMSIM3/src/hmc.cc:444-491 | in every run the requests of one link for one quadrant reach the vaults in the order they came |
| `CubeTrafficRuns.PortsKeepTheirRate` | DRAMSIM3/src/hmc.cc:462-541 | in every run no port of the crossbar passes more than two flits per logic cycle |
| `CubeTrafficRuns.NothingLeavesEarly` | DRAMSIM3/src/hmc.cc:444-541 | in every run a request reaches its vault, and a response the CPU, no sooner after crossing than its flits take |
| `Hmc.HMCMemorySystem.constructor` | DRAMSIM3/src/hmc.cc:243-297 | empty queues over fresh vaults |
| `Hmc.HMCMemorySystem.InsertReqToLink` | DRAMSIM3/src/hmc.cc:397-417 | request, response entry and age together, or nothing |
| `Hmc.HMCMemorySystem.InsertHMCReq` | DRAMSIM3/src/hmc.cc:419-442 | the first link with room from the next one on; refused only when all are full |
| `Hmc.HMCMemorySystem.WillAcceptTransaction` | DRAMSIM3/src/hmc.cc:330-341 | true exactly when an insertion would succeed |
| `Hmc.HMCMemorySystem.AddTransaction` | DRAMSIM3/src/hmc.cc:343-395 | one block for the decoded vault; sizes without a packet type abort |
| `Hmc.HMCMemorySystem.BuildAgeQueue` | DRAMSIM3/src/hmc.cc:589-613 | the insertion loop |
| `Hmc.HMCMemorySystem.CrossRequests` | DRAMSIM3/src/hmc.cc:461-491 | every link in turn, each front() safe |
| `Hmc.HMCMemorySystem.DrainRequests` | DRAMSIM3/src/hmc.cc:444-492 | quadrants to vaults, then links to quadrants |
| `Hmc.HMCMemorySystem.DrainResponses` | DRAMSIM3/src/hmc.cc:494-542 | links to CPU, then quadrants to links |
| `Hmc.HMCMemorySystem.VaultCallback` | DRAMSIM3/src/hmc.cc:621-635 | the entry moves to its quadrant |
| `Hmc.HMCMemorySystem.DRAMClockTick` | DRAMSIM3/src/hmc.cc:544-567 | all vaults call back and tick, every callback finding its entry |
| `Hmc.HMCMemorySystem.ClockTick` | DRAMSIM3/src/hmc.cc:569-587 | the two clock domains as the model's function |
| `Hmc.SetClockRatio` | DRAMSIM3/src/hmc.cc:305-319 | the logic period is the longest whole one, up to the memory period, at which a flit per cycle keeps up with the link; it is positive if and only if the speed is at most a million |
| `SenseBarrier.RunOk` | riscv-tests/common/util.h:69-93 | the invariant of every interleaving |
| `SenseBarrier.NobodyLeavesEarly` | riscv-tests/common/util.h:69-93 | whoever leaves a round, all have entered it |
| `SenseBarrier.RoundsStayClose` | riscv-tests/common/util.h:69-93 | no two threads are more than one round apart |
| `SenseBarrier.EveryoneCanLeave` | riscv-tests/common/util.h:69-93 | once all have entered, a waiting thread leaves at its next look or after the last one's steps |
| `SequenceBarrier.RunOk` | riscv-tests/common/torture_util.h:431-442 | the invariant of every interleaving |
| `SequenceBarrier.NobodyLeavesEarly` | riscv-tests/common/torture_util.h:431-442 | whoever leaves a round, all have entered it |
| `SequenceBarrier.RoundsStayClose` | riscv-tests/common/torture_util.h:431-442 | no two threads are more than one round apart |
| `SequenceBarrier.NumbersAtEntry` | riscv-tests/common/torture_util.h:431-442 | sequence number = signal = completed rounds whenever a thread is about to enter |
| `SequenceBarrier.EveryoneCanLeave` | riscv-tests/common/torture_util.h:431-442 | once all have entered, a waiting thread leaves at its next look or after the last one's steps |
| `PairedTest.StayClose` | riscv-tests/common/torture_util.h:168-174 | the pairwise sync keeps two harts within one phase, whatever they compute and check |
| `PairedTest.NeverFails` | riscv-tests/common/torture_util.h:192-287 | if both orders of the two AMOs satisfy the check, no interleaving makes it fail, in any iteration and after any number of earlier ones |
| `PairedFaults.FailsExactly` | riscv-tests/common/torture_util.h:195-238 | a test reports an error in some interleaving if and only if its check rejects something the two operations can leave behind |
| `AmoTests.ArithmeticTestNeverFails` | riscv-tests/torture/amo-megazord/amo-megazord.c:14-44 | the add, max, maxu, min and minu tests, with the initial values the program passes, never report an error |
| `AmoTests.BitwiseTestNeverFails` | riscv-tests/torture/amo-megazord/amo-megazord.c:18-28 | the same for xor, and, or, checked against a reference computation of its own |
| `AmoTests.BitwiseBits` | riscv-tests/common/torture_util.h:353-363 | every bit of the result: set in exactly one operand, in both, in at least one |
| `AmoTests.ArithmeticMeans` | riscv-tests/common/torture_util.h:349-397 | the sum modulo two to the 64; otherwise one of the two values, the greater or lesser as signed or unsigned |
| `AmoTests.LostArithmetic` | riscv-tests/common/torture_util.h:222-234 | with one of the two AMOs lost the check accepts if and only if it would have changed nothing |
| `AmoTests.LostBitwise` | riscv-tests/common/torture_util.h:222-234 | the same for xor, and, or |
| `AmoTests.WrongUnitIsFound` | riscv-tests/common/torture_util.h:195-238 | a unit is reported in some interleaving if and only if it miscomputes on the operands of some iteration |
| `AmoTests.SwapTestNeverFails` | riscv-tests/common/torture_util.h:240-287 | the swap test never reports an error |
| `AmoTests.LostSwap` | riscv-tests/common/torture_util.h:263-283 | a lost swap is always reported |
| `CoherencyChecker.NeverFails` | riscv-tests/common/coh_checker.h:131-254 | no interleaving sets the failed flag |
| `CoherencyChecker.TokenIsExclusive` | riscv-tests/common/coh_checker.h:135-187 | at most one hart works on a row, and it is the one in the recipient byte |
| `CoherencyChecker.CheckIsDue` | riscv-tests/common/coh_checker.h:146-154 | at a check the hops are maxHops+1 or maxHops+2, the saved words are intact and payload minus private payload is the hops |
| `CoherencyChecker.RestingRow` | riscv-tests/common/coh_checker.h:135-187 | whenever nobody holds a row its data words are restored and its payload matches its hops, also after the test was stopped; only a row its owner stopped with has its hops used up |
| `CoherencyChecker.RowIsMarked` | riscv-tests/common/coh_checker.h:141-145 | in every interleaving a row being worked on carries the marks of its holder and no others |
| `CoherencyChecker.MarksDiffer` | riscv-tests/common/coh_checker.h:142-144 | no two harts, rows or words have the same mark |
| `CoherencyFaults.WrongWordsFound` | riscv-tests/common/coh_checker.h:152-153 | errors are counted if and only if some saved word differs |
| `CoherencyFaults.FaultIsReported` | riscv-tests/common/coh_checker.h:150-175 | from any memory contents, a wrong word or payload at a check sets the failed flag within ten more steps of that hart, in every interleaving, unless it ends the test |
| `Sums.Exchange` | DRAMSIM3/src/thermal_solver.c:260-272 | counting along one direction first or the other gives the same number |
| `ThermalMatrix.RowSorted` | DRAMSIM3/src/thermal_solver.c:374-388 | columns of a row increase strictly |
| `ThermalMatrix.RowTotal` | DRAMSIM3/src/thermal_solver.c:355-373 | row sums are 0, and 1/Ramb on heat-sink rows |
| `ThermalMatrix.Symmetric` | DRAMSIM3/src/thermal_solver.c:295-393 | with an entry its mirror image is in the matrix |
| `ThermalMatrix.MatrixLength` | DRAMSIM3/src/thermal_solver.c:260-281 | one entry per neighbour and one per cell |
| `ThermalMatrix.MatrixInOrder` | DRAMSIM3/src/thermal_solver.c:295-393 | rows come in order, each sorted, so no position occurs twice |
| `ThermalEntries.OffDiagonal` | DRAMSIM3/src/thermal_solver.c:302-353 | two cells have an entry if and only if they are neighbours, and its value is minus the inverse of the resistance between them: half of each cell's vertical one, or the layer's horizontal one |
| `ThermalEntries.OnDiagonal` | DRAMSIM3/src/thermal_solver.c:355-373 | one entry per cell: the conductances to all neighbours, and to ambient from the heat sink |
| `ThermalAssembly.CountEntries` | DRAMSIM3/src/thermal_solver.c:260-281 | the counting loop gives the exact number of entries |
| `ThermalAssembly.PutLinks` | DRAMSIM3/src/thermal_solver.c:302-353 | the six conditional entries of a row |
| `ThermalAssembly.PutDiagonal` | DRAMSIM3/src/thermal_solver.c:355-373 | minus the rest of the row, plus the way to ambient |
| `ThermalAssembly.SortRow` | DRAMSIM3/src/thermal_solver.c:374-388 | the swaps stop with the diagonal between smaller and larger columns |
| `ThermalAssembly.FillRow` | DRAMSIM3/src/thermal_solver.c:302-388 | exactly the row of the matrix, in place |
| `ThermalAssembly.CalculateMidx` | DRAMSIM3/src/thermal_solver.c:258-420 | the array holds exactly the matrix: the fill loop writes as many entries as were counted |
| `ThermalAssembly.Compress` | DRAMSIM3/src/thermal_solver.c:475-485 | each row occupies exactly the places between its two starts |
| `ThermalAssembly.RowsAreColumns` | DRAMSIM3/src/thermal_solver.c:493 | reading the compressed rows as columns gives the same matrix |
| `ThermalStep.Update` | DRAMSIM3/src/thermal_solver.c:658-680 | the blocked loop adds every entry's share once |
| `ThermalStep.Transient` | DRAMSIM3/src/thermal_solver.c:650-703 | the buffers that change places hold the iterated step |
| `ThermalStep.CellStep` | DRAMSIM3/src/thermal_solver.c:658-680 | for the assembled matrix each cell gets the textbook explicit Euler step |
| `ThermalStep.MaximumPrinciple` | DRAMSIM3/src/thermal_solver.c:650-688 | with a stable step, and power in every cell at least the ambient term of the heat sink, temperatures never fall below a bound; with power at most that term they never rise above one; for any number of steps |
| `ThermalEpochs.MaximumStep` | DRAMSIM3/src/thermal.cc:735-749 | the step is the least of 100 and every capacity over its diagonal entry |
| `ThermalEpochs.StepsPerEpoch` | DRAMSIM3/src/thermal.cc:753-757 | the least number from ten on whose steps are shorter than that |
| `ThermalEpochs.StaysBetween` | DRAMSIM3/src/thermal_solver.c:650-688 | with such steps and no power temperatures stay in any interval that holds the initial and the ambient ones |
| `ThermalEpochs.RunIdle` | DRAMSIM3/src/thermal.cc:625-634 | assembly, step choice and any number of epochs together keep that interval |
| `ThermalEpochs.Prepare` | DRAMSIM3/src/thermal.cc:688-760 | the assembled matrix and the chosen number of steps give a step every cell allows |
| `ThermalEpochs.RunEpochs` | DRAMSIM3/src/thermal.cc:554-634 | epochs of any number, each with its own power map: with power at least the ambient term no temperature falls below a bound that the initial and the ambient ones respect, with at most that term none rises above one |

## Left out

- Self-refresh: `enable_self_refresh` is taken as off, its default.
- HBM dual command issue: `enable_hbm_dual_cmd` is taken as off.
- Eventual service of transactions: it does not hold, since a write that waits for an unscheduled read can keep the write buffer selected and row hits can starve a miss.
- Bank-level refresh has no latency bound here, and REFRESH_BANK puts no delay on its own bank, as in the code.
- Wrap-around of 64-bit clocks and of negative sums: clocks and delays are unbounded integers.
- Data: the simulator moves none. What a write carries, numbers of transactions and requests, and callbacks are kept for the record only; a merged write keeps the newest data.
- `std::multimap` is a list in insertion order; `find` takes the first entry of a key.
- The `assert(ok)` in `JedecDRAMSystem::AddTransaction`: a refused transaction is refused and nothing stops.
- HMCMemorySystem: packet lengths of request types other than plain blocks are parameters of a request.
- An order by age in `BuildAgeQueue` and a bound on the quadrant response queues: the code has neither.
- `IdealDRAMSystem`, statistics, traces, power, JSON and text output, INI parsing and CPU drivers: counters and I/O.
- The timing parameters are arbitrary numbers; how `configuration.cc` reads them is not modelled.
- The harts of the protocols are values stepped one shared access at a time, as interleaving needs; nothing is updated in place there.
- `lfsr2`, `brand` and the cycle counter: random values are arbitrary functions or numbers.
- Weak memory: sequential consistency throughout. Fences and delays are no steps.
- LR/SC loops of the AMO tests, and the non-atomic variants written to try out the tests.
- The iteration limits of the tests: runs of any length are covered, and so are the shorter ones.
- The coherency checker's last circuit, which returns before its report, and its progress messages.
- ThermalStep.MaximumPrinciple: exact reals instead of doubles, and the power of each cell is given; the transposed index with which the solver spreads the power map is not modelled.
- ChannelTiming.BusIsShared: with closed pages the condition on the parameters suffices for every run; `SharedExactly` shows it necessary for the histories the rules admit, not for runs of the scheduler.
- AddressMap.SetAddressMapping: structures with fewer columns than the burst length are excluded; there the code shifts by a negative number (`configuration.cc:384-435`), which C++ leaves undefined.
- Hmc.SetClockRatio: link widths of 0 or above 128 and link speeds below one flit are excluded; the code divides by zero or converts an infinite quotient there.
- Layers without TSVs: every vertical resistance is a positive real.
- Power maps, placement and the SuperLU calls.

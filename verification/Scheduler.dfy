/** The controller of one channel as a function from state to state: refresh timer, command queues,
    transaction queues and return queue, with the command history in place of timing tables.
    `Abort` results are the places where the simulator exits. The classes `Refresh`, `CommandQueue`
    and `Controller` are proved to do exactly this. */
module Scheduler {
  import opened DramTypes
  import opened Counting
  import opened DramConfig
  import opened History

  // ---- state --------------------------------------------------------------------------------

  /** `Refresh` */
  datatype RefreshState = RefreshState(clk: int, nextRank: int, nextGroup: int, nextBank: int)

  /** `CommandQueue` */
  datatype QueueState = QueueState(queues: seq<seq<Command>>, idx: int, inRef: bool, refIdx: set<int>, clk: int)

  /** A transaction as the CPU handed it over; `data` is what a write carries. */
  datatype Accepted = Accepted(addr: nat, isWrite: bool, clk: int, data: int)

  datatype Callback = Callback(trans: Transaction, clk: int)

  /** What an observer writes down; the simulator moves no data. `buffer` holds the data of writes that
      were accepted but not issued, `dram` what issued writes left behind, `got` the value each answered
      read saw and `returned` the callbacks in order. */
  datatype Record = Record(accepted: seq<Accepted>, dram: map<int, int>, buffer: map<int, int>,
                           got: map<nat, int>, returned: seq<Callback>)

  /** `Controller` */
  datatype Ctrl = Ctrl(
    clk: int, log: Log, refreshQ: seq<Command>, ref: RefreshState, cq: QueueState,
    unified: seq<Transaction>, readQ: seq<Transaction>, writeBuf: seq<Transaction>,
    pendingRd: seq<Transaction>, pendingWr: map<int, Transaction>, returnQ: seq<Transaction>,
    draining: int, rec: Record)

  // ---- refresh timer ------------------------------------------------------------------------

  function RankRequest(rank: int): Command {
    Command(Refresh, Address(-1, rank, -1, -1, -1, -1), -1)
  }

  function BankRequest(b: BankId): Command {
    Command(RefreshBank, Address(-1, b.rank, b.group, b.bank, -1, -1), -1)
  }

  /** `InsertRefresh`: the simultaneous policy stops after the first rank. */
  function NextRequest(c: Config, r: RefreshState): Command {
    match c.refreshPolicy
    case RankLevelSimultaneous => RankRequest(0)
    case RankLevelStaggered => RankRequest(r.nextRank)
    case BankLevelStaggered => BankRequest(BankId(r.nextRank, r.nextGroup, r.nextBank))
  }

  /** `IterateNext` */
  function IterateNext(c: Config, r: RefreshState): RefreshState
    requires c.Valid()
  {
    match c.refreshPolicy
    case RankLevelSimultaneous => r
    case RankLevelStaggered => r.(nextRank := (r.nextRank + 1) % c.ranks)
    case BankLevelStaggered =>
      var g := (r.nextGroup + 1) % c.bankgroups;
      var b := if g == 0 then (r.nextBank + 1) % c.banksPerGroup else r.nextBank;
      var k := if g == 0 && b == 0 then (r.nextRank + 1) % c.ranks else r.nextRank;
      RefreshState(r.clk, k, g, b)
  }

  predicate RefreshDue(c: Config, clk: int)
    requires c.Valid()
  {
    clk % c.RefreshInterval() == 0 && clk > 0
  }

  /** `Refresh::ClockTick` */
  function RefreshAfter(c: Config, r: RefreshState, q: seq<Command>): (RefreshState, seq<Command>)
    requires c.Valid()
  {
    if RefreshDue(c, r.clk) then (IterateNext(c, r).(clk := r.clk + 1), q + [NextRequest(c, r)])
    else (r.(clk := r.clk + 1), q)
  }

  function RefreshTick(c: Config, s: Ctrl): Ctrl
    requires c.Valid()
  {
    var (r, q) := RefreshAfter(c, s.ref, s.refreshQ);
    s.(ref := r, refreshQ := q)
  }

  // ---- command queues -----------------------------------------------------------------------

  function NumQueues(c: Config): nat {
    match c.queueStructure
    case PerRank => c.ranks
    case PerBank => c.Banks() * c.ranks
  }

  /** `GetQueueIndex` */
  function QueueIndex(c: Config, b: BankId): int {
    match c.queueStructure
    case PerRank => b.rank
    case PerBank => b.rank * c.Banks() + b.group * c.banksPerGroup + b.bank
  }

  /** `ArbitratePrecharge` */
  ghost predicate MayPrecharge(log: Log, q: seq<Command>, i: nat)
    requires i < |q|
  {
    var b := q[i].Bank();
    && (forall j :: 0 <= j < i ==> q[j].Bank() != b)
    && ((forall j :: i <= j < |q| ==> !(q[j].addr.row == OpenRow(log, b) && q[j].Bank() == b))
        || RowHitCount(log, b) >= 4)
  }

  /** `HasRWDependency` */
  ghost predicate HasRWDependency(q: seq<Command>, i: nat)
    requires i < |q|
  {
    exists j :: 0 <= j < i && q[j].kind.IsRead() && q[j].addr.row == q[i].addr.row
      && q[j].addr.column == q[i].addr.column && q[j].addr.bank == q[i].addr.bank && q[j].addr.group == q[i].addr.group
  }

  ghost predicate AllAskable(q: seq<Command>) {
    forall i :: 0 <= i < |q| ==> Askable(q[i].kind)
  }

  /** What entry `i` of a queue can issue now. */
  ghost function Candidate(c: Config, log: Log, clk: int, q: seq<Command>, i: nat): Option<Command>
    requires i < |q| && AllAskable(q)
  {
    var r := ReadyCommand(c, log, q[i], clk);
    if r.None? then None
    else if r.value.kind.Precharge? then (if MayPrecharge(log, q, i) then r else None)
    else if r.value.kind.IsWrite() then (if HasRWDependency(q, i) then None else r)
    else r
  }

  /** `GetFirstReadyInQueue`, from entry `i` on. */
  ghost function FirstReady(c: Config, log: Log, clk: int, q: seq<Command>, i: nat): Option<Command>
    requires i <= |q| && AllAskable(q)
    decreases |q| - i
  {
    if i == |q| then None
    else
      var r := Candidate(c, log, clk, q, i);
      if r.Some? then r else FirstReady(c, log, clk, q, i + 1)
  }

  function NextIdx(c: Config, idx: int): int {
    if idx + 1 == NumQueues(c) then 0 else idx + 1
  }

  ghost predicate QueuesOk(c: Config, cq: QueueState) {
    && |cq.queues| == NumQueues(c) && 0 <= cq.idx < NumQueues(c)
    && forall q :: 0 <= q < |cq.queues| ==> AllAskable(cq.queues[q])
  }

  /** The loop of `GetCommandToIssue` with `n` rounds to go: the command and the queue it came from. */
  ghost function Choose(c: Config, log: Log, cq: QueueState, n: nat): (Option<Command>, int)
    requires QueuesOk(c, cq)
    decreases n
  {
    if n == 0 then (None, cq.idx)
    else
      var idx := NextIdx(c, cq.idx);
      if cq.inRef && idx in cq.refIdx then Choose(c, log, cq.(idx := idx), n - 1)
      else
        var r := FirstReady(c, log, cq.clk, cq.queues[idx], 0);
        if r.Some? then (r, idx) else Choose(c, log, cq.(idx := idx), n - 1)
  }

  /** Position of the queued command that `cmd` stands for. */
  function FindCommand(q: seq<Command>, cmd: Command, i: nat): Option<nat>
    requires i <= |q|
    decreases |q| - i
  {
    if i == |q| then None
    else if cmd.hex == q[i].hex && cmd.kind == q[i].kind then Some(i)
    else FindCommand(q, cmd, i + 1)
  }

  /** `EraseRWCommand` */
  function EraseRWCommand(c: Config, queues: seq<seq<Command>>, cmd: Command): Outcome<seq<seq<Command>>> {
    var q := QueueIndex(c, cmd.Bank());
    if !(0 <= q < |queues|) then Abort(CannotFindCommand)
    else
      match FindCommand(queues[q], cmd, 0)
      case None => Abort(CannotFindCommand)
      case Some(i) =>
        if i < |queues[q]| then Ok(queues[q := Remove(queues[q], i)]) else Abort(CannotFindCommand)
  }

  /** `GetCommandToIssue` */
  ghost function GetCommandToIssue(c: Config, log: Log, cq: QueueState): Outcome<(Option<Command>, QueueState)>
    requires QueuesOk(c, cq)
  {
    var (cmd, idx) := Choose(c, log, cq, NumQueues(c));
    var cq' := cq.(idx := idx);
    if cmd.Some? && cmd.value.kind.IsColumn() then
      var queues :- EraseRWCommand(c, cq.queues, cmd.value);
      Ok((cmd, cq'.(queues := queues)))
    else
      Ok((cmd, cq'))
  }

  /** `GetRefQIndices` */
  function RefQueues(c: Config, ref: Command): set<int> {
    if ref.kind.Refresh? then
      match c.queueStructure
      case PerBank => set i | 0 <= i < NumQueues(c) && c.Banks() > 0 && i / c.Banks() == ref.addr.rank
      case PerRank => {ref.addr.rank}
    else
      {QueueIndex(c, ref.Bank())}
  }

  /** `FinishRefresh` */
  ghost function FinishRefresh(c: Config, log: Log, ref: Command, cq: QueueState): (Option<Command>, QueueState)
    requires Askable(ref.kind)
  {
    var cq' := if cq.inRef then cq else cq.(refIdx := cq.refIdx + RefQueues(c, ref), inRef := true);
    var cmd := ReadyCommand(c, log, ref, cq.clk);
    if cmd.Some? && cmd.value.kind.IsRefresh() then (cmd, cq'.(refIdx := {}, inRef := false)) else (cmd, cq')
  }

  /** The refresh at the front goes first; when it has nothing to issue the queues get their turn. */
  ghost function SelectCommand(c: Config, s: Ctrl): Outcome<(Option<Command>, QueueState)>
    requires QueuesOk(c, s.cq) && (s.refreshQ != [] ==> Askable(s.refreshQ[0].kind))
  {
    var (cmd, cq) := if s.refreshQ == [] then (None, s.cq) else FinishRefresh(c, s.log, s.refreshQ[0], s.cq);
    if cmd.Some? then Ok((cmd, cq)) else GetCommandToIssue(c, s.log, cq)
  }

  // ---- issuing ------------------------------------------------------------------------------

  function ReadsOf(q: seq<Transaction>, addr: int): seq<Transaction> {
    if q == [] then [] else (if q[0].addr == addr then [q[0]] else []) + ReadsOf(q[1..], addr)
  }

  function OtherReads(q: seq<Transaction>, addr: int): seq<Transaction> {
    if q == [] then [] else (if q[0].addr == addr then [] else [q[0]]) + OtherReads(q[1..], addr)
  }

  function CompleteAt(q: seq<Transaction>, clk: int): seq<Transaction> {
    if q == [] then [] else [q[0].(complete := clk)] + CompleteAt(q[1..], clk)
  }

  function Lookup(m: map<int, int>, a: int): int {
    if a in m then m[a] else 0
  }

  /** Every read in `q` sees `v`. */
  function Answer(got: map<nat, int>, q: seq<Transaction>, v: int): map<nat, int>
    decreases q
  {
    if q == [] then got else Answer(got[q[0].id := v], q[1..], v)
  }

  /** The part of `IssueCommand` that completes transactions. */
  function CompleteTransactions(c: Config, s: Ctrl, cmd: Command): Outcome<Ctrl> {
    if cmd.kind.IsRead() then
      var served := ReadsOf(s.pendingRd, cmd.hex);
      if served == [] then Abort(NotInReadQueue)
      else Ok(s.(pendingRd := OtherReads(s.pendingRd, cmd.hex),
                 returnQ := s.returnQ + CompleteAt(served, s.clk + c.ReadDelay()),
                 rec := s.rec.(got := Answer(s.rec.got, served, Lookup(s.rec.dram, cmd.hex)))))
    else if cmd.kind.IsWrite() then
      if cmd.hex !in s.pendingWr then Abort(NotInWriteQueue)
      else Ok(s.(pendingWr := s.pendingWr - {cmd.hex},
                 rec := s.rec.(dram := s.rec.dram[cmd.hex := Lookup(s.rec.buffer, cmd.hex)],
                               buffer := s.rec.buffer - {cmd.hex})))
    else
      Ok(s)
  }

  /** `UpdateTimingAndStates` */
  ghost function UpdateChannel(c: Config, s: Ctrl, cmd: Command): Outcome<Ctrl> {
    if forall b :: c.HasBank(b) && cmd.Touches(b) ==> Advance(RowOf(s.log, b), cmd).Some? then
      Ok(s.(log := s.log + [Issue(s.clk, cmd)], refreshQ := RequestsAfter(s.refreshQ, cmd)))
    else
      Abort(IllegalBankCommand)
  }

  /** `IssueCommand` */
  ghost function IssueCommand(c: Config, s: Ctrl, cmd: Command): Outcome<Ctrl> {
    var s1 :- CompleteTransactions(c, s, cmd);
    UpdateChannel(c, s1, cmd)
  }

  /** The first half of `ClockTick`: pick a command and issue it. */
  ghost function Dispatch(c: Config, s: Ctrl): Outcome<Ctrl>
    requires QueuesOk(c, s.cq) && (s.refreshQ != [] ==> Askable(s.refreshQ[0].kind))
  {
    var (cmd, cq) :- SelectCommand(c, s);
    if cmd.Some? then IssueCommand(c, s.(cq := cq), cmd.value) else Ok(s.(cq := cq))
  }

  // ---- scheduling ---------------------------------------------------------------------------

  function ColumnKind(c: Config, isWrite: bool): Kind {
    if c.closePage then (if isWrite then WritePrecharge else ReadPrecharge)
    else if isWrite then Write else Read
  }

  function CommandFor(c: Config, addr: nat, isWrite: bool): Command {
    Command(ColumnKind(c, isWrite), c.layout.Decode(addr), addr)
  }

  predicate NonNegative(q: seq<Transaction>) {
    forall i :: 0 <= i < |q| ==> q[i].addr >= 0
  }

  /** `TransToCommand` */
  function TransToCommand(c: Config, t: Transaction): Command
    requires t.addr >= 0
  {
    CommandFor(c, t.addr, t.isWrite)
  }

  predicate WillAcceptCommand(c: Config, cq: QueueState, b: BankId) {
    var q := QueueIndex(c, b);
    0 <= q < |cq.queues| && |cq.queues[q]| < c.cmdQueueSize
  }

  /** First transaction whose command queue has room. */
  function FirstFitting(c: Config, cq: QueueState, q: seq<Transaction>, i: nat): Option<nat>
    requires i <= |q| && NonNegative(q)
    decreases |q| - i
  {
    if i == |q| then None
    else if WillAcceptCommand(c, cq, TransToCommand(c, q[i]).Bank()) then Some(i)
    else FirstFitting(c, cq, q, i + 1)
  }

  ghost predicate QueueEmpty(cq: QueueState) {
    forall q :: 0 <= q < |cq.queues| ==> cq.queues[q] == []
  }

  /** The watermarks of the write buffer. */
  ghost function Draining(c: Config, s: Ctrl): int {
    if s.draining == 0 && !c.unifiedQueue
      && (|s.writeBuf| >= c.transQueueSize || (|s.writeBuf| > 8 && QueueEmpty(s.cq)))
    then |s.writeBuf| else s.draining
  }

  datatype Source = Unified | ReadQueue | WriteBuffer

  function SourceQueue(s: Ctrl, src: Source): seq<Transaction> {
    match src
    case Unified => s.unified
    case ReadQueue => s.readQ
    case WriteBuffer => s.writeBuf
  }

  function WithSource(s: Ctrl, src: Source, q: seq<Transaction>): Ctrl {
    match src
    case Unified => s.(unified := q)
    case ReadQueue => s.(readQ := q)
    case WriteBuffer => s.(writeBuf := q)
  }

  ghost predicate TransOk(s: Ctrl) {
    NonNegative(s.unified) && NonNegative(s.readQ) && NonNegative(s.writeBuf)
  }

  predicate HasRead(q: seq<Transaction>, addr: int) {
    exists i :: 0 <= i < |q| && q[i].addr == addr
  }

  /** `AddCommand` */
  function AddCommand(c: Config, cq: QueueState, cmd: Command): QueueState
    requires WillAcceptCommand(c, cq, cmd.Bank())
  {
    var q := QueueIndex(c, cmd.Bank());
    cq.(queues := cq.queues[q := cq.queues[q] + [cmd]])
  }

  /** Moves transaction `i` of `src` to its command queue. */
  function Move(c: Config, s: Ctrl, src: Source, i: nat): Ctrl
    requires i < |SourceQueue(s, src)| && SourceQueue(s, src)[i].addr >= 0
    requires WillAcceptCommand(c, s.cq, TransToCommand(c, SourceQueue(s, src)[i]).Bank())
  {
    var q := SourceQueue(s, src);
    WithSource(s.(cq := AddCommand(c, s.cq, TransToCommand(c, q[i]))), src, Remove(q, i))
  }

  lemma {:induction false} FirstFittingFits(c: Config, cq: QueueState, q: seq<Transaction>, i: nat)
    requires i <= |q| && NonNegative(q)
    ensures var r := FirstFitting(c, cq, q, i);
      r.Some? ==> i <= r.value < |q| && WillAcceptCommand(c, cq, TransToCommand(c, q[r.value]).Bank())
    ensures var r := FirstFitting(c, cq, q, i);
      r.Some? ==> forall j :: i <= j < r.value ==> !WillAcceptCommand(c, cq, TransToCommand(c, q[j]).Bank())
    ensures FirstFitting(c, cq, q, i).None? ==>
      forall j :: i <= j < |q| ==> !WillAcceptCommand(c, cq, TransToCommand(c, q[j]).Bank())
    decreases |q| - i
  {
    hide WillAcceptCommand;
    if i < |q| {
      FirstFittingFits(c, cq, q, i + 1);
    }
  }

  ghost function ScheduleFrom(c: Config, s: Ctrl, src: Source): Ctrl
    requires TransOk(s)
  {
    var q := SourceQueue(s, src);
    match FirstFitting(c, s.cq, q, 0)
    case None => s
    case Some(i) =>
      FirstFittingFits(c, s.cq, q, 0);
      if !c.unifiedQueue && q[i].isWrite then
        if HasRead(s.pendingRd, q[i].addr) then s.(draining := 0)
        else Move(c, s.(draining := s.draining - 1), src, i)
      else
        Move(c, s, src, i)
  }

  /** `ScheduleTransaction` */
  ghost function ScheduleTransaction(c: Config, s: Ctrl): Ctrl
    requires TransOk(s)
  {
    var s1 := s.(draining := Draining(c, s));
    var src := if c.unifiedQueue then Unified else if s1.draining > 0 then WriteBuffer else ReadQueue;
    ScheduleFrom(c, s1, src)
  }

  // ---- the operations of the controller -------------------------------------------------------

  ghost predicate Steppable(c: Config, s: Ctrl) {
    && c.Valid() && QueuesOk(c, s.cq) && TransOk(s)
    && forall i :: 0 <= i < |s.refreshQ| ==> Askable(s.refreshQ[i].kind)
  }

  /** `ClockTick` */
  ghost function Tick(c: Config, s: Ctrl): Outcome<Ctrl>
    requires Steppable(c, s)
  {
    var s1 := RefreshTick(c, s);
    var s2 :- Dispatch(c, s1);
    var s3 := ScheduleTransaction(c, s2);
    Ok(s3.(clk := s3.clk + 1, cq := s3.cq.(clk := s3.cq.clk + 1)))
  }

  /** `WillAcceptTransaction` */
  predicate WillAcceptTransaction(c: Config, s: Ctrl, isWrite: bool) {
    (if c.unifiedQueue then |s.unified| else if isWrite then |s.writeBuf| else |s.readQ|) < c.transQueueSize
  }

  /** `AddTransaction` */
  function AddTransaction(c: Config, s: Ctrl, addr: nat, isWrite: bool, data: int): Ctrl {
    var t := Transaction(addr, isWrite, s.clk, 0, |s.rec.accepted|);
    var done := t.(complete := s.clk + 1);
    var rec := s.rec.(accepted := s.rec.accepted + [Accepted(addr, isWrite, s.clk, data)]);
    if isWrite then
      var s1 := s.(returnQ := s.returnQ + [done], rec := rec.(buffer := rec.buffer[addr := data]));
      if addr in s.pendingWr then s1
      else Enqueue(c, s1.(pendingWr := s.pendingWr[addr := t]), t)
    else if addr in s.pendingWr then
      s.(returnQ := s.returnQ + [done], rec := rec.(got := rec.got[t.id := Lookup(rec.buffer, addr)]))
    else
      var s1 := s.(pendingRd := s.pendingRd + [t], rec := rec);
      if HasRead(s.pendingRd, addr) then s1 else Enqueue(c, s1, t)
  }

  function Enqueue(c: Config, s: Ctrl, t: Transaction): Ctrl {
    if c.unifiedQueue then s.(unified := s.unified + [t])
    else if t.isWrite then s.(writeBuf := s.writeBuf + [t])
    else s.(readQ := s.readQ + [t])
  }

  /** Transactions due at `clk`, in queue order. */
  function Due(q: seq<Transaction>, clk: int): seq<Transaction> {
    if q == [] then [] else (if q[0].complete <= clk then [q[0]] else []) + Due(q[1..], clk)
  }

  function NotDue(q: seq<Transaction>, clk: int): seq<Transaction> {
    if q == [] then [] else (if q[0].complete <= clk then [] else [q[0]]) + NotDue(q[1..], clk)
  }

  function Called(q: seq<Transaction>, clk: int): seq<Callback> {
    if q == [] then [] else [Callback(q[0], clk)] + Called(q[1..], clk)
  }

  /** The callbacks of one memory cycle: `ReturnDoneTrans` until it finds nothing. */
  function ReturnDone(s: Ctrl, clk: int): Ctrl {
    s.(returnQ := NotDue(s.returnQ, clk),
       rec := s.rec.(returned := s.rec.returned + Called(Due(s.returnQ, clk), clk)))
  }

  function Initial(c: Config): Ctrl {
    Ctrl(0, [], [], RefreshState(0, 0, 0, 0), QueueState(seq(NumQueues(c), _ => []), 0, false, {}, 0),
         [], [], [], [], map[], [], 0, Record([], map[], map[], map[], []))
  }

  // ---- runs -----------------------------------------------------------------------------------

  datatype Event =
    | Accept(addr: nat, isWrite: bool, data: int)
    | Cycle

  /** One event of a memory system with this channel: a transaction, which is refused when its queue is
      full, or a memory cycle. */
  ghost function Step(c: Config, s: Ctrl, e: Event): Outcome<Ctrl>
    requires Steppable(c, s)
  {
    match e
    case Accept(addr, isWrite, data) =>
      Ok(if WillAcceptTransaction(c, s, isWrite) then AddTransaction(c, s, addr, isWrite, data) else s)
    case Cycle => Tick(c, ReturnDone(s, s.clk))
  }
}

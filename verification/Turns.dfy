/** What keeps the controller from aborting: every address with pending reads (or a pending write) has
    exactly one read (or write) waiting in the transaction and command queues, and commands sit in the
    right queue. From it follows what a turn of the command selection can be. */
module Turns {
  import opened DramTypes
  import opened Counting
  import opened DramConfig
  import opened History
  import opened Scheduler
  import opened QueueFacts

  datatype Key = Key(addr: int, isWrite: bool)

  function CmdKey(cmd: Command): Key {
    Key(cmd.hex, cmd.kind.IsWrite())
  }

  function TransKey(t: Transaction): Key {
    Key(t.addr, t.isWrite)
  }

  /** Commands and transactions that wait for a column command of this key. */
  ghost function Waiting(s: Ctrl, k: Key): nat {
    CountAll(s.cq.queues, CmdKey, k) + Count(s.unified, TransKey, k) + Count(s.readQ, TransKey, k) +
      Count(s.writeBuf, TransKey, k)
  }

  ghost predicate Pending(s: Ctrl, k: Key) {
    if k.isWrite then k.addr in s.pendingWr else HasRead(s.pendingRd, k.addr)
  }

  ghost predicate Accounted(s: Ctrl) {
    forall k: Key :: Waiting(s, k) == if Pending(s, k) then 1 else 0
  }

  /** Which transactions each transaction queue holds. */
  ghost predicate TransShape(c: Config, s: Ctrl) {
    && TransOk(s)
    && (if c.unifiedQueue then s.readQ == [] && s.writeBuf == [] else s.unified == [])
    && (forall i :: 0 <= i < |s.readQ| ==> !s.readQ[i].isWrite)
    && (forall i :: 0 <= i < |s.writeBuf| ==> s.writeBuf[i].isWrite)
  }

  ghost predicate RequestsOk(c: Config, q: seq<Command>) {
    forall i :: 0 <= i < |q| ==> q[i].kind.IsRefresh() && InRange(c, q[i])
  }

  ghost predicate Core(c: Config, s: Ctrl) {
    && c.Valid() && CqOk(c, s.cq) && TransShape(c, s) && RequestsOk(c, s.refreshQ)
    && Legal(c, s.log) && s.cq.clk == s.clk
    && Accounted(s)
  }

  /** All commands were issued before `clk`. */
  ghost predicate IssuedBefore(log: Log, clk: int) {
    log != [] ==> Last(log).clk < clk
  }

  lemma CoreIsSteppable(c: Config, s: Ctrl)
    requires Core(c, s)
    ensures Steppable(c, s)
  {
    CqOkSteps(c, s.cq);
  }

  // ---- turns ----------------------------------------------------------------------------------

  datatype Turn =
    | Idle
    | RowTurn(cmd: Command)
    | ColumnTurn(cmd: Command, q: nat, i: nat)

  /** `s'` is `s` after this turn. */
  ghost predicate IsTurn(c: Config, s: Ctrl, turn: Turn, s': Ctrl) {
    match turn
    case Idle =>
      s' == s.(cq := s'.cq) && s'.cq.queues == s.cq.queues
    case RowTurn(cmd) =>
      && !cmd.kind.IsColumn() && Admits(c, s.log, Issue(s.clk, cmd))
      && s' == s.(cq := s'.cq, log := s.log + [Issue(s.clk, cmd)], refreshQ := RequestsAfter(s.refreshQ, cmd))
      && s'.cq.queues == s.cq.queues
    case ColumnTurn(cmd, q, i) =>
      && cmd.kind.IsColumn() && Admits(c, s.log, Issue(s.clk, cmd))
      && q < |s.cq.queues| && i < |s.cq.queues[q]| && s.cq.queues[q][i] == cmd
      && CompleteTransactions(c, s, cmd).Ok?
      && s' == CompleteTransactions(c, s, cmd).value.(cq := s'.cq, log := s.log + [Issue(s.clk, cmd)])
      && s'.cq.queues == s.cq.queues[q := Remove(s.cq.queues[q], i)]
  }

  lemma HasReadCons(q: seq<Transaction>, a: int)
    requires q != []
    ensures HasRead(q, a) <==> q[0].addr == a || HasRead(q[1..], a)
  {
    if HasRead(q, a) && q[0].addr != a {
      var i :| 0 <= i < |q| && q[i].addr == a;
      assert q[1..][i - 1].addr == a;
    }
    if HasRead(q[1..], a) {
      var i :| 0 <= i < |q| - 1 && q[1..][i].addr == a;
      assert q[i + 1].addr == a;
    }
  }

  lemma {:induction false} ReadsOfFinds(q: seq<Transaction>, addr: int)
    ensures ReadsOf(q, addr) == [] <==> !HasRead(q, addr)
  {
    if q != [] {
      ReadsOfFinds(q[1..], addr);
      HasReadCons(q, addr);
    }
  }

  /** A queued command has its transaction pending, so completing it cannot fail. */
  lemma QueuedIsPending(c: Config, s: Ctrl, q: nat, i: nat)
    requires Core(c, s) && q < |s.cq.queues| && i < |s.cq.queues[q]|
    ensures Pending(s, CmdKey(s.cq.queues[q][i]))
    ensures CompleteTransactions(c, s, s.cq.queues[q][i]).Ok?
  {
    hide Count, CountAll, Legal, ReadsOf;
    var cmd := s.cq.queues[q][i];
    CountAllHas(s.cq.queues, q, i, CmdKey);
    assert Waiting(s, CmdKey(cmd)) > 0;
    ReadsOfFinds(s.pendingRd, cmd.hex);
  }

  /** Erasing a chosen column command removes an entry equal to it. */
  lemma EraseRemoves(c: Config, queues: seq<seq<Command>>, q: nat, j: nat) returns (i: nat)
    requires Placed(c, queues) && q < |queues| && j < |queues[q]|
    ensures i < |queues[q]| && queues[q][i] == queues[q][j]
    ensures EraseRWCommand(c, queues, queues[q][j]) == Ok(queues[q := Remove(queues[q], i)])
  {
    var cmd := queues[q][j];
    FindCommandFinds(queues[q], cmd, 0, j);
    i := FindCommand(queues[q], cmd, 0).value;
    assert CmdOk(c, queues[q][i]) && CmdOk(c, cmd);
  }

  /** An admitted command updates the channel. */
  lemma AdmittedUpdates(c: Config, s: Ctrl, cmd: Command)
    requires Admits(c, s.log, Issue(s.clk, cmd))
    ensures UpdateChannel(c, s, cmd) ==
      Ok(s.(log := s.log + [Issue(s.clk, cmd)], refreshQ := RequestsAfter(s.refreshQ, cmd)))
  {
    hide RowOf, Earliest, ActivationWindowOk, Advance, RequestsAfter;
  }

  /** The turn of the queues. */
  lemma QueueTurn(c: Config, s: Ctrl, cq: QueueState) returns (turn: Turn, j: nat)
    requires Core(c, s) && IssuedBefore(s.log, s.clk)
    requires cq.queues == s.cq.queues && cq.idx == s.cq.idx && cq.clk == s.clk
    ensures QueuesOk(c, cq) && GetCommandToIssue(c, s.log, cq).Ok?
    ensures var (cmd, cq') := GetCommandToIssue(c, s.log, cq).value;
      && CqOk(c, cq') && cq' == cq.(idx := cq'.idx, queues := cq'.queues)
      && (cmd.None? ==> turn.Idle? && cq'.queues == cq.queues)
      && (cmd.Some? ==> !turn.Idle? && turn.cmd == cmd.value && IssueCommand(c, s.(cq := cq'), cmd.value).Ok?)
      && (cmd.Some? ==> IsTurn(c, s, turn, IssueCommand(c, s.(cq := cq'), cmd.value).value))
    ensures !turn.Idle? ==> var q := GetCommandToIssue(c, s.log, cq).value.1.idx;
      0 <= q < |cq.queues| && j < |cq.queues[q]| && Candidate(c, s.log, s.clk, cq.queues[q], j) == Some(turn.cmd)
    ensures turn.ColumnTurn? ==>
      turn.q == GetCommandToIssue(c, s.log, cq).value.1.idx && cq.queues[turn.q][j] == turn.cmd
    ensures !turn.Idle? && cq.inRef ==> GetCommandToIssue(c, s.log, cq).value.1.idx !in cq.refIdx
  {
    hide Candidate, Choose, Legal, Accounted, Admits, CompleteTransactions, UpdateChannel, TransShape, RequestsOk;
    assert CqOk(c, cq);
    CqOkSteps(c, cq);
    ChooseFinds(c, s.log, cq, NumQueues(c));
    var (r, idx) := Choose(c, s.log, cq, NumQueues(c));
    turn, j := Idle, 0;
    if r.Some? {
      j :| 0 <= j < |cq.queues[idx]| && Candidate(c, s.log, cq.clk, cq.queues[idx], j) == r;
      var entry := cq.queues[idx][j];
      assert CmdOk(c, entry);
      CandidateIsEntry(c, s.log, s.clk, cq.queues[idx], j);
      CandidateAdmitted(c, s.log, s.clk, cq.queues[idx], j);
      if r.value.kind.IsColumn() {
        var i := EraseRemoves(c, cq.queues, idx, j);
        turn := ColumnTurn(entry, idx, i);
        var queues := cq.queues[idx := Remove(cq.queues[idx], i)];
        PlacedRemove(c, cq.queues, idx, i);
        ColumnIssue(c, s, cq.(idx := idx, queues := queues), idx, i);
      } else {
        turn := RowTurn(r.value);
        RowIssue(c, s, cq.(idx := idx), r.value);
      }
    }
  }

  lemma CandidateAdmitted(c: Config, log: Log, clk: int, q: seq<Command>, j: nat)
    requires c.Valid() && j < |q| && AllAskable(q) && CmdOk(c, q[j]) && IssuedBefore(log, clk)
    ensures var r := Candidate(c, log, clk, q, j);
      r.Some? ==> Admits(c, log, Issue(clk, r.value))
  {
    hide Admits, ReadyCommand, MayPrecharge, HasRWDependency;
    DecodedBank(c, q[j].hex, q[j].kind.IsWrite());
    ReadyIsAdmitted(c, log, q[j], clk);
  }

  lemma PlacedRemove(c: Config, queues: seq<seq<Command>>, q: nat, i: nat)
    requires Placed(c, queues) && q < |queues| && i < |queues[q]|
    ensures Placed(c, queues[q := Remove(queues[q], i)])
  {
    hide CmdOk, QueueIndex, NumQueues;
    var queues' := queues[q := Remove(queues[q], i)];
    forall p, k | 0 <= p < |queues'| && 0 <= k < |queues'[p]|
      ensures CmdOk(c, queues'[p][k]) && QueueIndex(c, queues'[p][k].Bank()) == p
    {
      assert queues'[p][k] == if p == q && k >= i then queues[p][k + 1] else queues[p][k];
    }
  }

  lemma RowIssue(c: Config, s: Ctrl, cq': QueueState, cmd: Command)
    requires !cmd.kind.IsColumn() && Admits(c, s.log, Issue(s.clk, cmd)) && cq'.queues == s.cq.queues
    ensures IssueCommand(c, s.(cq := cq'), cmd).Ok?
    ensures IsTurn(c, s, RowTurn(cmd), IssueCommand(c, s.(cq := cq'), cmd).value)
    ensures IssueCommand(c, s.(cq := cq'), cmd).value.cq == cq'
  {
    hide Admits, UpdateChannel;
    AdmittedUpdates(c, s.(cq := cq'), cmd);
  }

  lemma ColumnIssue(c: Config, s: Ctrl, cq': QueueState, q: nat, i: nat)
    requires Core(c, s) && q < |s.cq.queues| && i < |s.cq.queues[q]|
    requires var cmd := s.cq.queues[q][i];
      cmd.kind.IsColumn() && Admits(c, s.log, Issue(s.clk, cmd))
        && cq'.queues == s.cq.queues[q := Remove(s.cq.queues[q], i)]
    ensures IssueCommand(c, s.(cq := cq'), s.cq.queues[q][i]).Ok?
    ensures IsTurn(c, s, ColumnTurn(s.cq.queues[q][i], q, i), IssueCommand(c, s.(cq := cq'), s.cq.queues[q][i]).value)
    ensures IssueCommand(c, s.(cq := cq'), s.cq.queues[q][i]).value.cq == cq'
  {
    hide Admits, UpdateChannel, Core, ReadsOf, OtherReads, CompleteAt, Answer;
    var cmd := s.cq.queues[q][i];
    QueuedIsPending(c, s, q, i);
    AdmittedUpdates(c, CompleteTransactions(c, s.(cq := cq'), cmd).value, cmd);
  }

  /** Where a turn came from: the refresh at the front, or entry `j` of a queue. */
  datatype Origin = FromRefresh | FromQueue(q: nat, j: nat)

  /** `cmd` is what entry `j` of queue `q` can issue now. */
  ghost predicate IsEntry(c: Config, s: Ctrl, q: nat, j: nat, cmd: Command)
    requires QueuesOk(c, s.cq)
  {
    q < |s.cq.queues| && j < |s.cq.queues[q]| && Candidate(c, s.log, s.clk, s.cq.queues[q], j) == Some(cmd)
  }

  /** The queues set aside are those of the refresh at the front, once it has been looked at. */
  ghost predicate InSync(c: Config, cq: QueueState, refreshQ: seq<Command>) {
    if cq.inRef then refreshQ != [] && cq.refIdx == RefQueues(c, refreshQ[0]) else cq.refIdx == {}
  }

  /** A turn of the whole selection never aborts. */
  lemma DispatchTurn(c: Config, s: Ctrl) returns (turn: Turn, from: Origin)
    requires Core(c, s) && IssuedBefore(s.log, s.clk)
    ensures Steppable(c, s) && Dispatch(c, s).Ok?
    ensures var s' := Dispatch(c, s).value;
      IsTurn(c, s, turn, s') && CqOk(c, s'.cq) && s'.cq.clk == s.clk
    ensures from.FromRefresh? ==>
      turn.RowTurn? && s.refreshQ != [] && ReadyCommand(c, s.log, s.refreshQ[0], s.clk) == Some(turn.cmd)
    ensures from.FromQueue? && s.refreshQ != [] ==> ReadyCommand(c, s.log, s.refreshQ[0], s.clk).None?
    ensures !turn.Idle? && from.FromQueue? ==> IsEntry(c, s, from.q, from.j, turn.cmd)
    ensures !turn.Idle? && from.FromQueue? && s.refreshQ != [] && InSync(c, s.cq, s.refreshQ) ==>
      from.q !in RefQueues(c, s.refreshQ[0])
    ensures InSync(c, s.cq, s.refreshQ) ==> InSync(c, Dispatch(c, s).value.cq, Dispatch(c, s).value.refreshQ)
    ensures turn.ColumnTurn? ==> from.FromQueue? && from.q == turn.q && s.cq.queues[from.q][from.j] == turn.cmd
  {
    hide Candidate, Legal, Accounted, Admits, TransShape, ReadyCommand, GetCommandToIssue, IssueCommand, IsTurn;
    CoreIsSteppable(c, s);
    var cq := s.cq;
    if s.refreshQ != [] {
      var ref := s.refreshQ[0];
      var (cmd, cq') := FinishRefresh(c, s.log, ref, s.cq);
      cq := cq';
      if cmd.Some? {
        ReadyIsAdmitted(c, s.log, ref, s.clk);
        RefreshReadies(c, s.log, ref, s.clk);
        RowIssue(c, s, cq', cmd.value);
        turn, from := RowTurn(cmd.value), FromRefresh;
        TurnRequests(c, s, turn, Dispatch(c, s).value);
        return;
      }
    }
    var j;
    turn, j := QueueTurn(c, s, cq);
    var (r, cq') := GetCommandToIssue(c, s.log, cq).value;
    from := FromQueue(cq'.idx, j);
    if r.None? {
      IdleTurn(c, s, cq');
    } else {
      IssueKeepsQueues(c, s.(cq := cq'), r.value);
      TurnRequests(c, s, turn, Dispatch(c, s).value);
      CandidateIsEntry(c, s.log, s.clk, s.cq.queues[cq'.idx], j);
    }
  }

  /** Requests leave in the order they came: a refresh that is issued is the one at the front. */
  lemma TurnRequests(c: Config, s: Ctrl, turn: Turn, s': Ctrl)
    requires IsTurn(c, s, turn, s')
    ensures turn.Idle? || !turn.cmd.kind.IsRefresh() ==> s'.refreshQ == s.refreshQ
    ensures !turn.Idle? && s.refreshQ != [] && turn.cmd == s.refreshQ[0] ==> turn.cmd.kind.IsRefresh() ==>
      s'.refreshQ == s.refreshQ[1..]
  {
    hide Admits, ReadsOf, OtherReads, CompleteAt, Answer;
  }

  lemma IdleTurn(c: Config, s: Ctrl, cq': QueueState)
    requires cq'.queues == s.cq.queues
    ensures IsTurn(c, s, Idle, s.(cq := cq'))
  {
  }

  lemma IssueKeepsQueues(c: Config, s: Ctrl, cmd: Command)
    requires IssueCommand(c, s, cmd).Ok?
    ensures IssueCommand(c, s, cmd).value.cq == s.cq
  {
  }

  /** A refresh request is only ever turned into a PRECHARGE or the refresh itself. */
  lemma RefreshReadies(c: Config, log: Log, ref: Command, clk: int)
    requires ref.kind.IsRefresh() && InRange(c, ref)
    ensures var r := ReadyCommand(c, log, ref, clk);
      r.Some? ==> r.value.kind.Precharge? || r.value == ref
  {
    hide RowOf, Earliest, Window, Scan;
    ScanFinds(c, log, ref, clk, 0, 0);
  }

  // ---- a turn keeps the invariant ------------------------------------------------------------------

  lemma LegalSnoc(c: Config, log: Log, x: Issue)
    requires Legal(c, log) && Admits(c, log, x)
    ensures Legal(c, log + [x])
  {
    hide Admits;
    assert Front(log + [x]) == log && Last(log + [x]) == x;
  }

  lemma {:induction false} RequestsStayOk(c: Config, q: seq<Command>, cmd: Command)
    requires RequestsOk(c, q)
    ensures RequestsOk(c, RequestsAfter(q, cmd))
  {
    hide InRange;
    if q != [] {
      RequestsStayOk(c, q[1..], cmd);
    }
  }

  lemma {:induction false} OtherReadsHas(q: seq<Transaction>, addr: int, a: int)
    ensures HasRead(OtherReads(q, addr), a) <==> a != addr && HasRead(q, a)
  {
    if q != [] {
      OtherReadsHas(q[1..], addr, a);
      HasReadCons(q, a);
      if q[0].addr != addr {
        var r := OtherReads(q, addr);
        assert r == [q[0]] + OtherReads(q[1..], addr);
        HasReadCons(r, a);
        assert r[1..] == OtherReads(q[1..], addr);
      } else {
        assert OtherReads(q, addr) == OtherReads(q[1..], addr);
      }
    }
  }

  /** Issuing a column command takes its key from the waiting and from the pending work at once. */
  lemma AccountedColumn(c: Config, s: Ctrl, turn: Turn, s': Ctrl)
    requires Accounted(s) && turn.ColumnTurn? && IsTurn(c, s, turn, s')
    ensures Accounted(s')
  {
    hide Admits, ReadsOf, OtherReads, CompleteAt, Answer, Count, CountAll;
    var cmd, q, i := turn.cmd, turn.q, turn.i;
    forall k: Key ensures Waiting(s', k) == if Pending(s', k) then 1 else 0 {
      CountAllUpdate(s.cq.queues, q, Remove(s.cq.queues[q], i), CmdKey, k);
      CountRemove(s.cq.queues[q], i, CmdKey, k);
      OtherReadsHas(s.pendingRd, cmd.hex, k.addr);
      assert Waiting(s, k) == if Pending(s, k) then 1 else 0;
    }
  }

  lemma CoreAfterTurn(c: Config, s: Ctrl, turn: Turn, s': Ctrl)
    requires Core(c, s) && IsTurn(c, s, turn, s') && CqOk(c, s'.cq) && s'.cq.clk == s.clk
    ensures Core(c, s')
  {
    hide Legal, Admits, Count, CountAll, RequestsAfter, ReadsOf, OtherReads, CompleteAt, Answer, CqOk;
    match turn
    case Idle =>
      assert forall k: Key :: Waiting(s', k) == Waiting(s, k) && Pending(s', k) == Pending(s, k);
    case RowTurn(cmd) =>
      LegalSnoc(c, s.log, Issue(s.clk, cmd));
      RequestsStayOk(c, s.refreshQ, cmd);
      assert forall k: Key :: Waiting(s', k) == Waiting(s, k) && Pending(s', k) == Pending(s, k);
    case ColumnTurn(cmd, q, i) =>
      LegalSnoc(c, s.log, Issue(s.clk, cmd));
      AccountedColumn(c, s, turn, s');
  }
}

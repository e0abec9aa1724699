/** No activation is wasted: a row opened for a queued command is closed by another queued command only
    after it served at least one column access. */
module RowUse {
  import opened DramTypes
  import opened Counting
  import opened DramConfig
  import opened History
  import opened Scheduler
  import opened QueueFacts
  import opened Turns

  /** Entry `i` of queue `q` will hit the open row of bank `b`. */
  ghost predicate Hits(queues: seq<seq<Command>>, q: int, i: int, b: BankId, row: int) {
    0 <= q < |queues| && 0 <= i < |queues[q]| && queues[q][i].Bank() == b && queues[q][i].addr.row == row
  }

  ghost predicate Wanted(queues: seq<seq<Command>>, b: BankId, row: int) {
    exists q, i :: Hits(queues, q, i, b, row)
  }

  /** A row that served nothing yet still has the command it was opened for in the queues. */
  ghost predicate RowsWanted(c: Config, s: Ctrl) {
    forall b :: c.HasBank(b) && RowOf(s.log, b).Open? && RowOf(s.log, b).hits == 0 ==>
      Wanted(s.cq.queues, b, RowOf(s.log, b).row)
  }

  lemma RowOfAppend(log: Log, x: Issue, b: BankId)
    ensures RowOf(log + [x], b) == RowAfter(RowOf(log, b), x, b)
  {
    assert Front(log + [x]) == log && Last(log + [x]) == x;
  }

  lemma WantedAfterRemove(queues: seq<seq<Command>>, q: nat, i: nat, b: BankId, row: int)
    requires Wanted(queues, b, row) && q < |queues| && i < |queues[q]| && queues[q][i].Bank() != b
    ensures Wanted(queues[q := Remove(queues[q], i)], b, row)
  {
    var p, k :| Hits(queues, p, k, b, row);
    var k' := if p == q && k > i then k - 1 else k;
    assert queues[q := Remove(queues[q], i)][p][k'] == queues[p][k];
    assert Hits(queues[q := Remove(queues[q], i)], p, k', b, row);
  }

  lemma RowsWantedRow(c: Config, s: Ctrl, turn: Turn, s': Ctrl)
    requires RowsWanted(c, s) && turn.RowTurn? && IsTurn(c, s, turn, s')
    requires turn.cmd.kind.Activate? ==> exists q, i :: Hits(s.cq.queues, q, i, turn.cmd.Bank(), turn.cmd.addr.row)
    ensures RowsWanted(c, s')
  {
    hide RowOf, Earliest, ActivationWindowOk, RequestsAfter;
    var x := Issue(s.clk, turn.cmd);
    forall b | c.HasBank(b) && RowOf(s'.log, b).Open? && RowOf(s'.log, b).hits == 0
      ensures Wanted(s'.cq.queues, b, RowOf(s'.log, b).row)
    {
      RowOfAppend(s.log, x, b);
    }
  }

  lemma RowsWantedColumn(c: Config, s: Ctrl, turn: Turn, s': Ctrl)
    requires RowsWanted(c, s) && turn.ColumnTurn? && IsTurn(c, s, turn, s')
    ensures RowsWanted(c, s')
  {
    hide RowOf, Earliest, ActivationWindowOk, ReadsOf, OtherReads, CompleteAt, Answer;
    var x := Issue(s.clk, turn.cmd);
    forall b | c.HasBank(b) && RowOf(s'.log, b).Open? && RowOf(s'.log, b).hits == 0
      ensures Wanted(s'.cq.queues, b, RowOf(s'.log, b).row)
    {
      RowOfAppend(s.log, x, b);
      if turn.cmd.Bank() != b {
        WantedAfterRemove(s.cq.queues, turn.q, turn.i, b, RowOf(s.log, b).row);
      }
    }
  }

  /** An ACTIVATE comes from a queued command for that very row. */
  lemma ActivateIsWanted(c: Config, s: Ctrl, turn: Turn, from: Origin)
    requires Core(c, s) && QueuesOk(c, s.cq) && turn.RowTurn? && turn.cmd.kind.Activate?
    requires from.FromRefresh? ==> s.refreshQ != [] && ReadyCommand(c, s.log, s.refreshQ[0], s.clk) == Some(turn.cmd)
    requires from.FromQueue? ==> IsEntry(c, s, from.q, from.j, turn.cmd)
    ensures exists q, i :: Hits(s.cq.queues, q, i, turn.cmd.Bank(), turn.cmd.addr.row)
  {
    hide Legal, Accounted, ReadyCommand, Candidate, TransShape;
    if from.FromRefresh? {
      RefreshReadies(c, s.log, s.refreshQ[0], s.clk);
    } else {
      assert CmdOk(c, s.cq.queues[from.q][from.j]);
      CandidateIsEntry(c, s.log, s.clk, s.cq.queues[from.q], from.j);
      assert Hits(s.cq.queues, from.q, from.j, turn.cmd.Bank(), turn.cmd.addr.row);
    }
  }

  lemma RowsWantedAfterTurn(c: Config, s: Ctrl, turn: Turn, from: Origin, s': Ctrl)
    requires Core(c, s) && QueuesOk(c, s.cq) && RowsWanted(c, s) && IsTurn(c, s, turn, s')
    requires turn.RowTurn? && from.FromRefresh? ==>
      s.refreshQ != [] && ReadyCommand(c, s.log, s.refreshQ[0], s.clk) == Some(turn.cmd)
    requires turn.RowTurn? && from.FromQueue? ==> IsEntry(c, s, from.q, from.j, turn.cmd)
    ensures RowsWanted(c, s')
  {
    hide RowOf, Core, ReadyCommand, IsEntry, Admits;
    match turn
    case Idle =>
    case RowTurn(cmd) =>
      if cmd.kind.Activate? {
        ActivateIsWanted(c, s, turn, from);
      }
      RowsWantedRow(c, s, turn, s');
    case ColumnTurn(cmd, q, i) =>
      RowsWantedColumn(c, s, turn, s');
  }

  lemma WantedAfterAdd(queues: seq<seq<Command>>, p: nat, cmd: Command, b: BankId, row: int)
    requires Wanted(queues, b, row) && p < |queues|
    ensures Wanted(queues[p := queues[p] + [cmd]], b, row)
  {
    var q, k :| Hits(queues, q, k, b, row);
    assert Hits(queues[p := queues[p] + [cmd]], q, k, b, row);
  }

  lemma RowsWantedMove(c: Config, s: Ctrl, src: Source, i: nat)
    requires RowsWanted(c, s)
    requires i < |SourceQueue(s, src)| && SourceQueue(s, src)[i].addr >= 0
    requires WillAcceptCommand(c, s.cq, TransToCommand(c, SourceQueue(s, src)[i]).Bank())
    ensures RowsWanted(c, Move(c, s, src, i))
  {
    hide RowOf, CommandFor, QueueIndex, Wanted;
    var cmd := TransToCommand(c, SourceQueue(s, src)[i]);
    forall b | c.HasBank(b) && RowOf(s.log, b).Open? && RowOf(s.log, b).hits == 0
      ensures Wanted(Move(c, s, src, i).cq.queues, b, RowOf(s.log, b).row)
    {
      WantedAfterAdd(s.cq.queues, QueueIndex(c, cmd.Bank()), cmd, b, RowOf(s.log, b).row);
    }
  }

  lemma RowsWantedSchedule(c: Config, s: Ctrl)
    requires RowsWanted(c, s) && TransOk(s)
    ensures RowsWanted(c, ScheduleTransaction(c, s))
  {
    hide RowOf, FirstFitting, WillAcceptCommand, Move, Draining, Wanted;
    var s1 := s.(draining := Draining(c, s));
    var src := if c.unifiedQueue then Unified else if s1.draining > 0 then WriteBuffer else ReadQueue;
    var q := SourceQueue(s1, src);
    FirstFittingFits(c, s1.cq, q, 0);
    var fit := FirstFitting(c, s1.cq, q, 0);
    if fit.Some? {
      RowsWantedMove(c, s1, src, fit.value);
      RowsWantedMove(c, s1.(draining := s1.draining - 1), src, fit.value);
    }
  }

  /** A PRECHARGE issued for a queued command closes a row that served at least one column access, and
      either nothing queued anywhere still hits that row or at least four accesses were served. */
  lemma NoWastedActivation(c: Config, s: Ctrl, q: nat, j: nat, pre: Command)
    requires Core(c, s) && QueuesOk(c, s.cq) && RowsWanted(c, s)
    requires IsEntry(c, s, q, j, pre) && pre.kind.Precharge?
    ensures RowOf(s.log, pre.Bank()).Open? && RowOf(s.log, pre.Bank()).hits >= 1
    ensures RowOf(s.log, pre.Bank()).hits >= 4 || !Wanted(s.cq.queues, pre.Bank(), RowOf(s.log, pre.Bank()).row)
  {
    hide RowOf, Earliest, Legal, Accounted, TransShape, Window, NumQueues, QueueIndex;
    var entry := s.cq.queues[q][j];
    assert CmdOk(c, entry);
    DecodedBank(c, entry.hex, entry.kind.IsWrite());
    var b := entry.Bank();
    var row := RowOf(s.log, b);
    assert row.Open? && pre.Bank() == b;
    assert MayPrecharge(s.log, s.cq.queues[q], j);
    if Wanted(s.cq.queues, b, row.row) {
      var p, i :| Hits(s.cq.queues, p, i, b, row.row);
      assert CmdOk(c, s.cq.queues[p][i]);
      assert p == q && i >= j;
    }
  }
}

/** Accesses to one address keep their order, although queues are searched for whatever is ready:
    a WRITE is issued only when no read of its address is pending. */
module Ordering {
  import opened DramTypes
  import opened Counting
  import opened DramConfig
  import opened History
  import opened Scheduler
  import opened QueueFacts
  import opened Turns
  import opened Steps

  /** In no command queue does a write stand before a read of the same address. */
  ghost predicate QueueOrder(queues: seq<seq<Command>>) {
    forall q, i, j ::
      0 <= q < |queues| && 0 <= i < j < |queues[q]| &&
      queues[q][i].kind.IsWrite() && queues[q][j].kind.IsRead() ==>
      queues[q][i].hex != queues[q][j].hex
  }

  ghost predicate TransOrder(q: seq<Transaction>) {
    forall i, j :: 0 <= i < j < |q| && q[i].isWrite && !q[j].isWrite ==> q[i].addr != q[j].addr
  }

  /** No write has reached the command queues before a read in `ts`. */
  ghost predicate NotOvertaken(queues: seq<seq<Command>>, ts: seq<Transaction>) {
    forall q, i, j ::
      0 <= q < |queues| && 0 <= i < |queues[q]| && 0 <= j < |ts| &&
      queues[q][i].kind.IsWrite() && !ts[j].isWrite ==>
      queues[q][i].hex != ts[j].addr
  }

  ghost predicate Ordered(s: Ctrl) {
    && QueueOrder(s.cq.queues) && TransOrder(s.unified)
    && NotOvertaken(s.cq.queues, s.unified) && NotOvertaken(s.cq.queues, s.readQ)
  }

  // ---- what the counts say about single entries ---------------------------------------------------

  lemma NoneQueued(s: Ctrl, k: Key, q: nat, i: nat)
    requires Accounted(s) && !Pending(s, k) && q < |s.cq.queues| && i < |s.cq.queues[q]|
    ensures CmdKey(s.cq.queues[q][i]) != k
  {
    hide Count, CountAll;
    assert Waiting(s, k) == 0;
    CountAllHas(s.cq.queues, q, i, CmdKey);
  }

  lemma NoneUnified(s: Ctrl, k: Key, i: nat)
    requires Accounted(s) && !Pending(s, k) && i < |s.unified|
    ensures TransKey(s.unified[i]) != k
  {
    hide Count, CountAll;
    assert Waiting(s, k) == 0;
    CountHas(s.unified, i, TransKey);
  }

  lemma NoneInReadQ(s: Ctrl, k: Key, i: nat)
    requires Accounted(s) && !Pending(s, k) && i < |s.readQ|
    ensures TransKey(s.readQ[i]) != k
  {
    hide Count, CountAll;
    assert Waiting(s, k) == 0;
    CountHas(s.readQ, i, TransKey);
  }

  // ---- preservation ---------------------------------------------------------------------------------

  lemma OrderedAccept(c: Config, s: Ctrl, addr: nat, isWrite: bool, data: int)
    requires Core(c, s) && Ordered(s)
    ensures Ordered(AddTransaction(c, s, addr, isWrite, data))
  {
    hide Core, HasRead, Accounted;
    assert Accounted(s) by { CoreAccounted(c, s); }
    if !isWrite && addr !in s.pendingWr {
      forall q, i | 0 <= q < |s.cq.queues| && 0 <= i < |s.cq.queues[q]| && s.cq.queues[q][i].kind.IsWrite()
        ensures s.cq.queues[q][i].hex != addr
      {
        NoneQueued(s, Key(addr, true), q, i);
      }
      forall i | 0 <= i < |s.unified| && s.unified[i].isWrite ensures s.unified[i].addr != addr {
        NoneUnified(s, Key(addr, true), i);
      }
    }
  }

  lemma CoreAccounted(c: Config, s: Ctrl)
    requires Core(c, s)
    ensures Accounted(s)
  {
  }

  lemma OrderedAfterTurn(c: Config, s: Ctrl, turn: Turn, s': Ctrl)
    requires Ordered(s) && IsTurn(c, s, turn, s')
    ensures Ordered(s')
  {
    hide Admits, RequestsAfter, ReadsOf, OtherReads, CompleteAt, Answer;
    if turn.ColumnTurn? {
      OrderedRemove(s.cq.queues, turn.q, turn.i, s.unified);
      OrderedRemove(s.cq.queues, turn.q, turn.i, s.readQ);
    }
  }

  lemma OrderedRemove(queues: seq<seq<Command>>, q: nat, i: nat, ts: seq<Transaction>)
    requires QueueOrder(queues) && NotOvertaken(queues, ts) && q < |queues| && i < |queues[q]|
    ensures QueueOrder(queues[q := Remove(queues[q], i)]) && NotOvertaken(queues[q := Remove(queues[q], i)], ts)
  {
    var queues': seq<seq<Command>> := queues[q := Remove(queues[q], i)];
    forall p, k, m | 0 <= p < |queues'| && 0 <= k < m < |queues'[p]| &&
      queues'[p][k].kind.IsWrite() && queues'[p][m].kind.IsRead()
      ensures queues'[p][k].hex != queues'[p][m].hex
    {
      assert queues'[p][k] == queues[p][if p == q && k >= i then k + 1 else k];
      assert queues'[p][m] == queues[p][if p == q && m >= i then m + 1 else m];
    }
    forall p, k, j | 0 <= p < |queues'| && 0 <= k < |queues'[p]| && 0 <= j < |ts| &&
      queues'[p][k].kind.IsWrite() && !ts[j].isWrite
      ensures queues'[p][k].hex != ts[j].addr
    {
      assert queues'[p][k] == queues[p][if p == q && k >= i then k + 1 else k];
    }
  }

  /** A moved write has no read of its address left behind in the transaction queues. */
  ghost predicate MayMove(s: Ctrl, t: Transaction) {
    t.isWrite ==>
      && (forall j :: 0 <= j < |s.unified| && !s.unified[j].isWrite ==> s.unified[j].addr != t.addr)
      && (forall j :: 0 <= j < |s.readQ| && !s.readQ[j].isWrite ==> s.readQ[j].addr != t.addr)
  }

  lemma OrderedMove(c: Config, s: Ctrl, src: Source, i: nat)
    requires Core(c, s) && Ordered(s)
    requires i < |SourceQueue(s, src)| && SourceQueue(s, src)[i].addr >= 0
    requires WillAcceptCommand(c, s.cq, TransToCommand(c, SourceQueue(s, src)[i]).Bank())
    requires MayMove(s, SourceQueue(s, src)[i])
    ensures Ordered(Move(c, s, src, i))
  {
    hide Legal, RequestsOk, Accounted, QueueIndex, CommandFor, CqOk, TransOk;
    var t := SourceQueue(s, src)[i];
    var cmd := TransToCommand(c, t);
    assert cmd.hex == t.addr && cmd.kind.IsWrite() == t.isWrite && cmd.kind.IsRead() == !t.isWrite
      by { CommandIs(c, t); }
    var p := QueueIndex(c, cmd.Bank());
    AppendOrdered(s.cq.queues, p, cmd, s.unified);
    AppendOrdered(s.cq.queues, p, cmd, s.readQ);
    if src.Unified? {
      SourceShrinks(s.cq.queues[p := s.cq.queues[p] + [cmd]], s.unified, i);
    } else if src.ReadQueue? {
      SourceShrinks(s.cq.queues[p := s.cq.queues[p] + [cmd]], s.readQ, i);
    }
  }

  lemma CommandIs(c: Config, t: Transaction)
    requires t.addr >= 0
    ensures var cmd := TransToCommand(c, t);
      cmd.hex == t.addr && cmd.kind.IsWrite() == t.isWrite && cmd.kind.IsRead() == !t.isWrite
  {
  }

  /** Appending keeps the order when a read follows no write and a write leaves no read behind. */
  lemma AppendOrdered(queues: seq<seq<Command>>, p: nat, cmd: Command, ts: seq<Transaction>)
    requires QueueOrder(queues) && NotOvertaken(queues, ts) && p < |queues|
    requires cmd.kind.IsWrite() ==> forall j :: 0 <= j < |ts| && !ts[j].isWrite ==> ts[j].addr != cmd.hex
    ensures NotOvertaken(queues[p := queues[p] + [cmd]], ts)
    ensures (cmd.kind.IsRead() ==> exists j :: 0 <= j < |ts| && !ts[j].isWrite && ts[j].addr == cmd.hex) ==>
      QueueOrder(queues[p := queues[p] + [cmd]])
  {
  }

  lemma SourceShrinks(queues: seq<seq<Command>>, ts: seq<Transaction>, i: nat)
    requires i < |ts|
    ensures NotOvertaken(queues, ts) ==> NotOvertaken(queues, Remove(ts, i))
    ensures TransOrder(ts) ==> TransOrder(Remove(ts, i))
  {
    var ts' := Remove(ts, i);
    forall j | 0 <= j < |ts'| ensures ts'[j] == ts[if j >= i then j + 1 else j] {
    }
  }

  lemma SameAddressSameBank(c: Config, t: Transaction, u: Transaction)
    requires t.addr >= 0 && t.addr == u.addr
    ensures TransToCommand(c, t).Bank() == TransToCommand(c, u).Bank()
  {
  }

  /** In one queue for all transactions, the reads before a write are offered first, to the same
      command queue; so they are not passed over for it. */
  lemma UnifiedMayMove(c: Config, s: Ctrl, i: nat)
    requires TransShape(c, s) && TransOrder(s.unified) && i < |s.unified| && c.unifiedQueue
    requires FirstFitting(c, s.cq, s.unified, 0) == Some(i)
    ensures MayMove(s, s.unified[i])
  {
    hide WillAcceptCommand, FirstFitting, CommandFor;
    var t := s.unified[i];
    FirstFittingFits(c, s.cq, s.unified, 0);
    forall j | 0 <= j < |s.unified| && t.isWrite && !s.unified[j].isWrite ensures s.unified[j].addr != t.addr {
      if j < i && s.unified[j].addr == t.addr {
        SameAddressSameBank(c, t, s.unified[j]);
      }
    }
  }

  /** With separate queues, a write is held back while a read of its address is pending. */
  lemma SplitMayMove(c: Config, s: Ctrl, t: Transaction)
    requires TransShape(c, s) && Accounted(s) && !c.unifiedQueue && (t.isWrite ==> !HasRead(s.pendingRd, t.addr))
    ensures MayMove(s, t)
  {
    hide Accounted, HasRead;
    forall j | 0 <= j < |s.readQ| && t.isWrite ensures s.readQ[j].addr != t.addr {
      NoneInReadQ(s, Key(t.addr, false), j);
    }
  }

  lemma OrderedSchedule(c: Config, s: Ctrl)
    requires Core(c, s) && Ordered(s)
    ensures TransOk(s) && Ordered(ScheduleTransaction(c, s))
  {
    hide Core, FirstFitting, WillAcceptCommand, Move, Draining, MayMove, HasRead, TransShape, Accounted;
    CoreParts(c, s);
    var s1 := s.(draining := Draining(c, s));
    CoreDraining(c, s, s1.draining);
    CoreParts(c, s1);
    var src := if c.unifiedQueue then Unified else if s1.draining > 0 then WriteBuffer else ReadQueue;
    var q := SourceQueue(s1, src);
    FirstFittingFits(c, s1.cq, q, 0);
    var fit := FirstFitting(c, s1.cq, q, 0);
    if fit.Some? {
      var i := fit.value;
      if c.unifiedQueue {
        UnifiedMayMove(c, s1, i);
        OrderedMove(c, s1, src, i);
      } else if q[i].isWrite {
        var s2 := s1.(draining := s1.draining - 1);
        CoreDraining(c, s1, s1.draining - 1);
        CoreParts(c, s2);
        if !HasRead(s1.pendingRd, q[i].addr) {
          SplitMayMove(c, s2, q[i]);
          OrderedMove(c, s2, src, i);
        }
      } else {
        SplitMayMove(c, s1, q[i]);
        OrderedMove(c, s1, src, i);
      }
    }
  }

  lemma CoreParts(c: Config, s: Ctrl)
    requires Core(c, s)
    ensures TransOk(s) && TransShape(c, s) && Accounted(s)
  {
  }

  // ---- the property -----------------------------------------------------------------------------------

  /** Commands of one address share their coordinates, hence their queue. */
  lemma SameHexSameQueue(c: Config, queues: seq<seq<Command>>, q: nat, i: nat, p: nat, j: nat)
    requires Placed(c, queues) && q < |queues| && i < |queues[q]| && p < |queues| && j < |queues[p]|
    requires queues[q][i].hex == queues[p][j].hex
    ensures p == q && queues[q][i].addr == queues[p][j].addr
  {
    hide QueueIndex, NumQueues;
    assert CmdOk(c, queues[q][i]) && CmdOk(c, queues[p][j]);
  }

  /** A WRITE is never issued while an earlier-accepted read of its address is pending. */
  lemma WriteWaitsForReads(c: Config, s: Ctrl, q: nat, j: nat)
    requires Core(c, s) && Ordered(s) && QueuesOk(c, s.cq)
    requires q < |s.cq.queues| && j < |s.cq.queues[q]|
    requires IsEntry(c, s, q, j, s.cq.queues[q][j]) && s.cq.queues[q][j].kind.IsWrite()
    ensures !HasRead(s.pendingRd, s.cq.queues[q][j].hex)
  {
    hide Legal, HasRead, Count, CountAll, ReadyCommand, RequestsOk, NumQueues;
    var w := s.cq.queues[q][j];
    var k := Key(w.hex, false);
    if HasRead(s.pendingRd, w.hex) {
      assert Pending(s, k) && Waiting(s, k) == 1;
      if CountAll(s.cq.queues, CmdKey, k) > 0 {
        var p, i := CountAllFind(s.cq.queues, CmdKey, k);
        SameHexSameQueue(c, s.cq.queues, q, j, p, i);
        ReadIsRead(c, s.cq.queues[p][i]);
      } else if Count(s.unified, TransKey, k) > 0 {
        var i := CountFind(s.unified, TransKey, k);
      } else if Count(s.readQ, TransKey, k) > 0 {
        var i := CountFind(s.readQ, TransKey, k);
      } else {
        var i := CountFind(s.writeBuf, TransKey, k);
      }
    }
  }

  lemma ReadIsRead(c: Config, cmd: Command)
    requires CmdOk(c, cmd) && !cmd.kind.IsWrite()
    ensures cmd.kind.IsRead()
  {
  }
}

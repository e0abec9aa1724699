/** `CommandQueue`: queues of column commands, searched for the first that can make progress. */
module CommandQueues {
  import opened DramTypes
  import opened Counting
  import opened DramConfig
  import opened History
  import opened Channel
  import opened Scheduler
  import opened QueueFacts

  class CommandQueue {
    const c: Config
    const chan: ChannelState
    var queues: seq<seq<Command>>
    var idx: int
    var inRef: bool
    var refIdx: set<int>
    var clk: int

    ghost function View(): QueueState
      reads this
    {
      QueueState(queues, idx, inRef, refIdx, clk)
    }

    /** Every entry can be asked for and lies inside the channel. */
    ghost predicate EntriesOk()
      reads this
    {
      && QueuesOk(c, View())
      && forall q, i :: 0 <= q < |queues| && 0 <= i < |queues[q]| ==>
        InRange(c, queues[q][i]) && queues[q][i].kind.IsColumn()
    }

    ghost predicate Ready()
      reads this, chan, chan.cells
    {
      c.Valid() && chan.c == c && chan.Valid() && EntriesOk()
    }

    constructor (c: Config, chan: ChannelState)
      ensures this.c == c && this.chan == chan
      ensures View() == QueueState(seq(NumQueues(c), _ => []), 0, false, {}, 0)
    {
      this.c, this.chan := c, chan;
      queues, idx, inRef, refIdx, clk := seq(NumQueues(c), _ => []), 0, false, {}, 0;
    }

    method ClockTick()
      modifies this`clk
      ensures View() == old(View()).(clk := old(clk) + 1)
    {
      clk := clk + 1;
    }

    // ---- arbitration --------------------------------------------------------------------------

    method ArbitratePrecharge(queue: seq<Command>, it: nat) returns (ok: bool)
      requires chan.Valid() && it < |queue| && chan.c.HasBank(queue[it].Bank())
      ensures ok == MayPrecharge(chan.log, queue, it)
    {
      hide RowOf, chan.Valid;
      var cmd := queue[it];
      var prev := 0;
      while prev < it
        invariant 0 <= prev <= it
        invariant forall j :: 0 <= j < prev ==> queue[j].Bank() != cmd.Bank()
      {
        if queue[prev].Bank() == cmd.Bank() {
          return false;
        }
        prev := prev + 1;
      }
      var pendingRowHitsExist := false;
      var openRow := chan.OpenRow(cmd.Bank());
      var pending := it;
      while pending < |queue| && !pendingRowHitsExist
        invariant it <= pending <= |queue|
        invariant pendingRowHitsExist <==>
          exists j :: it <= j < pending && queue[j].addr.row == openRow && queue[j].Bank() == cmd.Bank()
      {
        if queue[pending].addr.row == openRow && queue[pending].Bank() == cmd.Bank() {
          pendingRowHitsExist := true;
        }
        pending := pending + 1;
      }
      var hits := chan.RowHitCount(cmd.Bank());
      var rowhitLimitReached := hits >= 4;
      return !pendingRowHitsExist || rowhitLimitReached;
    }

    method HasDependency(queue: seq<Command>, it: nat) returns (dep: bool)
      requires it < |queue|
      ensures dep == HasRWDependency(queue, it)
    {
      var cmd := queue[it];
      var i := 0;
      while i < it
        invariant 0 <= i <= it
        invariant forall j :: 0 <= j < i ==>
          !(queue[j].kind.IsRead() && queue[j].addr.row == cmd.addr.row && queue[j].addr.column == cmd.addr.column
            && queue[j].addr.bank == cmd.addr.bank && queue[j].addr.group == cmd.addr.group)
      {
        if queue[i].kind.IsRead() && queue[i].addr.row == cmd.addr.row && queue[i].addr.column == cmd.addr.column
           && queue[i].addr.bank == cmd.addr.bank && queue[i].addr.group == cmd.addr.group {
          return true;
        }
        i := i + 1;
      }
      return false;
    }

    method GetFirstReadyInQueue(queue: seq<Command>) returns (r: Option<Command>)
      requires chan.Valid() && chan.c == c && AllAskable(queue)
      requires forall i :: 0 <= i < |queue| ==> InRange(c, queue[i]) && queue[i].kind.IsColumn()
      ensures r == FirstReady(c, chan.log, clk, queue, 0)
      ensures r.None? ==> Barren(c, chan.log, clk, queue)
      ensures r.Some? ==> exists j: nat :: FirstCandidate(c, chan.log, clk, queue, j, r.value)
    {
      hide RowOf, ReadyCommand, MayPrecharge, HasRWDependency, chan.Valid, Barren, FirstCandidate;
      FirstReadyIsFirst(c, chan.log, clk, queue, 0);
      var it := 0;
      while it < |queue|
        invariant 0 <= it <= |queue|
        invariant FirstReady(c, chan.log, clk, queue, 0) == FirstReady(c, chan.log, clk, queue, it)
      {
        var cmd := chan.GetReadyCommand(queue[it], clk);
        if cmd.Some? {
          var skip := false;
          if cmd.value.kind.Precharge? {
            var ok := ArbitratePrecharge(queue, it);
            skip := !ok;
          } else if cmd.value.kind.IsWrite() {
            skip := HasDependency(queue, it);
          }
          if !skip {
            return cmd;
          }
        }
        it := it + 1;
      }
      return None;
    }

    // ---- selection ----------------------------------------------------------------------------

    method GetNextQueue()
      requires 0 <= idx < NumQueues(c)
      modifies this`idx
      ensures idx == NextIdx(c, old(idx)) && 0 <= idx < NumQueues(c)
    {
      idx := idx + 1;
      if idx == NumQueues(c) {
        idx := 0;
      }
    }

    /** Without the command the source exits. */
    method EraseRWCommand(cmd: Command) returns (found: bool)
      requires 0 <= QueueIndex(c, cmd.Bank()) < |queues|
      modifies this`queues
      ensures found <==> Scheduler.EraseRWCommand(c, old(queues), cmd).Ok?
      ensures queues == if found then Scheduler.EraseRWCommand(c, old(queues), cmd).value else old(queues)
      ensures !found ==> forall j :: 0 <= j < |queues[QueueIndex(c, cmd.Bank())]| ==>
        !SameJob(cmd, queues[QueueIndex(c, cmd.Bank())][j])
      ensures found ==> exists i: nat :: ErasesFirst(old(queues), queues, QueueIndex(c, cmd.Bank()), cmd, i)
    {
      var q := QueueIndex(c, cmd.Bank());
      var i := 0;
      while i < |queues[q]|
        invariant 0 <= i <= |queues[q]|
        invariant queues == old(queues)
        invariant FindCommand(queues[q], cmd, 0) == FindCommand(queues[q], cmd, i)
        invariant forall j :: 0 <= j < i ==> !SameJob(cmd, queues[q][j])
      {
        if cmd.hex == queues[q][i].hex && cmd.kind == queues[q][i].kind {
          queues := queues[q := Remove(queues[q], i)];
          assert ErasesFirst(old(queues), queues, q, cmd, i);
          return true;
        }
        i := i + 1;
      }
      return false;
    }

    method GetCommandToIssue() returns (cmd: Option<Command>)
      requires Ready() && Scheduler.GetCommandToIssue(c, chan.log, View()).Ok?
      modifies this
      ensures (cmd, View()) == Scheduler.GetCommandToIssue(c, chan.log, old(View())).value
      ensures cmd.None? ==> idx == old(idx) && forall q :: 0 <= q < NumQueues(c) ==>
        SetAside(old(View()), q) || Barren(c, chan.log, clk, old(queues)[q])
      ensures cmd.Some? ==> exists n: nat, j: nat ::
        NextInTurn(c, chan.log, old(View()), n, j, cmd.value) && idx == Ahead(c, old(idx), n)
    {
      hide FirstReady, Scheduler.EraseRWCommand, Barren, FirstCandidate, NextInTurn;
      ChoiceIsNext(c, chan.log, View());
      ghost var was := View();
      var n := 0;
      while n < NumQueues(c)
        invariant 0 <= n <= NumQueues(c)
        invariant View() == was.(idx := idx) && 0 <= idx < NumQueues(c)
        invariant Choose(c, chan.log, was, NumQueues(c)) == Choose(c, chan.log, View(), NumQueues(c) - n)
      {
        GetNextQueue();
        if !(inRef && idx in refIdx) {
          cmd := GetFirstReadyInQueue(queues[idx]);
          if cmd.Some? {
            if cmd.value.kind.IsColumn() {
              ErasedFromQueue(c, queues, cmd.value);
              var found := EraseRWCommand(cmd.value);
            }
            return;
          }
        }
        n := n + 1;
      }
      return None;
    }

    // ---- refresh ------------------------------------------------------------------------------

    method GetRefQIndices(ref: Command)
      requires c.Valid()
      modifies this`refIdx
      ensures refIdx == old(refIdx) + RefQueues(c, ref)
    {
      hide NumQueues;
      if ref.kind.Refresh? {
        if c.queueStructure.PerBank? {
          var banks := c.bankgroups * c.banksPerGroup;
          assert banks > 0 by { BanksExist(c); }
          var i := 0;
          while i < NumQueues(c)
            invariant 0 <= i <= NumQueues(c)
            invariant refIdx == old(refIdx) + set k | 0 <= k < i && k / banks == ref.addr.rank
          {
            if i / banks == ref.addr.rank {
              refIdx := refIdx + {i};
            }
            i := i + 1;
          }
        } else {
          refIdx := refIdx + {ref.addr.rank};
        }
      } else {
        refIdx := refIdx + {QueueIndex(c, ref.Bank())};
      }
    }

    method FinishRefresh() returns (cmd: Option<Command>)
      requires c.Valid() && chan.c == c && chan.Valid()
      requires chan.refreshQ != [] && Askable(chan.refreshQ[0].kind) && InRange(c, chan.refreshQ[0])
      modifies this`refIdx, this`inRef
      ensures (cmd, View()) == Scheduler.FinishRefresh(c, chan.log, chan.refreshQ[0], old(View()))
    {
      hide ReadyCommand, RefQueues;
      var ref := chan.refreshQ[0];
      if !inRef {
        GetRefQIndices(ref);
        inRef := true;
      }
      cmd := chan.GetReadyCommand(ref, clk);
      if cmd.Some? && cmd.value.kind.IsRefresh() {
        refIdx := {};
        inRef := false;
      }
    }

    // ---- filling ------------------------------------------------------------------------------

    method WillAcceptCommand(b: BankId) returns (ok: bool)
      requires 0 <= QueueIndex(c, b) < |queues|
      ensures ok == Scheduler.WillAcceptCommand(c, View(), b)
    {
      var q := QueueIndex(c, b);
      return |queues[q]| < c.cmdQueueSize;
    }

    method QueueEmpty() returns (empty: bool)
      ensures empty == Scheduler.QueueEmpty(View())
    {
      var q := 0;
      while q < |queues|
        invariant 0 <= q <= |queues|
        invariant forall p :: 0 <= p < q ==> queues[p] == []
      {
        if queues[q] != [] {
          return false;
        }
        q := q + 1;
      }
      return true;
    }

    method AddCommand(cmd: Command) returns (ok: bool)
      requires 0 <= QueueIndex(c, cmd.Bank()) < |queues|
      modifies this`queues
      ensures ok <==> Scheduler.WillAcceptCommand(c, old(View()), cmd.Bank())
      ensures View() == if ok then Scheduler.AddCommand(c, old(View()), cmd) else old(View())
    {
      var q := QueueIndex(c, cmd.Bank());
      if |queues[q]| < c.cmdQueueSize {
        queues := queues[q := queues[q] + [cmd]];
        return true;
      }
      return false;
    }
  }

  /** `after` is `before` without entry `i` of queue `q`, the first that matches `cmd`. */
  ghost predicate ErasesFirst(before: seq<seq<Command>>, after: seq<seq<Command>>, q: int, cmd: Command, i: nat) {
    && 0 <= q < |before| && i < |before[q]| && SameJob(cmd, before[q][i])
    && (forall j :: 0 <= j < i ==> !SameJob(cmd, before[q][j]))
    && after == before[q := before[q][..i] + before[q][i + 1..]]
  }

  lemma ErasedFromQueue(c: Config, queues: seq<seq<Command>>, cmd: Command)
    requires EraseRWCommand(c, queues, cmd).Ok?
    ensures 0 <= QueueIndex(c, cmd.Bank()) < |queues|
  {
  }

  lemma BanksExist(c: Config)
    requires c.Valid()
    ensures c.Banks() > 0
  {
  }
}

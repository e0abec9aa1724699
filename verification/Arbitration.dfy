/** Which command a cycle issues, in every run: the refresh at the front if it can make progress, otherwise the oldest
    possible one of the next queue in turn, and none only if the queues can issue nothing. */
module Arbitration {
  import opened DramTypes
  import opened Division
  import opened DramConfig
  import opened History
  import opened Scheduler
  import opened QueueFacts
  import opened Turns
  import opened Ordering
  import opened Memory
  import opened Delivery
  import opened RowUse
  import opened RefreshProgress
  import opened Runs
  import opened ChannelTheorems
  import opened TimingRules

  /** The queues of the refresh at the front are set aside, and no others. */
  ghost function QueuesNow(c: Config, s: Ctrl): QueueState {
    if s.refreshQ == [] then s.cq.(inRef := false, refIdx := {})
    else s.cq.(inRef := true, refIdx := RefQueues(c, s.refreshQ[0]))
  }

  /** The refresh at the front can issue `cmd`. */
  ghost predicate RefreshCan(c: Config, s: Ctrl, cmd: Command) {
    s.refreshQ != [] && Askable(s.refreshQ[0].kind) && ReadyCommand(c, s.log, s.refreshQ[0], s.clk) == Some(cmd)
  }

  /** Entry `j` of the queue `n` places on is next in turn, and the queues go on from there. */
  ghost predicate TakesTurn(c: Config, s: Ctrl, idx: int, n: nat, j: nat, cmd: Command) {
    var cq := QueuesNow(c, s);
    QueuesOk(c, cq) && NextInTurn(c, s.log, cq, n, j, cmd) && idx == Ahead(c, cq.idx, n)
  }

  ghost predicate NothingToDo(c: Config, s: Ctrl) {
    var cq := QueuesNow(c, s);
    QueuesOk(c, cq) &&
    forall q :: 0 <= q < NumQueues(c) ==> SetAside(cq, q) || Barren(c, s.log, cq.clk, cq.queues[q])
  }

  /** What a cycle that starts its selection in `s` makes of the history and the place in the round. */
  ghost predicate Picks(c: Config, s: Ctrl, log: Log, idx: int) {
    if exists cmd :: RefreshCan(c, s, cmd) then
      exists cmd :: RefreshCan(c, s, cmd) && log == s.log + [Issue(s.clk, cmd)] && idx == s.cq.idx
    else
      || (log == s.log && idx == s.cq.idx && NothingToDo(c, s))
      || exists n: nat, j: nat, cmd :: TakesTurn(c, s, idx, n, j, cmd) && log == s.log + [Issue(s.clk, cmd)]
  }

  lemma QueuesNowAre(c: Config, s: Ctrl)
    requires Core(c, s) && InSync(c, s.cq, s.refreshQ)
    ensures QueuesOk(c, QueuesNow(c, s))
    ensures s.refreshQ == [] ==> QueuesNow(c, s) == s.cq
    ensures s.refreshQ != [] ==> Askable(s.refreshQ[0].kind)
    ensures s.refreshQ != [] ==>
      QueuesNow(c, s) ==
      if s.cq.inRef then s.cq else s.cq.(refIdx := s.cq.refIdx + RefQueues(c, s.refreshQ[0]), inRef := true)
  {
    hide Legal, Accounted, TransShape, Placed, RefQueues, NumQueues;
    CqOkSteps(c, s.cq);
    if s.refreshQ != [] {
      assert {} + RefQueues(c, s.refreshQ[0]) == RefQueues(c, s.refreshQ[0]);
    }
  }

  lemma IssueAppends(c: Config, s: Ctrl, cmd: Command)
    requires IssueCommand(c, s, cmd).Ok?
    ensures var s' := IssueCommand(c, s, cmd).value; s'.log == s.log + [Issue(s.clk, cmd)] && s'.cq == s.cq
  {
    hide ReadsOf, OtherReads, CompleteAt, Answer, RequestsAfter, Advance, RowOf;
  }

  lemma PickIsNext(c: Config, s: Ctrl)
    requires Core(c, s) && IssuedBefore(s.log, s.clk) && InSync(c, s.cq, s.refreshQ)
    ensures Steppable(c, s) && Dispatch(c, s).Ok?
    ensures Picks(c, s, Dispatch(c, s).value.log, Dispatch(c, s).value.cq.idx)
  {
    hide Core, InSync, Legal, Choose, IsTurn, IsEntry, ReadyCommand, IssueCommand, Barren, NextInTurn, Ahead, QueuesNow,
         EraseRWCommand, RefQueues, NumQueues;
    CoreIsSteppable(c, s);
    var turn, from := DispatchTurn(c, s);
    QueuesNowAre(c, s);
    var cq := QueuesNow(c, s);
    var s' := Dispatch(c, s).value;
    ClockOf(c, s);
    if s.refreshQ != [] && ReadyCommand(c, s.log, s.refreshQ[0], s.clk).Some? {
      var cmd := ReadyCommand(c, s.log, s.refreshQ[0], s.clk).value;
      var (r, cq') := FinishRefresh(c, s.log, s.refreshQ[0], s.cq);
      IssueAppends(c, s.(cq := cq'), cmd);
      assert RefreshCan(c, s, cmd);
    } else {
      ChoiceIsNext(c, s.log, cq);
      var (r, idx) := Choose(c, s.log, cq, NumQueues(c));
      if r.Some? {
        var n: nat, j: nat :| NextInTurn(c, s.log, cq, n, j, r.value) && idx == Ahead(c, cq.idx, n);
        var (cmd, cq') := GetCommandToIssue(c, s.log, cq).value;
        IssueAppends(c, s.(cq := cq'), r.value);
        TurnAhead(c, s, n);
        assert TakesTurn(c, s, idx, n, j, r.value);
      } else {
        SameIdx(c, s);
      }
    }
  }

  lemma ClockOf(c: Config, s: Ctrl)
    requires Core(c, s)
    ensures s.cq.clk == s.clk
  {
    hide Legal, Accounted, TransShape;
  }

  lemma SameIdx(c: Config, s: Ctrl)
    ensures QueuesNow(c, s).idx == s.cq.idx && QueuesNow(c, s).queues == s.cq.queues
  {
  }

  lemma TurnAhead(c: Config, s: Ctrl, n: nat)
    ensures QueuesNow(c, s).idx == s.cq.idx && QueuesNow(c, s).clk == s.cq.clk
  {
  }

  /** In every run, every cycle. */
  lemma SelectionInTurn(c: Config, es: seq<Event>)
    requires c.Valid()
    ensures var s := AtSelection(c, es);
      Dispatch(c, s).Ok? && Picks(c, s, Dispatch(c, s).value.log, Dispatch(c, s).value.cq.idx)
  {
    hide AtSelection, Core, Picks, Dispatch, Steppable, InSync, PolicyKept, Ordered, Faithful, Conserved, Punctual,
         RowsWanted;
    var s := AtSelection(c, es);
    PickIsNext(c, s);
  }

  // ---- what an entry can issue ------------------------------------------------------------------------------------

  /** No timing rule is against `kind` on bank `b` now and, if it is an ACTIVATE, no activation window. */
  ghost predicate TimeFor(c: Config, log: Log, clk: int, b: BankId, kind: Kind) {
    && Timely(c, log, b, kind, clk)
    && (kind.Activate? ==> WindowClear(log, b.rank, c.tFAW, 4, clk))
    && (kind.Activate? && c.IsGDDR() ==> WindowClear(log, b.rank, c.t32AW, 32, clk))
  }

  /** An earlier read of the very same place. */
  ghost predicate ReadBefore(q: seq<Command>, j: nat)
    requires j < |q|
  {
    exists i :: 0 <= i < j && q[i].kind.IsRead()
      && q[i].addr.(channel := 0, rank := 0) == q[j].addr.(channel := 0, rank := 0)
  }

  /** Entry `j` is the first for its bank, and no entry from it on hits the open row unless that has served four. */
  ghost predicate MayClose(log: Log, q: seq<Command>, j: nat, open: int, hits: nat)
    requires j < |q|
  {
    && (forall i :: 0 <= i < j ==> q[i].Bank() != q[j].Bank())
    && (hits >= 4 || forall i :: j <= i < |q| && q[i].Bank() == q[j].Bank() ==> q[i].addr.row != open)
  }

  /** Entry `j` opens the row it needs, accesses it, or has another row of its bank closed, each exactly when time
      and the other entries allow. */
  lemma CandidateMeans(c: Config, log: Log, clk: int, q: seq<Command>, j: nat)
    requires Legal(c, log) && (log != [] ==> Last(log).clk < clk) && clk >= 0
    requires j < |q| && AllAskable(q) && q[j].kind.IsColumn() && c.HasBank(q[j].Bank())
    ensures var e := q[j];
      Candidate(c, log, clk, q, j) ==
        match RowOf(log, e.Bank())
        case Closed => if TimeFor(c, log, clk, e.Bank(), Activate) then Some(e.(kind := Activate)) else None
        case Open(row, hits) =>
          if row == e.addr.row then
            if TimeFor(c, log, clk, e.Bank(), e.kind) && !(e.kind.IsWrite() && ReadBefore(q, j)) then Some(e) else None
          else if TimeFor(c, log, clk, e.Bank(), Precharge) && MayClose(log, q, j, row, hits)
          then Some(e.(kind := Precharge))
          else None
  {
    hide Legal, RowOf, Timely, WindowClear, ReadyCommand;
    ReadyMeansRules(c, log, q[j], clk);
    DependencyIs(q, j);
    if RowOf(log, q[j].Bank()).Open? {
      MayCloseIs(log, q, j);
    }
  }

  lemma DependencyIs(q: seq<Command>, j: nat)
    requires j < |q|
    ensures HasRWDependency(q, j) <==> ReadBefore(q, j)
  {
  }

  lemma MayCloseIs(log: Log, q: seq<Command>, j: nat)
    requires j < |q| && RowOf(log, q[j].Bank()).Open?
    ensures var r := RowOf(log, q[j].Bank()); MayPrecharge(log, q, j) <==> MayClose(log, q, j, r.row, r.hits)
  {
    hide RowOf;
  }

  // ---- no needless waiting ----------------------------------------------------------------------------------------

  /** Nothing issued so far holds anything back any more. */
  ghost predicate AllReleased(c: Config, log: Log, clk: int) {
    && (forall b, kind: Kind :: c.HasBank(b) ==> Earliest(c, log, b, kind) <= clk)
    && forall rank: int :: ActivationWindowOk(c, log, rank, clk)
  }

  lemma ReadyWhenReleased(c: Config, log: Log, cmd: Command, clk: int)
    requires AllReleased(c, log, clk) && cmd.kind.IsColumn() && c.HasBank(cmd.Bank())
    ensures ReadyCommand(c, log, cmd, clk) == Some(cmd.(kind := Required(RowOf(log, cmd.Bank()), cmd)))
  {
    hide Earliest, RowOf, ActivationWindowOk;
  }

  /** Commands of one queue are for one rank. */
  lemma OneRank(c: Config, a: BankId, b: BankId)
    requires c.Valid() && c.HasBank(a) && c.HasBank(b) && QueueIndex(c, a) == QueueIndex(c, b)
    ensures a.rank == b.rank
  {
    if c.queueStructure.PerBank? {
      OffsetInRank(c, a);
      OffsetInRank(c, b);
      DivideUnique(QueueIndex(c, a), c.Banks(), a.rank);
      DivideUnique(QueueIndex(c, b), c.Banks(), b.rank);
    }
  }

  /** The entry hits the open row of its bank. */
  ghost predicate HitsRow(log: Log, q: seq<Command>, j: nat, b: BankId)
    requires j < |q|
  {
    q[j].Bank() == b && q[j].addr.row == OpenRow(log, b)
  }

  lemma {:induction false} FirstHit(log: Log, q: seq<Command>, j: nat, b: BankId) returns (i: nat)
    requires j < |q| && HitsRow(log, q, j, b)
    ensures i <= j && HitsRow(log, q, i, b) && forall k :: 0 <= k < i ==> !HitsRow(log, q, k, b)
  {
    hide OpenRow;
    if k :| 0 <= k < j && HitsRow(log, q, k, b) {
      i := FirstHit(log, q, k, b);
    } else {
      i := j;
    }
  }

  lemma QueuedOk(c: Config, s: Ctrl, q: nat, j: nat)
    requires Core(c, s) && q < |s.cq.queues| && j < |s.cq.queues[q]|
    ensures AllAskable(s.cq.queues[q]) && s.cq.queues[q][j].kind.IsColumn() && c.HasBank(s.cq.queues[q][j].Bank())
    ensures QueueIndex(c, s.cq.queues[q][j].Bank()) == q
  {
    hide Legal, Accounted, TransShape, QueueIndex, RequestsOk, NumQueues;
    CqOkSteps(c, s.cq);
    var cmd := s.cq.queues[q][j];
    assert CmdOk(c, cmd);
    DecodedBank(c, cmd.hex, cmd.kind.IsWrite());
  }

  /** The first queued access of an open row can go. */
  lemma HitCanGo(c: Config, s: Ctrl, q: nat, j: nat)
    requires Core(c, s) && q < |s.cq.queues| && j < |s.cq.queues[q]| && AllReleased(c, s.log, s.clk)
    requires var b := s.cq.queues[q][j].Bank();
      && RowOf(s.log, b).Open? && HitsRow(s.log, s.cq.queues[q], j, b)
      && forall k :: 0 <= k < j ==> !HitsRow(s.log, s.cq.queues[q], k, b)
    ensures AllAskable(s.cq.queues[q]) && Candidate(c, s.log, s.clk, s.cq.queues[q], j).Some?
  {
    hide Core, RowOf, AllReleased, ReadyCommand, MayPrecharge, QueueIndex;
    var queue := s.cq.queues[q];
    QueuedOk(c, s, q, j);
    ReadyWhenReleased(c, s.log, queue[j], s.clk);
    if queue[j].kind.IsWrite() && HasRWDependency(queue, j) {
      var i :| 0 <= i < j && queue[i].kind.IsRead() && queue[i].addr.row == queue[j].addr.row
        && queue[i].addr.bank == queue[j].addr.bank && queue[i].addr.group == queue[j].addr.group;
      HitsToo(c, s, q, i, j);
    }
  }

  /** An entry with the coordinates of a hit is one. */
  lemma HitsToo(c: Config, s: Ctrl, q: nat, i: nat, j: nat)
    requires Core(c, s) && q < |s.cq.queues| && i < |s.cq.queues[q]| && j < |s.cq.queues[q]|
    requires var x, y := s.cq.queues[q][i].addr, s.cq.queues[q][j].addr;
      x.row == y.row && x.group == y.group && x.bank == y.bank
    ensures var b := s.cq.queues[q][j].Bank();
      HitsRow(s.log, s.cq.queues[q], j, b) ==> HitsRow(s.log, s.cq.queues[q], i, b)
  {
    hide Core, RowOf, QueueIndex;
    QueuedOk(c, s, q, i);
    QueuedOk(c, s, q, j);
    CoreValid(c, s);
    OneRank(c, s.cq.queues[q][i].Bank(), s.cq.queues[q][j].Bank());
  }

  lemma CoreValid(c: Config, s: Ctrl)
    requires Core(c, s)
    ensures c.Valid()
  {
    hide Legal, Accounted, TransShape;
  }

  /** A queue with entries can issue something as soon as time allows: the oldest entry's next command, or an access of
      the row that keeps it waiting. */
  lemma QueueCanGo(c: Config, s: Ctrl, q: nat)
    requires Core(c, s) && q < |s.cq.queues| && s.cq.queues[q] != [] && AllReleased(c, s.log, s.clk)
    ensures AllAskable(s.cq.queues[q]) && !Barren(c, s.log, s.clk, s.cq.queues[q])
  {
    hide Core, RowOf, AllReleased, ReadyCommand, QueueIndex;
    var queue := s.cq.queues[q];
    QueuedOk(c, s, q, 0);
    var b := queue[0].Bank();
    ReadyWhenReleased(c, s.log, queue[0], s.clk);
    if RowOf(s.log, b).Open? && !MayPrecharge(s.log, queue, 0) {
      var j :| 0 <= j < |queue| && queue[j].addr.row == OpenRow(s.log, b) && queue[j].Bank() == b;
      var i := FirstHit(s.log, queue, j, b);
      HitCanGo(c, s, q, i);
    } else {
      assert Candidate(c, s.log, s.clk, queue, 0).Some?;
    }
  }

  /** In every run: once everything issued has been released, a cycle issues a command as long as a queue that is not
      set aside has an entry. */
  lemma NoNeedlessIdling(c: Config, es: seq<Event>, q: nat)
    requires c.Valid()
    requires var s := AtSelection(c, es);
      && q < |s.cq.queues| && s.cq.queues[q] != [] && !SetAside(QueuesNow(c, s), q) && AllReleased(c, s.log, s.clk)
    ensures var s := AtSelection(c, es); Dispatch(c, s).Ok? && |Dispatch(c, s).value.log| == |s.log| + 1
  {
    hide AtSelection, Core, Dispatch, Steppable, InSync, PolicyKept, Ordered, Faithful, Conserved, Punctual,
         RowsWanted, AllReleased, Barren, RefreshCan, TakesTurn;
    var s := AtSelection(c, es);
    SelectionInTurn(c, es);
    QueueCanGo(c, s, q);
    if NothingToDo(c, s) {
      ClockOf(c, s);
      TurnAhead(c, s, 0);
      SameIdx(c, s);
    }
  }
}

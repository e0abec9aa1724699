/** What was true when each command of a run's history was issued. */
module IssuedCommands {
  import opened DramTypes
  import opened DramConfig
  import opened History
  import opened Scheduler
  import opened QueueFacts
  import opened Turns
  import opened Steps
  import opened Ordering
  import opened Memory
  import opened Delivery
  import opened RowUse
  import opened RefreshProgress
  import opened Runs
  import opened ChannelTheorems

  /** Event `n` of the run is the cycle that issued entry `i` of its history. */
  ghost predicate Issues(c: Config, es: seq<Event>, n: nat, i: nat)
    requires c.Valid() && i < |After(c, es).log|
  {
    && n < |es| && es[n].Cycle?
    && After(c, es[..n]).log == After(c, es).log[..i] && After(c, es[..n]).clk == After(c, es).log[i].clk
    && After(c, es[..n + 1]).log == After(c, es).log[..i + 1]
    && After(c, es[..n + 1]).clk == After(c, es).log[i].clk + 1
  }

  lemma AtSelectionFrame(c: Config, es: seq<Event>)
    requires c.Valid()
    ensures var s, t := After(c, es), AtSelection(c, es);
      t.log == s.log && t.clk == s.clk && t.cq == s.cq && t.pendingRd == s.pendingRd
  {
    hide After, Sound, IssuedBefore, Steppable, Due, NotDue, Called;
  }

  /** A cycle appends what it selects. */
  lemma CycleAppends(c: Config, es: seq<Event>, e: Event)
    requires c.Valid() && e.Cycle?
    ensures var s := AtSelection(c, es);
      && Dispatch(c, s).Ok? && After(c, es + [e]).log == Dispatch(c, s).value.log && After(c, es + [e]).clk == s.clk + 1
  {
    hide Sound, IssuedBefore, RefreshTick, Dispatch, ScheduleTransaction, ReturnDone;
    GoodInitial(c);
    EveryRun(c, Initial(c), es);
    assert (es + [e])[..|es + [e]| - 1] == es;
    var s := After(c, es);
    GoodCycle(c, s);
    var s1 := AtSelection(c, es);
    AtSelectionFrame(c, es);
    SoundDispatch(c, s1);
    SoundSchedule(c, Dispatch(c, s1).value, s.clk + 1);
  }

  lemma AcceptAppendsNothing(c: Config, es: seq<Event>, e: Event)
    requires c.Valid() && e.Accept?
    ensures After(c, es + [e]).log == After(c, es).log
  {
    hide Good, Steppable;
    GoodInitial(c);
    EveryRun(c, Initial(c), es);
    assert (es + [e])[..|es + [e]| - 1] == es;
    GoodStep(c, After(c, es), e);
    AcceptKeeps(c, After(c, es), e.addr, e.isWrite, e.data);
  }

  /** The refresh at the front needs `cmd` now. */
  ghost predicate NeededByRefresh(c: Config, s: Ctrl, cmd: Command) {
    s.refreshQ != [] && Askable(s.refreshQ[0].kind) && ReadyCommand(c, s.log, s.refreshQ[0], s.clk) == Some(cmd)
  }

  /** Why `cmd` is issued: the refresh at the front needs it, or a queue entry does. */
  ghost predicate Chosen(c: Config, s: Ctrl, cmd: Command, from: Origin) {
    && QueuesOk(c, s.cq)
    && (cmd.kind.IsWrite() ==> from.FromQueue?)
    && match from
       case FromRefresh => NeededByRefresh(c, s, cmd)
       case FromQueue(q, j) => IsEntry(c, s, q, j, cmd) && (cmd.kind.IsWrite() ==> s.cq.queues[q][j] == cmd)
  }

  ghost predicate Grown(s: Ctrl, log: Log, turn: Turn) {
    log == if turn.Idle? then s.log else s.log + [Issue(s.clk, turn.cmd)]
  }

  lemma SelectionChooses(c: Config, s: Ctrl) returns (turn: Turn, from: Origin)
    requires Core(c, s) && IssuedBefore(s.log, s.clk)
    ensures Steppable(c, s) && Dispatch(c, s).Ok? && Grown(s, Dispatch(c, s).value.log, turn)
    ensures !turn.Idle? ==> Chosen(c, s, turn.cmd, from)
  {
    hide Core, IsTurn, ReadyCommand, Candidate, Dispatch;
    turn, from := DispatchTurn(c, s);
    TurnAppends(c, s, turn, Dispatch(c, s).value);
  }

  /** The selection of one cycle. */
  lemma Selection(c: Config, es: seq<Event>) returns (turn: Turn, from: Origin)
    requires c.Valid()
    ensures Dispatch(c, AtSelection(c, es)).Ok?
    ensures Grown(AtSelection(c, es), Dispatch(c, AtSelection(c, es)).value.log, turn)
    ensures !turn.Idle? ==> Chosen(c, AtSelection(c, es), turn.cmd, from)
  {
    hide AtSelection, Core, Chosen, Dispatch, Sound, Grown, Steppable;
    var s := AtSelection(c, es);
    SoundIsCore(c, s, s.clk + 1);
    turn, from := SelectionChooses(c, s);
  }

  lemma TurnAppends(c: Config, s: Ctrl, turn: Turn, s': Ctrl)
    requires IsTurn(c, s, turn, s')
    ensures s'.log == if turn.Idle? then s.log else s.log + [Issue(s.clk, turn.cmd)]
    ensures !turn.Idle? && turn.cmd.kind.IsWrite() ==> turn.ColumnTurn?
  {
    hide Admits, RequestsAfter, ReadsOf, OtherReads, CompleteAt, Answer;
  }

  lemma LastEvent(c: Config, es: seq<Event>, i: nat)
    requires c.Valid() && es != [] && |After(c, es[..|es| - 1]).log| <= i < |After(c, es).log|
    ensures Issues(c, es, |es| - 1, i)
  {
    hide After, AtSelection, Steppable, Dispatch, Chosen, Good, Sound;
    var pre, e := es[..|es| - 1], es[|es| - 1];
    assert pre + [e] == es && es[..|es| - 1 + 1] == es;
    if e.Cycle? {
      CycleAppends(c, pre, e);
      AtSelectionFrame(c, pre);
      var turn, from := Selection(c, pre);
      assert After(c, es).log[..i + 1] == After(c, es).log;
    } else {
      AcceptAppendsNothing(c, pre, e);
    }
  }

  /** The histories of a run's beginnings are the beginnings of its history. */
  lemma LogGrows(c: Config, es: seq<Event>)
    requires c.Valid() && es != []
    ensures After(c, es[..|es| - 1]).log <= After(c, es).log
  {
    hide Good, Step, Steppable;
    GoodInitial(c);
    EveryRun(c, Initial(c), es[..|es| - 1]);
    GoodStep(c, After(c, es[..|es| - 1]), es[|es| - 1]);
  }

  /** Every entry of a history was issued by one cycle of the run. */
  lemma {:induction false} IssuedIn(c: Config, es: seq<Event>, i: nat) returns (n: nat)
    requires c.Valid() && i < |After(c, es).log|
    ensures Issues(c, es, n, i)
  {
    hide After, Good;
    if es == [] {
      NothingYet(c);
    } else {
      var pre := es[..|es| - 1];
      LogGrows(c, es);
      if i < |After(c, pre).log| {
        n := IssuedIn(c, pre, i);
        assert pre[..n] == es[..n] && pre[..n + 1] == es[..n + 1];
        assert After(c, pre).log[..i + 1] == After(c, es).log[..i + 1];
      } else {
        n := |es| - 1;
        LastEvent(c, es, i);
      }
    }
  }

  lemma NothingYet(c: Config)
    requires c.Valid()
    ensures After(c, []).log == []
  {
    hide Good;
  }

  /** The choice that issued entry `i`. */
  lemma ChosenFor(c: Config, es: seq<Event>, i: nat, n: nat) returns (from: Origin)
    requires c.Valid() && i < |After(c, es).log| && Issues(c, es, n, i)
    ensures Chosen(c, AtSelection(c, es[..n]), After(c, es).log[i].cmd, from)
  {
    hide After, AtSelection, Sound, Good, Chosen, Dispatch, Steppable;
    var turn;
    turn, from := Selection(c, es[..n]);
    assert es[..n] + [es[n]] == es[..n + 1];
    CycleAppends(c, es[..n], es[n]);
    AtSelectionFrame(c, es[..n]);
    var log := After(c, es).log;
    assert log[..i + 1] == log[..i] + [log[i]];
  }

  /** No read of its address was pending when any WRITE was issued. */
  lemma WrittenAfterReads(c: Config, es: seq<Event>, i: nat) returns (n: nat)
    requires c.Valid() && i < |After(c, es).log| && After(c, es).log[i].cmd.kind.IsWrite()
    ensures Issues(c, es, n, i)
    ensures !HasRead(After(c, es[..n]).pendingRd, After(c, es).log[i].cmd.hex)
  {
    hide After, AtSelection, Good, Core, Sound, Candidate, ReadyCommand, HasRead;
    n := IssuedIn(c, es, i);
    var from := ChosenFor(c, es, i, n);
    AtSelectionFrame(c, es[..n]);
    WritesKeepOrder(c, es[..n], from.q, from.j);
  }

  /** Row `row` of bank `b` was used, and is not wanted by the queues or served four accesses. */
  ghost predicate Spent(queues: seq<seq<Command>>, log: Log, b: BankId) {
    var row := RowOf(log, b);
    row.Open? && row.hits >= 1 && (row.hits >= 4 || !Wanted(queues, b, row.row))
  }

  /** When any PRECHARGE was issued, either the refresh at the front needed it, or its row had served an access and
      nothing queued would still hit it unless it had served four. */
  lemma ClosedAfterUse(c: Config, es: seq<Event>, i: nat) returns (n: nat)
    requires c.Valid() && i < |After(c, es).log| && After(c, es).log[i].cmd.kind.Precharge?
    ensures Issues(c, es, n, i)
    ensures var pre := After(c, es).log[i].cmd;
      || NeededByRefresh(c, AtSelection(c, es[..n]), pre)
      || Spent(After(c, es[..n]).cq.queues, After(c, es).log[..i], pre.Bank())
  {
    hide After, AtSelection, Good, Core, Sound, IsEntry, ReadyCommand, RowOf, Wanted;
    n := IssuedIn(c, es, i);
    var from := ChosenFor(c, es, i, n);
    AtSelectionFrame(c, es[..n]);
    if from.FromQueue? {
      PrechargesWasteNothing(c, es[..n], from.q, from.j, After(c, es).log[i].cmd);
    }
  }
}

/** Refreshes are issued in the order they were asked for, none is lost and none is made up, under every refresh
    policy. */
module RefreshOrder {
  import opened DramTypes
  import opened DramConfig
  import opened History
  import opened Scheduler
  import opened QueueFacts
  import opened Turns
  import opened Steps
  import opened Ordering
  import opened Memory
  import opened Delivery
  import opened RowUse
  import opened Runs

  /** The timer after `n` ticks. */
  ghost function TimerAt(c: Config, n: nat): RefreshState
    requires c.Valid()
  {
    if n == 0 then RefreshState(0, 0, 0, 0) else RefreshAfter(c, TimerAt(c, n - 1), []).0
  }

  /** The requests of the first `n` ticks. */
  ghost function Calendar(c: Config, n: nat): seq<Command>
    requires c.Valid()
  {
    if n == 0 then [] else Calendar(c, n - 1) + RefreshAfter(c, TimerAt(c, n - 1), []).1
  }

  /** The refreshes issued, in order. */
  ghost function Refreshes(log: Log): seq<Command> {
    if log == [] then []
    else Refreshes(Front(log)) + if Last(log).cmd.kind.IsRefresh() then [Last(log).cmd] else []
  }

  /** Issued and waiting refreshes are what the calendar called for. */
  ghost predicate InLine(c: Config, s: Ctrl) {
    c.Valid() && s.clk >= 0 && s.ref == TimerAt(c, s.clk) && Refreshes(s.log) + s.refreshQ == Calendar(c, s.clk)
  }

  lemma RefreshesSnoc(log: Log, x: Issue)
    ensures Refreshes(log + [x]) == Refreshes(log) + if x.cmd.kind.IsRefresh() then [x.cmd] else []
  {
    assert Front(log + [x]) == log && Last(log + [x]) == x;
  }

  /** The queues never issue a refresh. */
  lemma EntryIsNoRefresh(c: Config, s: Ctrl, q: nat, j: nat, cmd: Command)
    requires Core(c, s) && QueuesOk(c, s.cq) && IsEntry(c, s, q, j, cmd)
    ensures !cmd.kind.IsRefresh()
  {
    hide Legal, Accounted, TransShape, Candidate;
    assert CmdOk(c, s.cq.queues[q][j]);
    CandidateIsEntry(c, s.log, s.clk, s.cq.queues[q], j);
  }

  lemma TurnInLine(c: Config, s: Ctrl, turn: Turn, s': Ctrl)
    requires IsTurn(c, s, turn, s')
    requires !turn.Idle? && turn.cmd.kind.IsRefresh() ==> s.refreshQ != [] && turn.cmd == s.refreshQ[0]
    ensures Refreshes(s'.log) + s'.refreshQ == Refreshes(s.log) + s.refreshQ
  {
    hide IsTurn, Refreshes;
    TurnRequests(c, s, turn, s');
    TurnLog(c, s, turn, s');
    if !turn.Idle? {
      RefreshesSnoc(s.log, Issue(s.clk, turn.cmd));
    }
  }

  /** A refresh that is issued comes from the front of the requests. */
  lemma DispatchInLine(c: Config, s: Ctrl)
    requires Core(c, s) && IssuedBefore(s.log, s.clk)
    ensures Steppable(c, s) && Dispatch(c, s).Ok?
    ensures var s' := Dispatch(c, s).value; Refreshes(s'.log) + s'.refreshQ == Refreshes(s.log) + s.refreshQ
  {
    hide Core, IsTurn, ReadyCommand, IsEntry, Dispatch, Refreshes;
    CoreIsSteppable(c, s);
    var turn, from := DispatchTurn(c, s);
    if !turn.Idle? {
      if from.FromRefresh? {
        FrontIsRefresh(c, s);
        RefreshReadies(c, s.log, s.refreshQ[0], s.clk);
      } else {
        EntryIsNoRefresh(c, s, from.q, from.j, turn.cmd);
      }
    }
    TurnInLine(c, s, turn, Dispatch(c, s).value);
  }

  lemma FrontIsRefresh(c: Config, s: Ctrl)
    requires Core(c, s) && s.refreshQ != []
    ensures s.refreshQ[0].kind.IsRefresh() && InRange(c, s.refreshQ[0])
  {
    hide Legal, Accounted, TransShape, CqOk;
  }

  lemma TurnLog(c: Config, s: Ctrl, turn: Turn, s': Ctrl)
    requires IsTurn(c, s, turn, s')
    ensures s'.log == if turn.Idle? then s.log else s.log + [Issue(s.clk, turn.cmd)]
  {
    hide Admits, RequestsAfter, ReadsOf, OtherReads, CompleteAt, Answer;
  }

  /** A tick of the timer adds the next request of the calendar. */
  lemma TimerInLine(c: Config, s: Ctrl)
    requires InLine(c, s)
    ensures var s' := RefreshTick(c, s);
      s'.ref == TimerAt(c, s.clk + 1) && s'.log == s.log && Refreshes(s'.log) + s'.refreshQ == Calendar(c, s.clk + 1)
  {
    hide NextRequest, IterateNext, RefreshDue;
  }

  lemma SoundCore(c: Config, s: Ctrl, bound: int)
    requires Sound(c, s, bound)
    ensures Core(c, s)
  {
    hide Ordered, Faithful, Conserved, Punctual, RowsWanted, InSync, PolicyKept, Core;
  }

  lemma CycleInLine(c: Config, s: Ctrl)
    requires Good(c, s) && InLine(c, s)
    ensures Steppable(c, s) && Step(c, s, Cycle).Ok? && InLine(c, Step(c, s, Cycle).value)
  {
    hide Sound, RefreshTick, Dispatch, ScheduleTransaction, ReturnDone, Refreshes, Calendar, TimerAt;
    GoodCycle(c, s);
    var s0 := ReturnDone(s, s.clk);
    SoundReturn(c, s);
    ReturnFrame(s, s.clk);
    TimerInLine(c, s0);
    var s1 := RefreshTick(c, s0);
    SoundRefresh(c, s0, s.clk + 1);
    RefreshFrame(c, s0);
    SoundDispatch(c, s1);
    SoundCore(c, s1, s.clk + 1);
    DispatchInLine(c, s1);
    SoundSchedule(c, Dispatch(c, s1).value, s.clk + 1);
  }

  lemma AcceptInLine(c: Config, s: Ctrl, e: Event)
    requires e.Accept? && InLine(c, s) && Steppable(c, s)
    ensures Step(c, s, e).Ok? && InLine(c, Step(c, s, e).value)
  {
    hide Refreshes, Calendar, TimerAt;
  }

  lemma InitiallyInLine(c: Config)
    requires c.Valid()
    ensures InLine(c, Initial(c))
  {
  }

  /** In every run, the refreshes issued so far, followed by the requests waiting, are the calendar up to now. */
  lemma {:induction false} ServedInOrder(c: Config, es: seq<Event>)
    requires c.Valid()
    ensures Exec(c, Initial(c), es).Ok?
    ensures var s := Exec(c, Initial(c), es).value; s.clk >= 0 && Refreshes(s.log) + s.refreshQ == Calendar(c, s.clk)
    ensures InLine(c, Exec(c, Initial(c), es).value)
  {
    hide Good, Step, Steppable, Refreshes, Calendar, TimerAt;
    GoodInitial(c);
    EveryRun(c, Initial(c), es);
    if es == [] {
      InitiallyInLine(c);
    } else {
      var pre, e := es[..|es| - 1], es[|es| - 1];
      EveryRun(c, Initial(c), pre);
      ServedInOrder(c, pre);
      var s := Exec(c, Initial(c), pre).value;
      GoodStep(c, s, e);
      if e.Cycle? {
        CycleInLine(c, s);
      } else {
        AcceptInLine(c, s, e);
      }
    }
  }
}

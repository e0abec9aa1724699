/** All of it together, for every run of the controller from its initial state. */
module Runs {
  import opened DramTypes
  import opened Counting
  import opened DramConfig
  import opened History
  import opened Scheduler
  import opened QueueFacts
  import opened Turns
  import opened Steps
  import opened Ordering
  import opened Memory
  import opened Delivery
  import opened RowUse
  import opened RefreshProgress

  /** Nothing is amiss; transactions that return may be due from `bound` on. */
  ghost predicate Sound(c: Config, s: Ctrl, bound: int) {
    && Core(c, s) && TimerOk(c, s.ref) && Ordered(s) && Faithful(s) && Conserved(s)
    && Punctual(c, s, bound) && RowsWanted(c, s) && InSync(c, s.cq, s.refreshQ) && PolicyKept(c, s.log)
  }

  /** With open pages no column command closes its row, with closed pages every one does. */
  ghost predicate PolicyKept(c: Config, log: Log) {
    forall i :: 0 <= i < |log| && log[i].cmd.kind.IsColumn() ==>
      (log[i].cmd.kind.ReadPrecharge? || log[i].cmd.kind.WritePrecharge? <==> c.closePage)
  }

  lemma PolicyAfterTurn(c: Config, s: Ctrl, turn: Turn, s': Ctrl)
    requires PolicyKept(c, s.log) && Core(c, s) && IsTurn(c, s, turn, s')
    ensures PolicyKept(c, s'.log)
  {
    hide Legal, Accounted, Admits, ReadsOf, OtherReads, CompleteAt, Answer, RequestsAfter;
    if turn.ColumnTurn? {
      assert CmdOk(c, s.cq.queues[turn.q][turn.i]);
    }
  }

  /** Between events. */
  ghost predicate Good(c: Config, s: Ctrl) {
    Sound(c, s, s.clk) && IssuedBefore(s.log, s.clk) && s.ref.clk == s.clk && s.clk >= 0
  }

  lemma GoodInitial(c: Config)
    requires c.Valid()
    ensures Good(c, Initial(c))
  {
    hide NumQueues;
    assert NumQueues(c) > 0 by { SomeQueue(c); }
    var s := Initial(c);
    forall k: Key ensures Waiting(s, k) == 0 {
      CountAllNone(NumQueues(c), CmdKey, k);
    }
  }

  lemma SomeQueue(c: Config)
    requires c.Valid()
    ensures NumQueues(c) > 0
  {
    QueueIndexInRange(c, BankId(0, 0, 0));
  }

  lemma GoodAccept(c: Config, s: Ctrl, addr: nat, isWrite: bool, data: int)
    requires Good(c, s)
    ensures Good(c, AddTransaction(c, s, addr, isWrite, data))
  {
    hide PolicyKept, Core, Ordered, Faithful, Conserved, Punctual, RowsWanted, InSync, IssuedBefore;
    CoreAccept(c, s, addr, isWrite, data);
    OrderedAccept(c, s, addr, isWrite, data);
    FaithfulAccept(c, s, addr, isWrite, data);
    ConservedAccept(c, s, addr, isWrite, data);
    CoreIsLegal(c, s);
    PunctualAccept(c, s, addr, isWrite, data);
    assert AddTransaction(c, s, addr, isWrite, data).ref == s.ref
      && AddTransaction(c, s, addr, isWrite, data).cq == s.cq;
    RowsWantedElsewhere(c, s, AddTransaction(c, s, addr, isWrite, data));
  }

  lemma CoreIsLegal(c: Config, s: Ctrl)
    requires Core(c, s)
    ensures Legal(c, s.log)
  {
  }

  lemma RowsWantedElsewhere(c: Config, s: Ctrl, s': Ctrl)
    requires RowsWanted(c, s) && s'.log == s.log && s'.cq.queues == s.cq.queues
    ensures RowsWanted(c, s')
  {
    hide RowOf;
  }

  lemma OrderedElsewhere(s: Ctrl, s': Ctrl)
    requires Ordered(s) && s'.cq.queues == s.cq.queues && s'.unified == s.unified && s'.readQ == s.readQ
    ensures Ordered(s')
  {
  }

  lemma ConservedElsewhere(s: Ctrl, s': Ctrl)
    requires Conserved(s) && s'.rec == s.rec && s'.pendingRd == s.pendingRd && s'.returnQ == s.returnQ
    ensures Conserved(s')
  {
    hide Count;
    assert forall id: nat :: Places(s', id) == Places(s, id);
  }

  lemma PunctualElsewhere(c: Config, s: Ctrl, s': Ctrl, bound: int)
    requires Punctual(c, s, bound) && s'.rec == s.rec && s'.pendingRd == s.pendingRd && s'.returnQ == s.returnQ
    requires s'.pendingWr == s.pendingWr
    requires s'.log == s.log && s'.clk >= s.clk
    ensures Punctual(c, s', bound)
  {
    hide Scheduled, OnTime, Forwarded, Buffered;
    BufferedElsewhere(s, s');
  }

  lemma SoundReturn(c: Config, s: Ctrl)
    requires Good(c, s)
    ensures Sound(c, ReturnDone(s, s.clk), s.clk + 1)
  {
    hide PolicyKept, Ordered, Faithful, Conserved, Punctual, RowsWanted, InSync, Due, NotDue, Called, Accounted,
         TransShape, CqOk, RequestsOk;
    var s' := ReturnDone(s, s.clk);
    CoreReturn(c, s, s.clk);
    OrderedElsewhere(s, s');
    FaithfulReturn(s, s.clk);
    ConservedReturn(s, s.clk);
    PunctualReturn(c, s);
    RowsWantedElsewhere(c, s, s');
  }

  lemma SoundRefresh(c: Config, s: Ctrl, bound: int)
    requires Sound(c, s, bound)
    ensures c.Valid() && Sound(c, RefreshTick(c, s), bound)
  {
    hide PolicyKept, Ordered, Faithful, Conserved, Punctual, RowsWanted, Accounted, TransShape, CqOk, RequestsOk, Legal,
         IterateNext, NextRequest;
    var s' := RefreshTick(c, s);
    CoreRefresh(c, s);
    OrderedElsewhere(s, s');
    FaithfulElsewhere(s, s');
    ConservedElsewhere(s, s');
    PunctualElsewhere(c, s, s', bound);
    RowsWantedElsewhere(c, s, s');
  }

  lemma SoundDispatch(c: Config, s: Ctrl)
    requires Sound(c, s, s.clk + 1) && IssuedBefore(s.log, s.clk)
    ensures Steppable(c, s) && Dispatch(c, s).Ok?
    ensures var s' := Dispatch(c, s).value;
      Sound(c, s', s.clk + 1) && IssuedBefore(s'.log, s.clk + 1) && s'.ref == s.ref && s'.clk == s.clk
    ensures s.log <= Dispatch(c, s).value.log
  {
    hide PolicyKept, Ordered, Faithful, Conserved, Punctual, RowsWanted, InSync, Core, Dispatch, Candidate,
         ReadyCommand, Admits, CqOk;
    CoreIsSteppable(c, s);
    var turn, from := DispatchTurn(c, s);
    var s' := Dispatch(c, s).value;
    if turn.ColumnTurn? && turn.cmd.kind.IsWrite() {
      WriteWaitsForReads(c, s, from.q, from.j);
    }
    CoreAfterTurn(c, s, turn, s');
    OrderedAfterTurn(c, s, turn, s');
    FaithfulAfterTurn(c, s, turn, s');
    ConservedAfterTurn(c, s, turn, s');
    PunctualAfterTurn(c, s, turn, s');
    RowsWantedAfterTurn(c, s, turn, from, s');
    TurnFrame(c, s, turn, s');
    PolicyAfterTurn(c, s, turn, s');
  }

  lemma TurnFrame(c: Config, s: Ctrl, turn: Turn, s': Ctrl)
    requires IsTurn(c, s, turn, s') && IssuedBefore(s.log, s.clk)
    ensures s'.ref == s.ref && s'.clk == s.clk && IssuedBefore(s'.log, s.clk + 1) && s.log <= s'.log
  {
    hide Admits, RequestsAfter, ReadsOf, OtherReads, CompleteAt, Answer;
  }

  lemma SoundSchedule(c: Config, s: Ctrl, bound: int)
    requires Sound(c, s, bound)
    ensures TransOk(s) && Sound(c, ScheduleTransaction(c, s), bound)
    ensures var s' := ScheduleTransaction(c, s);
      s'.log == s.log && s'.clk == s.clk && s'.ref == s.ref && s'.refreshQ == s.refreshQ
  {
    hide PolicyKept, Ordered, Faithful, Conserved, Punctual, RowsWanted, Core, ScheduleTransaction;
    CoreTrans(c, s);
    var s' := ScheduleTransaction(c, s);
    CoreSchedule(c, s);
    OrderedSchedule(c, s);
    RowsWantedSchedule(c, s);
    ScheduleFrame(c, s);
    FaithfulElsewhere(s, s');
    ConservedElsewhere(s, s');
    PunctualElsewhere(c, s, s', bound);
  }

  lemma ScheduleFrame(c: Config, s: Ctrl)
    requires TransOk(s)
    ensures var s' := ScheduleTransaction(c, s);
      && s'.log == s.log && s'.clk == s.clk && s'.ref == s.ref && s'.refreshQ == s.refreshQ && s'.rec == s.rec
      && s'.pendingRd == s.pendingRd && s'.pendingWr == s.pendingWr && s'.returnQ == s.returnQ
      && s'.cq == s.cq.(queues := s'.cq.queues)
  {
    hide FirstFitting, WillAcceptCommand, Draining;
  }

  lemma GoodAdvance(c: Config, s: Ctrl)
    requires Sound(c, s, s.clk + 1) && IssuedBefore(s.log, s.clk + 1) && s.ref.clk == s.clk + 1 && s.clk >= 0
    ensures Good(c, s.(clk := s.clk + 1, cq := s.cq.(clk := s.cq.clk + 1)))
  {
    hide PolicyKept, Faithful, Conserved, Punctual, RowsWanted, Ordered, Legal, Accounted;
    var s' := s.(clk := s.clk + 1, cq := s.cq.(clk := s.cq.clk + 1));
    AccountedElsewhere(s, s');
    OrderedElsewhere(s, s');
    FaithfulElsewhere(s, s');
    ConservedElsewhere(s, s');
    PunctualElsewhere(c, s, s', s.clk + 1);
    RowsWantedElsewhere(c, s, s');
  }

  lemma AccountedElsewhere(s: Ctrl, s': Ctrl)
    requires Accounted(s) && s'.cq.queues == s.cq.queues && s'.unified == s.unified && s'.readQ == s.readQ
    requires s'.writeBuf == s.writeBuf
    requires s'.pendingRd == s.pendingRd && s'.pendingWr == s.pendingWr
    ensures Accounted(s')
  {
    hide Count, CountAll;
    assert forall k: Key :: Waiting(s', k) == Waiting(s, k) && Pending(s', k) == Pending(s, k);
  }

  /** The states inside one memory cycle. */
  lemma GoodCycle(c: Config, s: Ctrl)
    requires Good(c, s)
    ensures Steppable(c, s) && Step(c, s, Cycle).Ok? && Good(c, Step(c, s, Cycle).value)
    ensures Step(c, s, Cycle).value.clk == s.clk + 1 && s.log <= Step(c, s, Cycle).value.log
  {
    hide Sound, RefreshTick, Dispatch, ScheduleTransaction, ReturnDone;
    GoodSteps(c, s);
    var s0 := ReturnDone(s, s.clk);
    SoundReturn(c, s);
    ReturnFrame(s, s.clk);
    var s1 := RefreshTick(c, s0);
    SoundRefresh(c, s0, s.clk + 1);
    RefreshFrame(c, s0);
    SoundDispatch(c, s1);
    var s2 := Dispatch(c, s1).value;
    SoundSchedule(c, s2, s.clk + 1);
    var s3 := ScheduleTransaction(c, s2);
    GoodAdvance(c, s3);
  }

  lemma GoodSteps(c: Config, s: Ctrl)
    requires Good(c, s)
    ensures Steppable(c, s)
  {
    hide Legal, Accounted;
    CoreIsSteppable(c, s);
  }

  lemma ReturnFrame(s: Ctrl, clk: int)
    ensures var s' := ReturnDone(s, clk);
      s'.log == s.log && s'.clk == s.clk && s'.ref == s.ref && s'.refreshQ == s.refreshQ && s'.cq == s.cq
  {
  }

  lemma RefreshFrame(c: Config, s: Ctrl)
    requires c.Valid()
    ensures var s' := RefreshTick(c, s);
      s'.log == s.log && s'.clk == s.clk && s'.ref.clk == s.ref.clk + 1 && s'.cq == s.cq && s.refreshQ <= s'.refreshQ
  {
  }

  // ---- runs -----------------------------------------------------------------------------------------

  /** The state after a sequence of events. */
  ghost function Exec(c: Config, s: Ctrl, es: seq<Event>): Outcome<Ctrl> {
    if es == [] then Ok(s)
    else
      var s1 :- Exec(c, s, es[..|es| - 1]);
      if Steppable(c, s1) then Step(c, s1, es[|es| - 1]) else Abort(IllegalBankCommand)
  }

  lemma GoodStep(c: Config, s: Ctrl, e: Event)
    requires Good(c, s)
    ensures Steppable(c, s) && Step(c, s, e).Ok? && Good(c, Step(c, s, e).value)
    ensures s.log <= Step(c, s, e).value.log
  {
    hide Good, Tick, ReturnDone;
    GoodSteps(c, s);
    match e
    case Accept(addr, isWrite, data) =>
      GoodAccept(c, s, addr, isWrite, data);
      AcceptKeeps(c, s, addr, isWrite, data);
    case Cycle =>
      GoodCycle(c, s);
  }

  /** No run ever reaches one of the simulator's exits, and all its invariants hold throughout. */
  lemma {:induction false} EveryRun(c: Config, s: Ctrl, es: seq<Event>)
    requires Good(c, s)
    ensures Exec(c, s, es).Ok? && Good(c, Exec(c, s, es).value) && s.log <= Exec(c, s, es).value.log
  {
    hide Good, Step, Steppable;
    if es != [] {
      EveryRun(c, s, es[..|es| - 1]);
      GoodStep(c, Exec(c, s, es[..|es| - 1]).value, es[|es| - 1]);
    }
  }
}

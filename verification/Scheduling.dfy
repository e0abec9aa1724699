/** How transactions reach the command queues, in every run: which one is moved, when writes are drained, and that no
    queue ever holds more than it may. */
module Scheduling {
  import opened DramTypes
  import opened Counting
  import opened DramConfig
  import opened History
  import opened Scheduler
  import opened QueueFacts
  import opened Turns
  import opened Steps
  import opened Ordering
  import opened Memory
  import opened Delivery
  import opened RowUse
  import opened Runs
  import opened ChannelTheorems

  // ---- which transaction is moved ---------------------------------------------------------------------------------

  function QueueOf(c: Config, t: Transaction): int
    requires t.addr >= 0
  {
    QueueIndex(c, CommandFor(c, t.addr, t.isWrite).Bank())
  }

  /** There is room where transaction `t` has to go. */
  predicate Room(c: Config, s: Ctrl, t: Transaction) {
    t.addr >= 0 && 0 <= QueueOf(c, t) < |s.cq.queues| && |s.cq.queues[QueueOf(c, t)]| < c.cmdQueueSize
  }

  /** The write buffer is full, or well filled while the command queues are idle. */
  ghost predicate AtWatermark(c: Config, s: Ctrl) {
    |s.writeBuf| >= c.transQueueSize
      || (|s.writeBuf| > 8 && forall q :: 0 <= q < |s.cq.queues| ==> s.cq.queues[q] == [])
  }

  /** Writes left to drain in this cycle. */
  ghost function ToDrain(c: Config, s: Ctrl): int {
    if c.unifiedQueue || s.draining != 0 then s.draining else if AtWatermark(c, s) then |s.writeBuf| else 0
  }

  /** Where this cycle looks for a transaction. */
  ghost function Stage(c: Config, s: Ctrl): Source {
    if c.unifiedQueue then Unified else if ToDrain(c, s) > 0 then WriteBuffer else ReadQueue
  }

  /** Transaction `i` of `src` is the first there with room. */
  ghost predicate FirstWithRoom(c: Config, s: Ctrl, src: Source, i: nat) {
    var q := SourceQueue(s, src);
    i < |q| && Room(c, s, q[i]) && forall j :: 0 <= j < i ==> !Room(c, s, q[j])
  }

  /** Transaction `i` of `src` leaves for the back of its command queue; nothing else moves. */
  ghost predicate Moves(c: Config, s: Ctrl, s': Ctrl, src: Source, i: nat) {
    var q := SourceQueue(s, src);
    && i < |q| && Room(c, s, q[i])
    && s'.cq.queues == s.cq.queues[QueueOf(c, q[i]) :=
      s.cq.queues[QueueOf(c, q[i])] + [CommandFor(c, q[i].addr, q[i].isWrite)]]
    && SourceQueue(s', src) == q[..i] + q[i + 1..]
    && forall other: Source :: other != src ==> SourceQueue(s', other) == SourceQueue(s, other)
  }

  ghost predicate NothingMoves(s: Ctrl, s': Ctrl) {
    s'.cq == s.cq && forall src: Source :: SourceQueue(s', src) == SourceQueue(s, src)
  }

  /** The first transaction with room is a drained write that an earlier read of its address still holds back. */
  ghost predicate HeldBack(c: Config, s: Ctrl, src: Source, i: nat) {
    && FirstWithRoom(c, s, src, i) && !c.unifiedQueue && SourceQueue(s, src)[i].isWrite
    && HasRead(s.pendingRd, SourceQueue(s, src)[i].addr)
  }

  ghost function DrainedBy(c: Config, s: Ctrl, src: Source, i: nat): int
    requires i < |SourceQueue(s, src)|
  {
    if !c.unifiedQueue && SourceQueue(s, src)[i].isWrite then 1 else 0
  }

  ghost predicate FirstMoves(c: Config, s: Ctrl, s': Ctrl, src: Source, i: nat) {
    && FirstWithRoom(c, s, src, i) && !HeldBack(c, s, src, i) && Moves(c, s, s', src, i)
    && s'.draining == ToDrain(c, s) - DrainedBy(c, s, src, i)
  }

  /** What a cycle does: the first transaction with room moves. If that is a write held back by a read, the draining
      stops instead. If none has room, nothing moves. */
  ghost predicate Schedules(c: Config, s: Ctrl, s': Ctrl) {
    var src := Stage(c, s);
    || (exists i: nat :: FirstMoves(c, s, s', src, i))
    || ((exists i: nat :: HeldBack(c, s, src, i)) && NothingMoves(s, s') && s'.draining == 0)
    || (NobodyFits(c, s, src) && NothingMoves(s, s') && s'.draining == ToDrain(c, s))
  }

  ghost predicate NobodyFits(c: Config, s: Ctrl, src: Source) {
    forall i :: 0 <= i < |SourceQueue(s, src)| ==> !Room(c, s, SourceQueue(s, src)[i])
  }

  lemma RoomIs(c: Config, s: Ctrl, t: Transaction)
    requires t.addr >= 0
    ensures Room(c, s, t) <==> WillAcceptCommand(c, s.cq, TransToCommand(c, t).Bank())
  {
    hide CommandFor, QueueIndex;
  }

  lemma MoveMoves(c: Config, s: Ctrl, d: int, src: Source, i: nat)
    requires i < |SourceQueue(s, src)| && SourceQueue(s, src)[i].addr >= 0
    requires WillAcceptCommand(c, s.cq, TransToCommand(c, SourceQueue(s, src)[i]).Bank())
    ensures Moves(c, s, Move(c, s.(draining := d), src, i), src, i) && Move(c, s.(draining := d), src, i).draining == d
  {
    hide CommandFor, QueueIndex;
    RoomIs(c, s, SourceQueue(s, src)[i]);
  }

  /** The scheduling of every cycle. */
  lemma ScheduleLaw(c: Config, s: Ctrl)
    requires TransOk(s)
    ensures Schedules(c, s, ScheduleTransaction(c, s))
  {
    hide CommandFor, WillAcceptCommand, Move, Room, Moves, FirstFitting, HasRead;
    var src, d := Stage(c, s), ToDrain(c, s);
    DrainIs(c, s);
    var s1 := s.(draining := d);
    var q := SourceQueue(s, src);
    FirstFittingFits(c, s.cq, q, 0);
    forall i | 0 <= i < |q| ensures Room(c, s, q[i]) <==> WillAcceptCommand(c, s.cq, TransToCommand(c, q[i]).Bank()) {
      RoomIs(c, s, q[i]);
    }
    match FirstFitting(c, s.cq, q, 0)
    case None =>
    case Some(i) =>
      assert FirstWithRoom(c, s, src, i);
      if !HeldBack(c, s, src, i) {
        MoveMoves(c, s, d - DrainedBy(c, s, src, i), src, i);
        assert FirstMoves(c, s, ScheduleTransaction(c, s), src, i);
      }
  }

  lemma DrainIs(c: Config, s: Ctrl)
    ensures Draining(c, s) == ToDrain(c, s)
  {
  }

  /** The state in which the next memory cycle schedules, after it has selected its command. */
  ghost function AtScheduling(c: Config, es: seq<Event>): (s: Ctrl)
    requires c.Valid()
    ensures Sound(c, s, s.clk + 1) && TransOk(s) && TransShape(c, s)
  {
    hide AtSelection, Sound, Dispatch;
    var s := AtSelection(c, es);
    SoundDispatch(c, s);
    ShapeOf(c, Dispatch(c, s).value, s.clk + 1);
    TransOkOf(c, Dispatch(c, s).value);
    Dispatch(c, s).value
  }

  lemma TransOkOf(c: Config, s: Ctrl)
    requires TransShape(c, s)
    ensures TransOk(s)
  {
  }

  /** In every run, every cycle schedules like this. */
  lemma ScheduledInTurn(c: Config, es: seq<Event>)
    requires c.Valid()
    ensures Schedules(c, AtScheduling(c, es), ScheduleTransaction(c, AtScheduling(c, es)))
  {
    hide AtScheduling, Sound, ScheduleTransaction, Schedules;
    ScheduleLaw(c, AtScheduling(c, es));
  }

  // ---- what the queues hold ---------------------------------------------------------------------------------------

  /** No queue holds more than it may, and no more writes are to be drained than there are. */
  ghost predicate Bounded(c: Config, s: Ctrl) {
    && |s.unified| <= Max(0, c.transQueueSize) && |s.readQ| <= Max(0, c.transQueueSize)
    && |s.writeBuf| <= Max(0, c.transQueueSize)
    && (forall q :: 0 <= q < |s.cq.queues| ==> |s.cq.queues[q]| <= Max(0, c.cmdQueueSize))
    && 0 <= s.draining <= (if c.unifiedQueue then 0 else |s.writeBuf|)
  }

  lemma BoundedAccept(c: Config, s: Ctrl, addr: nat, isWrite: bool, data: int)
    requires Bounded(c, s) && WillAcceptTransaction(c, s, isWrite)
    ensures Bounded(c, AddTransaction(c, s, addr, isWrite, data))
  {
    hide HasRead;
  }

  lemma BoundedTurn(c: Config, s: Ctrl, turn: Turn, s': Ctrl)
    requires Bounded(c, s) && IsTurn(c, s, turn, s')
    ensures Bounded(c, s')
  {
    hide Admits, RequestsAfter, ReadsOf, OtherReads, CompleteAt, Answer;
    forall q | 0 <= q < |s'.cq.queues| ensures |s'.cq.queues[q]| <= Max(0, c.cmdQueueSize) {
      assert |s'.cq.queues[q]| <= |s.cq.queues[q]|;
    }
  }

  lemma BoundedSchedule(c: Config, s: Ctrl, s': Ctrl)
    requires Bounded(c, s) && TransShape(c, s) && Schedules(c, s, s')
    ensures Bounded(c, s')
  {
    hide Room, HeldBack;
    var src := Stage(c, s);
    BoundedDrain(c, s);
    if i: nat :| FirstMoves(c, s, s', src, i) {
      BoundedMove(c, s, s', src, i);
    } else {
      assert SourceQueue(s', Unified) == SourceQueue(s, Unified)
        && SourceQueue(s', ReadQueue) == SourceQueue(s, ReadQueue);
      assert SourceQueue(s', WriteBuffer) == SourceQueue(s, WriteBuffer);
    }
  }

  lemma BoundedDrain(c: Config, s: Ctrl)
    requires Bounded(c, s)
    ensures 0 <= ToDrain(c, s) <= (if c.unifiedQueue then 0 else |s.writeBuf|)
  {
  }

  lemma BoundedMove(c: Config, s: Ctrl, s': Ctrl, src: Source, i: nat)
    requires Bounded(c, s) && TransShape(c, s) && FirstMoves(c, s, s', src, i) && src == Stage(c, s)
    requires 0 <= ToDrain(c, s) <= (if c.unifiedQueue then 0 else |s.writeBuf|)
    ensures Bounded(c, s')
  {
    hide CommandFor, QueueIndex, HasRead, AtWatermark, ToDrain;
    forall q | 0 <= q < |s'.cq.queues| ensures |s'.cq.queues[q]| <= Max(0, c.cmdQueueSize) {
    }
    assert forall other: Source :: other != src ==> SourceQueue(s', other) == SourceQueue(s, other);
    match src
    case Unified =>
      assert SourceQueue(s', ReadQueue) == s'.readQ && SourceQueue(s', WriteBuffer) == s'.writeBuf;
    case ReadQueue =>
      assert SourceQueue(s', Unified) == s'.unified && SourceQueue(s', WriteBuffer) == s'.writeBuf;
    case WriteBuffer =>
      assert SourceQueue(s', Unified) == s'.unified && SourceQueue(s', ReadQueue) == s'.readQ;
      assert s.writeBuf[i].isWrite;
  }

  lemma BoundedCycle(c: Config, s: Ctrl)
    requires Good(c, s) && Bounded(c, s)
    ensures Steppable(c, s) && Step(c, s, Cycle).Ok? && Bounded(c, Step(c, s, Cycle).value)
  {
    hide Sound, RefreshTick, Dispatch, ScheduleTransaction, ReturnDone, Bounded, Schedules;
    GoodCycle(c, s);
    var s0 := ReturnDone(s, s.clk);
    SoundReturn(c, s);
    ReturnFrame(s, s.clk);
    var s1 := RefreshTick(c, s0);
    SoundRefresh(c, s0, s.clk + 1);
    RefreshFrame(c, s0);
    BoundedTimer(c, s);
    SoundDispatch(c, s1);
    BoundedDispatch(c, s1, s.clk + 1);
    var s2 := Dispatch(c, s1).value;
    SoundSchedule(c, s2, s.clk + 1);
    ScheduleLaw(c, s2);
    ShapeOf(c, s2, s.clk + 1);
    BoundedSchedule(c, s2, ScheduleTransaction(c, s2));
    BoundedLater(c, ScheduleTransaction(c, s2));
  }

  lemma BoundedTimer(c: Config, s: Ctrl)
    requires c.Valid() && Bounded(c, s)
    ensures Bounded(c, RefreshTick(c, ReturnDone(s, s.clk)))
  {
  }

  lemma BoundedLater(c: Config, s: Ctrl)
    requires Bounded(c, s)
    ensures Bounded(c, s.(clk := s.clk + 1, cq := s.cq.(clk := s.cq.clk + 1)))
  {
  }

  lemma ShapeOf(c: Config, s: Ctrl, bound: int)
    requires Sound(c, s, bound)
    ensures TransShape(c, s) && Core(c, s)
  {
    hide Ordered, Faithful, Conserved, Punctual, RowsWanted, InSync, PolicyKept, Legal, Accounted, TransShape;
  }

  lemma BoundedDispatch(c: Config, s: Ctrl, bound: int)
    requires Sound(c, s, bound) && IssuedBefore(s.log, s.clk) && Bounded(c, s)
    ensures Steppable(c, s) && Dispatch(c, s).Ok? && Bounded(c, Dispatch(c, s).value)
  {
    hide Core, Ordered, Faithful, Conserved, Punctual, RowsWanted, InSync, PolicyKept, Dispatch, IsTurn, IsEntry,
         Bounded;
    CoreIsSteppable(c, s);
    var turn, from := DispatchTurn(c, s);
    BoundedTurn(c, s, turn, Dispatch(c, s).value);
  }

  lemma BoundedInitially(c: Config)
    ensures Bounded(c, Initial(c))
  {
  }

  /** In every run. */
  lemma {:induction false} QueuesStayBounded(c: Config, es: seq<Event>)
    requires c.Valid()
    ensures Bounded(c, After(c, es))
  {
    hide Good, Step, Steppable, Bounded;
    GoodInitial(c);
    EveryRun(c, Initial(c), es);
    if es == [] {
      BoundedInitially(c);
    } else {
      var pre, e := es[..|es| - 1], es[|es| - 1];
      EveryRun(c, Initial(c), pre);
      QueuesStayBounded(c, pre);
      var s := After(c, pre);
      GoodStep(c, s, e);
      if e.Cycle? {
        BoundedCycle(c, s);
      } else {
        BoundedEvent(c, s, e);
      }
    }
  }

  lemma BoundedEvent(c: Config, s: Ctrl, e: Event)
    requires e.Accept? && Bounded(c, s) && Steppable(c, s)
    ensures Step(c, s, e).Ok? && Bounded(c, Step(c, s, e).value)
  {
    hide Bounded, AddTransaction, Steppable;
    if WillAcceptTransaction(c, s, e.isWrite) {
      BoundedAccept(c, s, e.addr, e.isWrite, e.data);
    }
  }

  /** A transaction is refused if and only if its queue is full. */
  lemma RefusedWhenFull(c: Config, es: seq<Event>, e: Event)
    requires c.Valid() && e.Accept?
    ensures var s, s' := After(c, es), After(c, es + [e]);
      var held := if c.unifiedQueue then |s.unified| else if e.isWrite then |s.writeBuf| else |s.readQ|;
      s'.rec.accepted ==
        if held >= c.transQueueSize then s.rec.accepted
        else s.rec.accepted + [Accepted(e.addr, e.isWrite, s.clk, e.data)]
  {
    hide Good, Steppable, AddTransaction;
    GoodInitial(c);
    EveryRun(c, Initial(c), es);
    assert (es + [e])[..|es + [e]| - 1] == es;
    GoodStep(c, After(c, es), e);
    AcceptRecorded(c, After(c, es), e.addr, e.isWrite, e.data);
  }

  lemma AcceptRecorded(c: Config, s: Ctrl, addr: nat, isWrite: bool, data: int)
    ensures AddTransaction(c, s, addr, isWrite, data).rec.accepted ==
      s.rec.accepted + [Accepted(addr, isWrite, s.clk, data)]
  {
  }

  /** The writes in the buffer beyond those still to be drained are as many as before. */
  ghost predicate DrainsOn(c: Config, s: Ctrl, s': Ctrl) {
    |s'.writeBuf| - s'.draining == |s.writeBuf| - ToDrain(c, s)
  }

  /** Draining stops short because a read of the address of the write at hand is pending. */
  ghost predicate DrainStops(c: Config, s: Ctrl, s': Ctrl) {
    s'.draining == 0 && s'.writeBuf == s.writeBuf && exists i: nat :: HeldBack(c, s, WriteBuffer, i)
  }

  /** In every run draining takes as many writes as it set out to, unless a read stops it. */
  lemma DrainingTakesItsWrites(c: Config, es: seq<Event>)
    requires c.Valid() && !c.unifiedQueue && ToDrain(c, AtScheduling(c, es)) > 0
    ensures var s := AtScheduling(c, es); var s' := ScheduleTransaction(c, s);
      DrainsOn(c, s, s') || DrainStops(c, s, s')
  {
    hide AtScheduling, Sound, ScheduleTransaction, Schedules, TransShape, DrainsOn, DrainStops;
    ScheduledInTurn(c, es);
    DrainStep(c, AtScheduling(c, es), ScheduleTransaction(c, AtScheduling(c, es)));
  }

  lemma DrainStep(c: Config, s: Ctrl, s': Ctrl)
    requires TransShape(c, s) && Schedules(c, s, s') && !c.unifiedQueue && ToDrain(c, s) > 0
    ensures DrainsOn(c, s, s') || DrainStops(c, s, s')
  {
    hide Room, HeldBack, ToDrain;
    assert Stage(c, s) == WriteBuffer && SourceQueue(s, WriteBuffer) == s.writeBuf;
    assert SourceQueue(s', WriteBuffer) == s'.writeBuf;
  }
}

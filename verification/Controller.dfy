/** `Controller`: the transaction front end of one channel, in place. Its methods are proved to step the
    state machine of `Scheduler`, so every theorem about runs holds of it. */
module Controllers {
  import opened DramTypes
  import opened Counting
  import opened DramConfig
  import opened History
  import opened Channel
  import opened Scheduler
  import opened QueueFacts
  import opened Turns
  import opened Steps
  import opened RefreshEngine
  import opened CommandQueues
  import opened Ordering
  import opened Memory
  import opened Delivery
  import opened RowUse
  import opened Runs

  // ---- removing the pending reads of an address, one at a time -----------------------------------------

  lemma {:induction false} FirstRead(q: seq<Transaction>, addr: int, i: nat)
    requires i < |q| && q[i].addr == addr && forall j :: 0 <= j < i ==> q[j].addr != addr
    ensures ReadsOf(q, addr) == [q[i]] + ReadsOf(Remove(q, i), addr)
    ensures OtherReads(Remove(q, i), addr) == OtherReads(q, addr)
  {
    if i == 0 {
      assert Remove(q, 0) == q[1..];
    } else {
      FirstRead(q[1..], addr, i - 1);
      assert Remove(q, i) == [q[0]] + Remove(q[1..], i - 1);
      assert Remove(q, i)[1..] == Remove(q[1..], i - 1);
    }
  }

  lemma {:induction false} OnlyOthers(q: seq<Transaction>, addr: int)
    requires ReadsOf(q, addr) == []
    ensures OtherReads(q, addr) == q
  {
    if q != [] {
      OnlyOthers(q[1..], addr);
    }
  }

  lemma {:induction false} NoneLeft(q: seq<Transaction>, addr: int)
    requires forall j :: 0 <= j < |q| ==> q[j].addr != addr
    ensures ReadsOf(q, addr) == []
  {
    if q != [] {
      NoneLeft(q[1..], addr);
    }
  }

  lemma {:induction false} CompleteAppend(a: seq<Transaction>, b: seq<Transaction>, clk: int)
    ensures CompleteAt(a + b, clk) == CompleteAt(a, clk) + CompleteAt(b, clk)
  {
    if a == [] {
      assert a + b == b;
    } else {
      CompleteAppend(a[1..], b, clk);
      assert (a + b)[1..] == a[1..] + b && (a + b)[0] == a[0];
      assert CompleteAt(a + b, clk) == [a[0].(complete := clk)] + CompleteAt(a[1..] + b, clk);
    }
  }

  lemma CompleteFew(clk: int)
    ensures CompleteAt([], clk) == [] && forall t: Transaction :: CompleteAt([t], clk) == [t.(complete := clk)]
  {
    forall t: Transaction ensures CompleteAt([t], clk) == [t.(complete := clk)] {
      assert [t][1..] == [];
    }
  }

  // ---- returning transactions, one at a time ---------------------------------------------------------------

  lemma {:induction false} FirstDue(q: seq<Transaction>, clk: int, i: nat)
    requires i < |q| && q[i].complete <= clk && forall j :: 0 <= j < i ==> q[j].complete > clk
    ensures Due(q, clk) == [q[i]] + Due(Remove(q, i), clk)
    ensures NotDue(Remove(q, i), clk) == NotDue(q, clk)
  {
    if i == 0 {
      assert Remove(q, 0) == q[1..];
    } else {
      FirstDue(q[1..], clk, i - 1);
      assert Remove(q, i) == [q[0]] + Remove(q[1..], i - 1);
      assert Remove(q, i)[1..] == Remove(q[1..], i - 1);
    }
  }

  lemma {:induction false} NoneDue(q: seq<Transaction>, clk: int)
    requires forall j :: 0 <= j < |q| ==> q[j].complete > clk
    ensures Due(q, clk) == [] && NotDue(q, clk) == q
  {
    if q != [] {
      NoneDue(q[1..], clk);
    }
  }

  class Controller {
    const c: Config
    const chan: ChannelState
    const cmdq: CommandQueue
    const refresh: Refresh
    var clk: int
    var unified: seq<Transaction>
    var readQ: seq<Transaction>
    var writeBuf: seq<Transaction>
    var pendingRd: seq<Transaction>
    var pendingWr: map<int, Transaction>
    var returnQ: seq<Transaction>
    var draining: int
    /** Numbers the transactions, for the record only. */
    var accepted: nat
    ghost var rec: Record

    ghost function Repr(): set<object>
    {
      {this, chan, cmdq, refresh} + chan.cells
    }

    ghost function State(): Ctrl
      reads Repr()
    {
      Ctrl(clk, chan.log, chan.refreshQ, refresh.View(), cmdq.View(), unified, readQ, writeBuf,
           pendingRd, pendingWr, returnQ, draining, rec)
    }

    /** The parts belong together and the tables agree with the history. */
    ghost predicate Wired()
      reads Repr()
    {
      && chan.c == c && cmdq.c == c && refresh.c == c && cmdq.chan == chan && refresh.chan == chan
      && c.Valid() && chan.Valid() && accepted == |rec.accepted|
    }

    ghost predicate Valid()
      reads Repr()
    {
      Wired() && Good(c, State())
    }

    constructor (config: Config)
      requires config.Valid()
      ensures Valid() && c == config && State() == Initial(config) && clk == 0 && fresh(Repr())
    {
      c := config;
      var channel := new ChannelState(config);
      chan := channel;
      cmdq := new CommandQueue(config, channel);
      refresh := new Refresh(config, channel);
      clk, unified, readQ, writeBuf := 0, [], [], [];
      pendingRd, pendingWr, returnQ, draining := [], map[], [], 0;
      accepted, rec := 0, Record([], map[], map[], map[], []);
      GoodInitial(config);
    }

    // ---- transactions -------------------------------------------------------------------------------

    method WillAcceptTransaction(isWrite: bool) returns (ok: bool)
      ensures ok == Scheduler.WillAcceptTransaction(c, State(), isWrite)
    {
      if c.unifiedQueue {
        return |unified| < c.transQueueSize;
      } else if !isWrite {
        return |readQ| < c.transQueueSize;
      } else {
        return |writeBuf| < c.transQueueSize;
      }
    }

    method HasPendingRead(addr: int) returns (found: bool)
      ensures found == HasRead(pendingRd, addr)
    {
      var i := 0;
      while i < |pendingRd|
        invariant 0 <= i <= |pendingRd|
        invariant forall j :: 0 <= j < i ==> pendingRd[j].addr != addr
      {
        if pendingRd[i].addr == addr {
          return true;
        }
        i := i + 1;
      }
      return false;
    }

    /** Writes merge into a pending write, reads are answered by one, and reads of one address share a
        DRAM access. */
    method AddTransaction(addr: nat, isWrite: bool, ghost data: int)
      requires Valid() && Scheduler.WillAcceptTransaction(c, State(), isWrite)
      modifies this
      ensures Valid() && State() == Scheduler.AddTransaction(c, old(State()), addr, isWrite, data)
    {
      hide Good, HasRead, chan.Valid, c.Valid;
      GoodAccept(c, State(), addr, isWrite, data);
      var trans := Transaction(addr, isWrite, clk, 0, accepted);
      accepted := accepted + 1;
      rec := rec.(accepted := rec.accepted + [Accepted(addr, isWrite, clk, data)]);
      if isWrite {
        rec := rec.(buffer := rec.buffer[addr := data]);
        if addr !in pendingWr {
          pendingWr := pendingWr[addr := trans];
          if c.unifiedQueue {
            unified := unified + [trans];
          } else {
            writeBuf := writeBuf + [trans];
          }
        }
        returnQ := returnQ + [trans.(complete := clk + 1)];
      } else {
        if addr in pendingWr {
          rec := rec.(got := rec.got[trans.id := Lookup(rec.buffer, addr)]);
          returnQ := returnQ + [trans.(complete := clk + 1)];
          return;
        }
        var isPending := HasPendingRead(addr);
        pendingRd := pendingRd + [trans];
        if !isPending {
          if c.unifiedQueue {
            unified := unified + [trans];
          } else {
            readQ := readQ + [trans];
          }
        }
      }
    }

    /** Hands out one finished transaction; when there is none left, all callbacks of this cycle are done. */
    method ReturnDoneTrans(now: int) returns (r: Option<Transaction>)
      requires Wired()
      modifies this`returnQ, this`rec
      ensures Wired() && ReturnDone(State(), now) == ReturnDone(old(State()), now)
      ensures r.None? ==> State() == ReturnDone(old(State()), now) && returnQ == old(returnQ) && Due(returnQ, now) == []
      ensures r.Some? ==> Due(old(returnQ), now) == [r.value] + Due(returnQ, now) && r.value in old(returnQ)
      ensures r.Some? ==> |returnQ| == |old(returnQ)| - 1
    {
      var i := 0;
      while i < |returnQ|
        invariant 0 <= i <= |returnQ| && State() == old(State())
        invariant forall j :: 0 <= j < i ==> returnQ[j].complete > now
      {
        if returnQ[i].complete <= now {
          r := Some(returnQ[i]);
          FirstDue(returnQ, now, i);
          CalledCons(returnQ[i], Due(Remove(returnQ, i), now), rec.returned, now);
          rec := rec.(returned := rec.returned + [Callback(returnQ[i], now)]);
          returnQ := Remove(returnQ, i);
          return;
        }
        i := i + 1;
      }
      NoneDue(returnQ, now);
      assert rec.returned + Called([], now) == rec.returned;
      return None;
    }

    // ---- issuing --------------------------------------------------------------------------------------

    method FindRead(addr: int) returns (i: nat)
      requires ReadsOf(pendingRd, addr) != []
      ensures i < |pendingRd| && pendingRd[i].addr == addr && forall j :: 0 <= j < i ==> pendingRd[j].addr != addr
    {
      i := 0;
      while i < |pendingRd|
        invariant 0 <= i <= |pendingRd|
        invariant forall j :: 0 <= j < i ==> pendingRd[j].addr != addr
      {
        if pendingRd[i].addr == addr {
          return;
        }
        i := i + 1;
      }
      NoneLeft(pendingRd, addr);
      assert false;
    }

    method CountReads(addr: int) returns (n: nat)
      ensures n == |ReadsOf(pendingRd, addr)|
    {
      n := 0;
      var i := |pendingRd|;
      while i > 0
        invariant 0 <= i <= |pendingRd| && n == |ReadsOf(pendingRd[i..], addr)|
      {
        i := i - 1;
        assert pendingRd[i..][1..] == pendingRd[i + 1..];
        if pendingRd[i].addr == addr {
          n := n + 1;
        }
      }
      assert pendingRd[0..] == pendingRd;
    }

    /** All pending reads of the address complete together. */
    method CompleteReads(addr: int)
      requires Wired()
      modifies this`pendingRd, this`returnQ
      ensures pendingRd == OtherReads(old(pendingRd), addr)
      ensures returnQ == old(returnQ) + CompleteAt(ReadsOf(old(pendingRd), addr), clk + c.ReadDelay())
    {
      hide ReadsOf, OtherReads, CompleteAt, Wired;
      var at := clk + c.ReadDelay();
      CompleteFew(at);
      ghost var served: seq<Transaction> := [];
      var numReads := CountReads(addr);
      while numReads > 0
        invariant numReads == |ReadsOf(pendingRd, addr)|
        invariant ReadsOf(old(pendingRd), addr) == served + ReadsOf(pendingRd, addr)
        invariant OtherReads(pendingRd, addr) == OtherReads(old(pendingRd), addr)
        invariant returnQ == old(returnQ) + CompleteAt(served, at)
      {
        var i := FindRead(addr);
        var t := pendingRd[i];
        FirstRead(pendingRd, addr, i);
        CompleteAppend(served, [t], at);
        served := served + [t];
        returnQ := returnQ + [t.(complete := at)];
        pendingRd := Remove(pendingRd, i);
        numReads := numReads - 1;
      }
      OnlyOthers(pendingRd, addr);
      assert served == ReadsOf(old(pendingRd), addr);
    }

    method IssueCommand(cmd: Command)
      requires Wired() && InRange(c, cmd) && Scheduler.IssueCommand(c, State(), cmd).Ok?
      modifies this`pendingRd, this`pendingWr, this`returnQ, this`rec, chan, chan.cells
      ensures Wired() && State() == Scheduler.IssueCommand(c, old(State()), cmd).value
    {
      hide RowOf, Advance, RequestsAfter, ReadsOf, OtherReads, CompleteAt, chan.Valid, c.Valid;
      if cmd.kind.IsRead() {
        ghost var served := ReadsOf(pendingRd, cmd.hex);
        CompleteReads(cmd.hex);
        rec := rec.(got := Answer(rec.got, served, Lookup(rec.dram, cmd.hex)));
      } else if cmd.kind.IsWrite() {
        pendingWr := pendingWr - {cmd.hex};
        rec := rec.(dram := rec.dram[cmd.hex := Lookup(rec.buffer, cmd.hex)], buffer := rec.buffer - {cmd.hex});
      }
      chan.UpdateTimingAndStates(cmd, clk);
    }

    // ---- scheduling -----------------------------------------------------------------------------------

    /** First transaction whose command queue has room. */
    method FindFitting(queue: seq<Transaction>) returns (r: Option<nat>)
      requires c.Valid() && cmdq.c == c && CqOk(c, cmdq.View()) && NonNegative(queue)
      ensures r == FirstFitting(c, cmdq.View(), queue, 0)
    {
      hide c.Valid, FirstFitting, Scheduler.WillAcceptCommand, CommandFor, CqOk;
      var it := 0;
      while it < |queue|
        invariant 0 <= it <= |queue|
        invariant FirstFitting(c, cmdq.View(), queue, 0) == FirstFitting(c, cmdq.View(), queue, it)
      {
        var cmd := TransToCommand(c, queue[it]);
        CommandHasQueue(c, cmdq.View(), queue[it]);
        var fits := cmdq.WillAcceptCommand(cmd.Bank());
        FitAt(c, cmdq.View(), queue, it);
        if fits {
          return Some(it);
        }
        it := it + 1;
      }
      FitAt(c, cmdq.View(), queue, it);
      return None;
    }

    method Source(src: Source) returns (queue: seq<Transaction>)
      ensures queue == SourceQueue(State(), src)
    {
      match src
      case Unified => return unified;
      case ReadQueue => return readQ;
      case WriteBuffer => return writeBuf;
    }

    method MoveTransaction(src: Source, it: nat)
      requires cmdq.c == c && it < |SourceQueue(State(), src)| && SourceQueue(State(), src)[it].addr >= 0
      requires Scheduler.WillAcceptCommand(c, cmdq.View(), TransToCommand(c, SourceQueue(State(), src)[it]).Bank())
      modifies this`unified, this`readQ, this`writeBuf, cmdq`queues
      ensures State() == Move(c, old(State()), src, it)
    {
      hide CommandFor;
      var queue := Source(src);
      var ok := cmdq.AddCommand(TransToCommand(c, queue[it]));
      var rest := Remove(queue, it);
      match src {
        case Unified => unified := rest;
        case ReadQueue => readQ := rest;
        case WriteBuffer => writeBuf := rest;
      }
    }

    method ScheduleFrom(src: Source)
      requires Wired() && CqOk(c, cmdq.View()) && TransOk(State())
      modifies this`unified, this`readQ, this`writeBuf, this`draining, cmdq`queues
      ensures Wired() && State() == Scheduler.ScheduleFrom(c, old(State()), src)
    {
      hide chan.Valid, c.Valid, HasRead, FirstFitting, Scheduler.WillAcceptCommand, CommandFor, CqOk, Move;
      var queue := Source(src);
      var fit := FindFitting(queue);
      if fit.Some? {
        var it := fit.value;
        FirstFittingFits(c, cmdq.View(), queue, 0);
        if !c.unifiedQueue && queue[it].isWrite {
          var waits := HasPendingRead(queue[it].addr);
          if waits {
            draining := 0;
            return;
          }
          draining := draining - 1;
        }
        MoveTransaction(src, it);
      }
    }

    method ScheduleTransaction()
      requires Wired() && CqOk(c, cmdq.View()) && TransOk(State())
      modifies this`unified, this`readQ, this`writeBuf, this`draining, cmdq`queues
      ensures Wired() && State() == Scheduler.ScheduleTransaction(c, old(State()))
    {
      hide chan.Valid, c.Valid, Scheduler.ScheduleFrom, CqOk;
      if draining == 0 && !c.unifiedQueue {
        var empty := cmdq.QueueEmpty();
        if |writeBuf| >= c.transQueueSize || (|writeBuf| > 8 && empty) {
          draining := |writeBuf|;
        }
      }
      ScheduleFrom(if c.unifiedQueue then Unified else if draining > 0 then WriteBuffer else ReadQueue);
    }

    // ---- the clock --------------------------------------------------------------------------------------

    /** The first half of the tick: the refresh at the front goes first, then the queues. */
    method DispatchCommand()
      requires Wired() && Core(c, State()) && IssuedBefore(chan.log, clk)
      modifies this`pendingRd, this`pendingWr, this`returnQ, this`rec, chan, chan.cells, cmdq
      ensures Wired() && Steppable(c, old(State())) && Dispatch(c, old(State())).Ok?
      ensures State() == Dispatch(c, old(State())).value
    {
      hide Core, chan.Valid, c.Valid, RefQueues, Scheduler.GetCommandToIssue, Scheduler.IssueCommand, Admits, IsTurn,
           IsEntry, ReadyCommand, CqOk;
      ghost var s := State();
      CoreIsSteppable(c, s);
      ghost var turn, from := DispatchTurn(c, s);
      CoreAfterTurn(c, s, turn, Dispatch(c, s).value);
      assert CqOk(c, cmdq.View()) by { CoreQueues(c, s); }
      var cmd: Option<Command> := None;
      if chan.refreshQ != [] {
        FrontAskable(c, s);
        cmd := cmdq.FinishRefresh();
      }
      if cmd.None? {
        CqOkSame(c, s.cq, cmdq.View());
        EntriesFine(c, cmdq.View());
        cmd := cmdq.GetCommandToIssue();
      }
      if cmd.Some? {
        IssuedInRange(c, State(), cmd.value);
        IssueCommand(cmd.value);
      }
    }

    /** Between the callbacks of a cycle and its commands. */
    ghost predicate Returned()
      reads Repr()
    {
      Wired() && Sound(c, State(), clk + 1) && IssuedBefore(chan.log, clk) && refresh.clk == clk && clk >= 0
    }

    method ClockTick()
      requires Returned()
      modifies Repr()
      ensures Valid() && Steppable(c, old(State())) && Tick(c, old(State())) == Ok(State()) && clk == old(clk) + 1
    {
      hide Sound, Good, Steppable, Tick, chan.Valid, c.Valid, RefreshTick, RefreshAfter, Dispatch, Finished, CqOk, Core,
           TransOk, IssuedBefore;
      ghost var s := State();
      TickIsSound(c, s);
      refresh.ClockTick();
      ghost var s1 := State();
      assert s1 == RefreshTick(c, s) by { RefreshIs(c, s); }
      DispatchCommand();
      FinishTick();
    }

    /** The second half of the tick. */
    method FinishTick()
      requires Wired() && CqOk(c, cmdq.View()) && TransOk(State())
      modifies this`unified, this`readQ, this`writeBuf, this`draining, this`clk, cmdq`queues, cmdq`clk
      ensures Wired() && State() == Finished(c, old(State())) && clk == old(clk) + 1
    {
      hide chan.Valid, c.Valid, Scheduler.ScheduleTransaction, CqOk;
      ScheduleTransaction();
      clk := clk + 1;
      cmdq.ClockTick();
    }
  }

  ghost function Finished(c: Config, s: Ctrl): Ctrl
    requires TransOk(s)
  {
    var s3 := Scheduler.ScheduleTransaction(c, s);
    s3.(clk := s3.clk + 1, cq := s3.cq.(clk := s3.cq.clk + 1))
  }

  lemma RefreshIs(c: Config, s: Ctrl)
    requires c.Valid()
    ensures RefreshTick(c, s) ==
      s.(ref := RefreshAfter(c, s.ref, s.refreshQ).0, refreshQ := RefreshAfter(c, s.ref, s.refreshQ).1)
  {
  }

  /** The stages of a tick and what holds at each. */
  lemma TickIsSound(c: Config, s: Ctrl)
    requires Sound(c, s, s.clk + 1) && IssuedBefore(s.log, s.clk) && s.ref.clk == s.clk && s.clk >= 0
    ensures c.Valid() && Steppable(c, s)
    ensures var s1 := RefreshTick(c, s);
      Core(c, s1) && s1.log == s.log && s1.clk == s.clk && Steppable(c, s1) && Dispatch(c, s1).Ok?
    ensures var s2 := Dispatch(c, RefreshTick(c, s)).value;
      CqOk(c, s2.cq) && TransOk(s2)
    ensures Tick(c, s) == Ok(Finished(c, Dispatch(c, RefreshTick(c, s)).value))
    ensures Good(c, Tick(c, s).value)
  {
    hide Sound, RefreshTick, Dispatch, Scheduler.ScheduleTransaction;
    SoundIsSteppable(c, s, s.clk + 1);
    var s1 := RefreshTick(c, s);
    SoundRefresh(c, s, s.clk + 1);
    RefreshFrame(c, s);
    SoundIsSteppable(c, s1, s.clk + 1);
    SoundDispatch(c, s1);
    var s2 := Dispatch(c, s1).value;
    SoundIsSteppable(c, s2, s.clk + 1);
    SoundSchedule(c, s2, s.clk + 1);
    GoodAdvance(c, Scheduler.ScheduleTransaction(c, s2));
  }

  lemma SoundIsSteppable(c: Config, s: Ctrl, bound: int)
    requires Sound(c, s, bound)
    ensures Core(c, s) && CqOk(c, s.cq) && TransOk(s) && Steppable(c, s)
  {
    hide Ordered, Faithful, Conserved, Punctual, RowsWanted, InSync, PolicyKept, Legal, Accounted;
    CoreIsSteppable(c, s);
  }

  lemma FitAt(c: Config, cq: QueueState, q: seq<Transaction>, i: nat)
    requires i <= |q| && NonNegative(q)
    ensures i == |q| ==> FirstFitting(c, cq, q, i).None?
    ensures i < |q| && Scheduler.WillAcceptCommand(c, cq, TransToCommand(c, q[i]).Bank()) ==>
      FirstFitting(c, cq, q, i) == Some(i)
    ensures i < |q| && !Scheduler.WillAcceptCommand(c, cq, TransToCommand(c, q[i]).Bank()) ==>
      FirstFitting(c, cq, q, i) == FirstFitting(c, cq, q, i + 1)
  {
    hide Scheduler.WillAcceptCommand;
  }

  lemma CommandHasQueue(c: Config, cq: QueueState, t: Transaction)
    requires c.Valid() && CqOk(c, cq) && t.addr >= 0
    ensures 0 <= QueueIndex(c, TransToCommand(c, t).Bank()) < |cq.queues|
  {
    hide QueueIndex, NumQueues, CommandFor;
    DecodedBank(c, t.addr, t.isWrite);
    QueueIndexInRange(c, TransToCommand(c, t).Bank());
  }

  lemma FrontAskable(c: Config, s: Ctrl)
    requires Core(c, s) && s.refreshQ != []
    ensures Askable(s.refreshQ[0].kind) && InRange(c, s.refreshQ[0])
  {
  }

  lemma CoreQueues(c: Config, s: Ctrl)
    requires Core(c, s)
    ensures CqOk(c, s.cq) && c.Valid()
  {
  }

  lemma CqOkSame(c: Config, cq: QueueState, cq': QueueState)
    requires CqOk(c, cq) && cq'.queues == cq.queues && cq'.idx == cq.idx
    ensures CqOk(c, cq')
  {
  }

  lemma EntriesFine(c: Config, cq: QueueState)
    requires c.Valid() && CqOk(c, cq)
    ensures QueuesOk(c, cq)
    ensures forall q, i :: 0 <= q < |cq.queues| && 0 <= i < |cq.queues[q]| ==>
      InRange(c, cq.queues[q][i]) && cq.queues[q][i].kind.IsColumn()
  {
    hide NumQueues, QueueIndex;
    CqOkSteps(c, cq);
    forall q, i | 0 <= q < |cq.queues| && 0 <= i < |cq.queues[q]|
      ensures InRange(c, cq.queues[q][i]) && cq.queues[q][i].kind.IsColumn()
    {
      var cmd := cq.queues[q][i];
      assert CmdOk(c, cmd);
      DecodedBank(c, cmd.hex, cmd.kind.IsWrite());
    }
  }

  /** Only commands inside the channel lead to a legal history. */
  lemma IssuedInRange(c: Config, s: Ctrl, cmd: Command)
    requires Scheduler.IssueCommand(c, s, cmd).Ok? && Core(c, Scheduler.IssueCommand(c, s, cmd).value)
    ensures InRange(c, cmd)
  {
    hide Accounted, RowOf, Earliest;
    var log := Scheduler.IssueCommand(c, s, cmd).value.log;
    assert Last(log) == Issue(s.clk, cmd);
  }

  lemma CalledCons(t: Transaction, q: seq<Transaction>, returned: seq<Callback>, now: int)
    ensures returned + Called([t] + q, now) == returned + [Callback(t, now)] + Called(q, now)
  {
    assert ([t] + q)[1..] == q;
  }
}

/** What holds of every run of one memory channel, from the initial state, for every sequence of accepted
    transactions and memory cycles and every configuration. */
module ChannelTheorems {
  import opened DramTypes
  import opened Counting
  import opened DramConfig
  import opened History
  import opened HistoryTheorems
  import opened Scheduler
  import opened QueueFacts
  import opened Turns
  import opened Ordering
  import opened Memory
  import opened Delivery
  import opened RowUse
  import opened RefreshProgress
  import opened Runs
  import opened Outstanding

  /** The state after a run. */
  ghost function After(c: Config, es: seq<Event>): (s: Ctrl)
    requires c.Valid()
    ensures Good(c, s)
  {
    GoodInitial(c);
    EveryRun(c, Initial(c), es);
    Exec(c, Initial(c), es).value
  }

  /** No abort, in any run. */
  lemma NeverAborts(c: Config, es: seq<Event>)
    requires c.Valid()
    ensures Exec(c, Initial(c), es).Ok?
  {
    hide Good;
    GoodInitial(c);
    EveryRun(c, Initial(c), es);
  }

  /** An address with pending reads (or a pending write) has exactly one read (or write) in the transaction and
      command queues, one without has none, and every queued command is the one its address decodes to, in the
      queue of its bank. */
  lemma PendingIsQueuedOnce(c: Config, es: seq<Event>, k: Key, q: nat, i: nat)
    requires c.Valid()
    ensures var s := After(c, es); Waiting(s, k) == if Pending(s, k) then 1 else 0
    ensures var s := After(c, es); q < |s.cq.queues| && i < |s.cq.queues[q]| ==>
      var cmd := s.cq.queues[q][i]; CmdOk(c, cmd) && QueueIndex(c, cmd.Bank()) == q
  {
    hide After, Legal, Ordered, Faithful, Conserved, Punctual, RowsWanted, InSync, PolicyKept, Waiting, Pending, CmdOk,
         QueueIndex, NumQueues;
    assert Accounted(After(c, es)) && CqOk(c, After(c, es).cq);
  }

  /** The command history of every run is legal, so all that holds of legal histories holds of it. */
  lemma HistoryIsLegal(c: Config, es: seq<Event>)
    requires c.Valid()
    ensures Legal(c, After(c, es).log)
  {
    hide After, Core, Ordered, Faithful, Conserved, Punctual, RowsWanted, InSync, PolicyKept;
    CoreLegal(c, After(c, es));
  }

  /** Any two issued commands are spaced by every table line that relates them. */
  lemma CommandsAreSpaced(c: Config, es: seq<Event>, i: nat, j: nat, b: BankId, d: Delay)
    requires c.Valid() && i < j < |After(c, es).log|
    requires c.HasBank(b) && After(c, es).log[j].cmd.Touches(b)
    requires d in DelaysFor(c, After(c, es).log[i].cmd, b) && d.kind == After(c, es).log[j].cmd.kind
    ensures After(c, es).log[i].clk + d.delay <= After(c, es).log[j].clk
  {
    hide DelaysFor, After, Legal;
    assert Legal(c, After(c, es).log);
    PairwiseSpacing(c, After(c, es).log, i, j, b, d);
  }

  /** tFAW and t32AW. */
  lemma ActivationsAreSpaced(c: Config, es: seq<Event>, rank: int, k: nat)
    requires c.Valid()
    ensures var acts := ActivationTimes(After(c, es).log, rank);
      k + 4 < |acts| ==> acts[k + 4] - acts[k] >= c.tFAW
    ensures var acts := ActivationTimes(After(c, es).log, rank);
      c.IsGDDR() && k + 32 < |acts| ==> acts[k + 32] - acts[k] >= c.t32AW
  {
    hide ActivationTimes, After, Legal, Window;
    ActivationWindows(c, After(c, es).log, rank, k);
  }

  /** With open pages, ACTIVATE and a later refresh of the same bank are at least tRC apart. */
  lemma RefreshAfterRowCycle(c: Config, es: seq<Event>, i: nat, j: nat, b: BankId)
    requires c.Valid() && !c.closePage && i < j < |After(c, es).log| && c.HasBank(b)
    requires Activates(After(c, es).log[i], b)
    requires After(c, es).log[j].cmd.Touches(b) && After(c, es).log[j].cmd.kind.IsRefresh()
    ensures After(c, es).log[j].clk - After(c, es).log[i].clk >= c.tRAS + c.tRP
  {
    hide After, Legal, Core, Ordered, Faithful, Conserved, Punctual, RowsWanted, InSync;
    CoreLegal(c, After(c, es));
    OpenPageActivateToRefresh(c, After(c, es).log, i, j, b);
  }

  lemma CoreLegal(c: Config, s: Ctrl)
    requires Core(c, s)
    ensures Legal(c, s.log)
  {
  }

  /** Every read that was called back saw the data of the last write accepted before it. */
  lemma ReadsSeeLastWrite(c: Config, es: seq<Event>, i: nat)
    requires c.Valid() && i < |After(c, es).rec.returned| && !After(c, es).rec.returned[i].trans.isWrite
    ensures var rec := After(c, es).rec; var t := rec.returned[i].trans;
      Matches(rec, t) && t.id in rec.got && rec.got[t.id] == Atomic(rec.accepted[..t.id], t.addr)
  {
    hide After, Core, Ordered, Conserved, Punctual, RowsWanted, InSync, PolicyKept, Atomic;
    assert Answered(After(c, es).rec, After(c, es).rec.returned[i].trans);
  }

  /** Each accepted transaction is pending, returning or called back, exactly once, and nothing else is. */
  lemma NothingLostOrDuplicated(c: Config, es: seq<Event>, id: nat)
    requires c.Valid()
    ensures var s := After(c, es);
      Count(s.pendingRd, IdOf, id) + Count(s.returnQ, IdOf, id) + Count(s.rec.returned, CallId, id)
      == if id < |s.rec.accepted| then 1 else 0
  {
    hide After, Core, Ordered, Faithful, Punctual, RowsWanted, InSync, PolicyKept, Count;
    assert Conserved(After(c, es));
    assert Places(After(c, es), id) == if id < |After(c, es).rec.accepted| then 1 else 0;
  }

  /** For every address, accepted transactions are those called back and those still owed. */
  lemma {:induction false} AcceptedIsOwedOrCalled(c: Config, es: seq<Event>)
    requires c.Valid()
    ensures Settled(After(c, es))
  {
    hide Good, Settled, Step, Steppable;
    if es == [] {
      OwedInitially(c, 0);
    } else {
      var prefix := es[..|es| - 1];
      AcceptedIsOwedOrCalled(c, prefix);
      SettledStep(c, After(c, prefix), es[|es| - 1]);
      GoodInitial(c);
      EveryRun(c, Initial(c), prefix);
    }
  }

  /** Every callback comes on the one tick its transaction calls for. It is the recorded completion cycle if and
      only if the transaction is a write, or an earlier write of its address was not issued when it was accepted,
      or the read delay is at least one cycle; otherwise the callback is late. */
  lemma CallbackTick(c: Config, es: seq<Event>, i: nat)
    requires c.Valid() && i < |After(c, es).rec.returned|
    ensures var s := After(c, es); var cb := s.rec.returned[i];
      && Matches(s.rec, cb.trans) && OnTime(c, s.rec.accepted, s.log, cb.trans, cb.clk)
      && (cb.clk == cb.trans.complete
          <==> cb.trans.isWrite || Forwarded(s.rec.accepted, s.log, cb.trans) || c.ReadDelay() >= 1)
      && cb.clk >= cb.trans.complete
  {
    hide After, Core, Ordered, Conserved, RowsWanted, InSync, PolicyKept, Forwarded, FirstReadSince, Buffered, Coherent,
         Awaited;
    var s := After(c, es);
    assert Answered(s.rec, s.rec.returned[i].trans);
  }

  // ---- inside a cycle -----------------------------------------------------------------------------------

  /** The state in which the next memory cycle selects its command. */
  ghost function AtSelection(c: Config, es: seq<Event>): (s: Ctrl)
    requires c.Valid()
    ensures Sound(c, s, s.clk + 1) && IssuedBefore(s.log, s.clk) && Steppable(c, s)
  {
    var s := After(c, es);
    SoundReturn(c, s);
    ReturnFrame(s, s.clk);
    SoundRefresh(c, ReturnDone(s, s.clk), s.clk + 1);
    RefreshFrame(c, ReturnDone(s, s.clk));
    CoreIsSteppable(c, RefreshTick(c, ReturnDone(s, s.clk)));
    RefreshTick(c, ReturnDone(s, s.clk))
  }

  /** Whatever write a queue can issue, no read of its address is pending. */
  lemma WritesKeepOrder(c: Config, es: seq<Event>, q: nat, j: nat)
    requires c.Valid()
    requires var s := AtSelection(c, es);
      q < |s.cq.queues| && j < |s.cq.queues[q]| && s.cq.queues[q][j].kind.IsWrite()
        && IsEntry(c, s, q, j, s.cq.queues[q][j])
    ensures var s := AtSelection(c, es); !HasRead(s.pendingRd, s.cq.queues[q][j].hex)
  {
    hide AtSelection, Core, Ordered, Faithful, Conserved, Punctual, RowsWanted, InSync, PolicyKept, Candidate;
    WriteWaitsForReads(c, AtSelection(c, es), q, j);
  }

  /** Whatever PRECHARGE a queue can issue, its row served an access, and nothing queued would still hit it
      unless it served four. */
  lemma PrechargesWasteNothing(c: Config, es: seq<Event>, q: nat, j: nat, pre: Command)
    requires c.Valid() && IsEntry(c, AtSelection(c, es), q, j, pre) && pre.kind.Precharge?
    ensures var s := AtSelection(c, es); var row := RowOf(s.log, pre.Bank());
      row.Open? && row.hits >= 1 && (row.hits >= 4 || !Wanted(s.cq.queues, pre.Bank(), row.row))
  {
    hide AtSelection, Core, Ordered, Faithful, Conserved, Punctual, RowsWanted, InSync, PolicyKept, Candidate, RowOf,
         Wanted;
    NoWastedActivation(c, AtSelection(c, es), q, j, pre);
  }

  // ---- refresh ----------------------------------------------------------------------------------------------

  /** `s` has a refresh of rank `r` at the front that will be issued by `d`. */
  ghost predicate RefreshDueBy(c: Config, s: Ctrl, ref: Command, t: int, d: int) {
    s.refreshQ != [] && s.refreshQ[0] == ref && ref.kind.Refresh? && OnTrack(c, s.log, s.clk, ref.addr.rank, t, d)
  }

  lemma RefreshCycle(c: Config, s: Ctrl, ref: Command, t: int, d: int) returns (t': int)
    requires Good(c, s) && RefreshDueBy(c, s, ref, t, d)
    ensures Steppable(c, s) && Step(c, s, Cycle).Ok?
    ensures var s' := Step(c, s, Cycle).value;
      RefreshDueBy(c, s', ref, t', d) || (s.clk <= d && s'.log == s.log + [Issue(s.clk, ref)])
  {
    hide Sound, RefreshTick, Dispatch, ScheduleTransaction, ReturnDone, OnTrack;
    GoodCycle(c, s);
    var s0 := ReturnDone(s, s.clk);
    SoundReturn(c, s);
    ReturnFrame(s, s.clk);
    var s1 := RefreshTick(c, s0);
    SoundRefresh(c, s0, s.clk + 1);
    RefreshFrame(c, s0);
    SoundDispatch(c, s1);
    SoundIsCore(c, s1, s.clk + 1);
    t' := RefreshTurn(c, s1, t, d);
    var s2 := Dispatch(c, s1).value;
    SoundSchedule(c, s2, s.clk + 1);
  }

  lemma SoundIsCore(c: Config, s: Ctrl, bound: int)
    requires Sound(c, s, bound)
    ensures Core(c, s) && InSync(c, s.cq, s.refreshQ) && Steppable(c, s)
  {
    hide Ordered, Faithful, Conserved, Punctual, RowsWanted, Accounted, Legal;
    CoreIsSteppable(c, s);
  }

  lemma RefreshEvent(c: Config, s: Ctrl, e: Event, ref: Command, t: int, d: int) returns (t': int)
    requires Good(c, s) && RefreshDueBy(c, s, ref, t, d)
    ensures Steppable(c, s) && Step(c, s, e).Ok?
    ensures var s' := Step(c, s, e).value;
      RefreshDueBy(c, s', ref, t', d) || (s.clk <= d && s'.log == s.log + [Issue(s.clk, ref)])
  {
    hide Good, OnTrack, Tick, ReturnDone;
    GoodStep(c, s, e);
    if e.Cycle? {
      t' := RefreshCycle(c, s, ref, t, d);
    } else {
      t' := t;
      AcceptKeeps(c, s, e.addr, e.isWrite, e.data);
      AcceptKeepsRequests(c, s, e.addr, e.isWrite, e.data);
    }
  }

  lemma AcceptKeepsRequests(c: Config, s: Ctrl, addr: nat, isWrite: bool, data: int)
    ensures AddTransaction(c, s, addr, isWrite, data).refreshQ == s.refreshQ
  {
  }

  ghost predicate IssuedBy(log: Log, from: nat, ref: Command, d: int) {
    exists i :: from <= i < |log| && log[i].cmd == ref && log[i].clk <= d
  }

  lemma {:induction false} RefreshRun(c: Config, s: Ctrl, es: seq<Event>, ref: Command, t: int, d: int)
    returns (t': int)
    requires Good(c, s) && RefreshDueBy(c, s, ref, t, d)
    ensures Exec(c, s, es).Ok?
    ensures var s' := Exec(c, s, es).value;
      RefreshDueBy(c, s', ref, t', d) || IssuedBy(s'.log, |s.log|, ref, d)
  {
    hide Good, Step, RefreshDueBy, Steppable;
    EveryRun(c, s, es);
    t' := t;
    if es != [] {
      var pre := es[..|es| - 1];
      var e := es[|es| - 1];
      EveryRun(c, s, pre);
      var s1 := Exec(c, s, pre).value;
      t' := RefreshRun(c, s, pre, ref, t, d);
      GoodStep(c, s1, e);
      var s' := Exec(c, s, es).value;
      if IssuedBy(s1.log, |s.log|, ref, d) {
        IssuedStays(s1.log, s'.log, |s.log|, ref, d);
      } else {
        t' := RefreshEvent(c, s1, e, ref, t', d);
        if s'.log == s1.log + [Issue(s1.clk, ref)] {
          assert s'.log[|s1.log|] == Issue(s1.clk, ref);
        }
      }
    }
  }

  lemma IssuedStays(log: Log, log': Log, from: nat, ref: Command, d: int)
    requires log <= log' && IssuedBy(log, from, ref, d)
    ensures IssuedBy(log', from, ref, d)
  {
    var i :| from <= i < |log| && log[i].cmd == ref && log[i].clk <= d;
    assert log'[i] == log[i];
  }

  /** Bounded refresh: once a rank refresh is at the front, and `t` is now or later and no PRECHARGE or
      REFRESH time of the rank lies beyond `t`, the refresh is issued by t + banks * max(1, tPPD) + max(0, tRP),
      whatever else is accepted and issued meanwhile. */
  lemma RefreshIsBounded(c: Config, es: seq<Event>, more: seq<Event>, t: int)
    requires c.Valid() && After(c, es).refreshQ != [] && After(c, es).refreshQ[0].kind.Refresh? && After(c, es).clk <= t
    requires forall b :: InRank(c, After(c, es).refreshQ[0].addr.rank, b) ==>
      Earliest(c, After(c, es).log, b, Precharge) <= t && Earliest(c, After(c, es).log, b, Refresh) <= t
    ensures Exec(c, After(c, es), more).Ok?
    ensures var s, s' := After(c, es), Exec(c, After(c, es), more).value;
      var d := t + c.Banks() * Gap(c) + Shut(c);
      s'.clk > d ==> IssuedBy(s'.log, |s.log|, s.refreshQ[0], d)
  {
    hide After, Earliest, Core, Ordered, Faithful, Conserved, Punctual, RowsWanted, InSync, PolicyKept, OnTrack, Exec;
    var s := After(c, es);
    var ref := s.refreshQ[0];
    var d := t + c.Banks() * Gap(c) + Shut(c);
    FrontRank(c, s);
    InitiallyOnTrack(c, s.log, s.clk, ref.addr.rank, t);
    var t' := RefreshRun(c, s, more, ref, t, d);
    var s' := Exec(c, s, more).value;
    if RefreshDueBy(c, s', ref, t', d) {
      TrackedNow(c, s'.log, s'.clk, ref, t', d);
    }
  }

  lemma FrontRank(c: Config, s: Ctrl)
    requires Core(c, s) && s.refreshQ != []
    ensures 0 <= s.refreshQ[0].addr.rank < c.ranks
  {
  }
}

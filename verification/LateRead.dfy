/** Runs whose callback is late: with a read delay below one cycle a DRAM read completes no later than the cycle of
    its READ, after that cycle's callbacks were made. */
module LateRead {
  import opened DramTypes
  import opened Counting
  import opened BitFields
  import opened AddressMap
  import opened DramConfig
  import opened History
  import opened Scheduler
  import opened QueueFacts
  import opened Turns
  import opened Memory
  import opened Delivery
  import opened Runs
  import opened Outstanding
  import opened ChannelTheorems

  /** One bank with open pages and one transaction queue, ACTIVATE to READ in a cycle and a read delay of none. */
  ghost predicate Fast(c: Config) {
    && c.Valid() && c.ranks == 1 && c.bankgroups == 1 && c.banksPerGroup == 1 && c.queueStructure.PerRank?
    && c.protocol.DDR4? && !c.closePage && c.unifiedQueue && c.cmdQueueSize > 0 && c.transQueueSize > 0
    && ActivateToRead(c) <= 1 && c.ReadDelay() < 1 && c.RefreshInterval() > 3
  }

  const BANK: BankId := BankId(0, 0, 0)

  function ReadOf(c: Config): Command {
    CommandFor(c, 0, false)
  }

  function Opener(c: Config): Command {
    ReadOf(c).(kind := Activate)
  }

  /** The read, accepted in cycle 0. */
  function Early(): Transaction {
    Transaction(0, false, 0, 0, 0)
  }

  lemma Places(c: Config)
    requires Fast(c)
    ensures var cmd := ReadOf(c); cmd.kind.Read? && cmd.hex == 0 && cmd.Bank() == BANK && QueueIndex(c, BANK) == 0
    ensures NumQueues(c) == 1 && TransToCommand(c, Early()) == ReadOf(c)
  {
    DecodedBank(c, 0, false);
  }

  /** The state around the read: history, the one command queue, transactions waiting, pending and returning. */
  ghost predicate Looks(s: Ctrl, clk: nat, log: Log, queue: seq<Command>, waiting: seq<Transaction>,
                        pending: seq<Transaction>, returning: seq<Transaction>) {
    && s.clk == clk && s.ref.clk == clk && s.refreshQ == [] && s.log == log
    && s.cq == QueueState([queue], 0, false, {}, clk)
    && s.unified == waiting && s.readQ == [] && s.writeBuf == [] && s.pendingRd == pending && s.returnQ == returning
  }

  /** With one queue, its first entry decides what is selected. */
  lemma Selects(c: Config, s: Ctrl, queue: seq<Command>, r: Option<Command>)
    requires Fast(c) && s.refreshQ == [] && s.cq == QueueState([queue], 0, false, {}, s.clk) && QueuesOk(c, s.cq)
    requires AllAskable(queue) && FirstReady(c, s.log, s.clk, queue, 0) == r
    ensures r.None? || !r.value.kind.IsColumn() ==> SelectCommand(c, s) == Ok((r, s.cq))
    ensures r == Some(ReadOf(c)) && queue == [ReadOf(c)] ==> SelectCommand(c, s) == Ok((r, s.cq.(queues := [[]])))
  {
    hide FirstReady, Fast, CommandFor;
    OneQueue(c);
    Places(c);
    ChooseOne(c, s.log, s.cq, r);
    if r == Some(ReadOf(c)) && queue == [ReadOf(c)] {
      assert FindCommand(queue, ReadOf(c), 0) == Some(0);
      assert Remove(queue, 0) == [];
      assert [queue][0 := []] == [[]];
    }
  }

  lemma OneQueue(c: Config)
    requires Fast(c)
    ensures NumQueues(c) == 1
  {
  }

  lemma ChooseOne(c: Config, log: Log, cq: QueueState, r: Option<Command>)
    requires QueuesOk(c, cq) && NumQueues(c) == 1 && !cq.inRef && AllAskable(cq.queues[0])
    requires FirstReady(c, log, cq.clk, cq.queues[0], 0) == r
    ensures Choose(c, log, cq, 1) == (r, 0)
  {
    hide FirstReady, NumQueues;
    var cq' := cq.(idx := 0);
    assert Choose(c, log, cq', 0) == (None, 0);
  }

  /** The only entry of the queue. */
  lemma FirstOfOne(c: Config, log: Log, clk: int, cmd: Command)
    requires Askable(cmd.kind)
    ensures AllAskable([cmd]) && FirstReady(c, log, clk, [cmd], 0) == Candidate(c, log, clk, [cmd], 0)
  {
    hide Candidate;
    assert FirstReady(c, log, clk, [cmd], 1) == None;
  }

  lemma ActivateFirst(c: Config)
    requires Fast(c)
    ensures var cmd := ReadOf(c);
      Askable(cmd.kind) && AllAskable([cmd]) && Candidate(c, [], 1, [cmd], 0) == Some(Opener(c))
  {
    hide CommandFor;
    Places(c);
  }

  lemma ThenRead(c: Config)
    requires Fast(c)
    ensures var cmd := ReadOf(c);
      Askable(cmd.kind) && AllAskable([cmd]) && Candidate(c, [Issue(1, Opener(c))], 2, [cmd], 0) == Some(cmd)
  {
    hide CommandFor, Earliest;
    Places(c);
    var log := [Issue(1, Opener(c))];
    OpenerOpens(c);
    ReadSoon(c);
    assert ReadyCommand(c, log, ReadOf(c), 2) == Some(ReadOf(c));
  }

  lemma OpenerOpens(c: Config)
    requires Fast(c)
    ensures RowOf([Issue(1, Opener(c))], BANK) == Open(ReadOf(c).addr.row, 0)
  {
    hide CommandFor;
    Places(c);
    var log := [Issue(1, Opener(c))];
    assert Front(log) == [] && Last(log) == Issue(1, Opener(c));
  }

  lemma ReadSoon(c: Config)
    requires Fast(c)
    ensures Earliest(c, [Issue(1, Opener(c))], BANK, Read) <= 2
  {
    hide CommandFor, Earliest;
    Places(c);
    var log := [Issue(1, Opener(c))];
    EarliestAttained(c, log, BANK, Read);
    var t := Earliest(c, log, BANK, Read);
    if t != 0 {
      var d :| d in DelaysFor(c, log[0].cmd, BANK) && d.kind == Read && log[0].clk + d.delay == t;
      assert d == Delay(Read, ActivateToRead(c));
    }
  }

  // ---- four cycles ------------------------------------------------------------------------------------------

  lemma NothingDue(s: Ctrl)
    requires s.returnQ == []
    ensures ReturnDone(s, s.clk) == s
  {
    assert s.rec.returned + [] == s.rec.returned;
  }

  lemma NoRefreshYet(c: Config, s: Ctrl)
    requires Fast(c) && 0 <= s.ref.clk <= 3
    ensures RefreshTick(c, s) == s.(ref := s.ref.(clk := s.ref.clk + 1))
  {
    var i := c.RefreshInterval();
    assert s.ref.clk < i;
    SmallRemainder(s.ref.clk, i);
  }

  lemma SmallRemainder(x: nat, n: nat)
    requires x < n
    ensures x % n == x
  {
  }

  lemma NothingToSchedule(c: Config, s: Ctrl)
    requires Fast(c) && s.unified == [] && TransOk(s)
    ensures ScheduleTransaction(c, s) == s
  {
  }

  /** The read is taken in. */
  lemma Taken(c: Config)
    requires Fast(c)
    ensures var s := AddTransaction(c, Initial(c), 0, false, 0);
      Looks(s, 0, [], [], [Early()], [Early()], []) && s.rec.returned == []
  {
    OneQueue(c);
    assert Initial(c).cq.queues == [[]];
  }

  ghost predicate Next(c: Config, s: Ctrl, s': Ctrl) {
    Steppable(c, s) && Step(c, s, Cycle) == Ok(s')
  }

  /** The state in which a cycle without callbacks and refresh selects its command. */
  function Ready(s: Ctrl): Ctrl {
    s.(ref := s.ref.(clk := s.ref.clk + 1))
  }

  function Ticked(s: Ctrl): Ctrl {
    s.(clk := s.clk + 1, cq := s.cq.(clk := s.cq.clk + 1))
  }

  /** Such a cycle is its selection and its scheduling. */
  lemma QuietCycle(c: Config, s: Ctrl, s2: Ctrl)
    requires Fast(c) && Good(c, s) && s.returnQ == [] && s.refreshQ == [] && 0 <= s.ref.clk <= 3
    requires QueuesOk(c, s.cq) && Dispatch(c, Ready(s)) == Ok(s2) && TransOk(s2)
    ensures Next(c, s, Ticked(ScheduleTransaction(c, s2)))
  {
    hide Good, Fast, Dispatch, ScheduleTransaction, RefreshTick, ReturnDone;
    FastIsValid(c);
    GoodCycle(c, s);
    NothingDue(s);
    NoRefreshYet(c, s);
  }

  lemma OneQueueOk(c: Config, queue: seq<Command>, clk: int)
    requires Fast(c) && AllAskable(queue)
    ensures QueuesOk(c, QueueState([queue], 0, false, {}, clk))
  {
  }

  /** Cycle 0 moves it to the command queue. */
  lemma Queued(c: Config, s: Ctrl) returns (s': Ctrl)
    requires Fast(c) && Good(c, s) && Looks(s, 0, [], [], [Early()], [Early()], [])
    ensures Next(c, s, s') && Looks(s', 1, [], [ReadOf(c)], [], [Early()], []) && s'.rec == s.rec
  {
    hide Good, Fast, CommandFor, ScheduleTransaction, Next, QueuesOk, SelectCommand;
    OneQueueOk(c, [], 0);
    Selects(c, Ready(s), [], None);
    assert Dispatch(c, Ready(s)) == Ok(Ready(s));
    QuietCycle(c, s, Ready(s));
    ScheduledRead(c, Ready(s));
    s' := Ticked(ScheduleTransaction(c, Ready(s)));
  }

  lemma ScheduledRead(c: Config, s: Ctrl)
    requires Fast(c) && TransOk(s) && s.unified == [Early()] && s.cq == QueueState([[]], 0, false, {}, s.clk)
    ensures ScheduleTransaction(c, s) == s.(unified := [], cq := s.cq.(queues := [[ReadOf(c)]]))
  {
    hide CommandFor;
    Places(c);
    assert FirstFitting(c, s.cq, s.unified, 0) == Some(0);
    assert Remove(s.unified, 0) == [];
    assert s.cq.queues[0] + [ReadOf(c)] == [ReadOf(c)];
    assert s.cq.queues[0 := [ReadOf(c)]] == [[ReadOf(c)]];
  }

  /** Cycle 1 opens the row. */
  lemma Opened(c: Config, s: Ctrl) returns (s': Ctrl)
    requires Fast(c) && Good(c, s) && Looks(s, 1, [], [ReadOf(c)], [], [Early()], [])
    ensures Next(c, s, s') && Looks(s', 2, [Issue(1, Opener(c))], [ReadOf(c)], [], [Early()], []) && s'.rec == s.rec
  {
    hide Good, Fast, CommandFor, ScheduleTransaction, Next, QueuesOk, SelectCommand, Candidate, FirstReady,
         IssueCommand;
    ActivateFirst(c);
    FirstOfOne(c, [], 1, ReadOf(c));
    OneQueueOk(c, [ReadOf(c)], 1);
    Selects(c, Ready(s), [ReadOf(c)], Some(Opener(c)));
    var s2 := Ready(s).(log := [Issue(1, Opener(c))]);
    IssuesOpener(c, Ready(s));
    assert Dispatch(c, Ready(s)) == Ok(s2);
    QuietCycle(c, s, s2);
    NothingToSchedule(c, s2);
    s' := Ticked(s2);
  }

  lemma IssuesOpener(c: Config, s: Ctrl)
    requires Fast(c) && s.log == [] && s.refreshQ == [] && s.clk == 1
    ensures IssueCommand(c, s, Opener(c)) == Ok(s.(log := [Issue(1, Opener(c))]))
  {
    hide CommandFor;
    Places(c);
    assert [] + [Issue(1, Opener(c))] == [Issue(1, Opener(c))];
  }

  /** Cycle 2 reads, and the read completes at once. */
  lemma ReadIssued(c: Config, s: Ctrl) returns (s': Ctrl)
    requires Fast(c) && Good(c, s) && Looks(s, 2, [Issue(1, Opener(c))], [ReadOf(c)], [], [Early()], [])
    ensures Next(c, s, s') && s'.rec.returned == s.rec.returned
    ensures Looks(s', 3, [Issue(1, Opener(c)), Issue(2, ReadOf(c))], [], [], [],
                  [Early().(complete := 2 + c.ReadDelay())])
  {
    hide Good, Fast, CommandFor, ScheduleTransaction, Next, QueuesOk, SelectCommand, Candidate, FirstReady,
         IssueCommand;
    ThenRead(c);
    FirstOfOne(c, s.log, 2, ReadOf(c));
    OneQueueOk(c, [ReadOf(c)], 2);
    Selects(c, Ready(s), [ReadOf(c)], Some(ReadOf(c)));
    var s1 := Ready(s).(cq := s.cq.(queues := [[]]));
    IssuesRead(c, s1);
    var s2 := IssueCommand(c, s1, ReadOf(c)).value;
    assert Dispatch(c, Ready(s)) == Ok(s2);
    QuietCycle(c, s, s2);
    NothingToSchedule(c, s2);
    s' := Ticked(s2);
  }

  lemma IssuesRead(c: Config, s: Ctrl)
    requires Fast(c) && s.log == [Issue(1, Opener(c))] && s.refreshQ == [] && s.clk == 2 && s.pendingRd == [Early()]
    requires s.returnQ == []
    ensures var r := IssueCommand(c, s, ReadOf(c));
      && r.Ok? && r.value.rec.returned == s.rec.returned
      && r.value == s.(log := [Issue(1, Opener(c)), Issue(2, ReadOf(c))], pendingRd := [],
                       returnQ := [Early().(complete := 2 + c.ReadDelay())], rec := r.value.rec)
  {
    hide CommandFor, Answer, ReadsOf, OtherReads, CompleteAt;
    Places(c);
    OpenerOpens(c);
    OneServed(2 + c.ReadDelay());
    assert s.log + [Issue(2, ReadOf(c))] == [Issue(1, Opener(c)), Issue(2, ReadOf(c))];
    assert [] + [Early().(complete := 2 + c.ReadDelay())] == [Early().(complete := 2 + c.ReadDelay())];
  }

  lemma OneServed(clk: int)
    ensures ReadsOf([Early()], 0) == [Early()] && OtherReads([Early()], 0) == []
    ensures CompleteAt([Early()], clk) == [Early().(complete := clk)]
  {
    assert [Early()][1..] == [];
  }

  /** Cycle 3 calls back. */
  lemma CalledBack(c: Config, s: Ctrl) returns (s': Ctrl)
    requires Fast(c) && Good(c, s) && s.clk == 3 && s.rec.returned == []
    requires s.returnQ == [Early().(complete := 2 + c.ReadDelay())]
    ensures Next(c, s, s') && s'.rec.returned == [Callback(Early().(complete := 2 + c.ReadDelay()), 3)]
  {
    hide Good, Tick, ReturnDone;
    GoodCycle(c, s);
    s' := Step(c, s, Cycle).value;
    SoundReturn(c, s);
    ReturnFrame(s, s.clk);
    GoodTimes(c, s);
    OwedTick(c, ReturnDone(s, s.clk), 0);
    OneDue(Early().(complete := 2 + c.ReadDelay()), s);
  }

  lemma GoodTimes(c: Config, s: Ctrl)
    requires Good(c, s)
    ensures IssuedBefore(s.log, s.clk) && s.ref.clk == s.clk && s.clk >= 0
  {
    hide Sound;
  }

  lemma OneDue(t: Transaction, s: Ctrl)
    requires s.returnQ == [t] && t.complete <= s.clk && s.rec.returned == []
    ensures ReturnDone(s, s.clk).rec.returned == [Callback(t, s.clk)]
  {
    assert [t][1..] == [];
    assert Due([t], s.clk) == [t] && Called([t], s.clk) == [Callback(t, s.clk)];
  }

  // ---- the run -------------------------------------------------------------------------------------------------

  /** One event more. */
  lemma AfterNext(c: Config, es: seq<Event>, e: Event)
    requires c.Valid()
    ensures Steppable(c, After(c, es)) && Step(c, After(c, es), e) == Ok(After(c, es + [e]))
  {
    hide Good, Step, Steppable;
    GoodInitial(c);
    EveryRun(c, Initial(c), es);
    EveryRun(c, Initial(c), es + [e]);
    GoodStep(c, After(c, es), e);
    assert (es + [e])[..|es + [e]| - 1] == es;
  }

  lemma AfterFirst(c: Config)
    requires Fast(c)
    ensures After(c, [Accept(0, false, 0)]) == AddTransaction(c, Initial(c), 0, false, 0)
  {
    hide Good, AddTransaction;
    AfterNext(c, [], Accept(0, false, 0));
    assert [] + [Accept(0, false, 0)] == [Accept(0, false, 0)];
    assert After(c, []) == Initial(c);
  }

  /** A read and four cycles: the callback comes in cycle 3, the completion is recorded for cycle 2 or before. */
  lemma LateCallback(c: Config)
    requires Fast(c)
    ensures var rec := After(c, [Accept(0, false, 0), Cycle, Cycle, Cycle, Cycle]).rec;
      && rec.returned == [Callback(Transaction(0, false, 0, 2 + c.ReadDelay(), 0), 3)]
      && rec.returned[0].clk > rec.returned[0].trans.complete
  {
    hide Good, Fast, AddTransaction, Step, After, Looks;
    FastIsValid(c);
    var e0, e1, e2, e3 := [Accept(0, false, 0)], [Accept(0, false, 0), Cycle], [Accept(0, false, 0), Cycle, Cycle],
      [Accept(0, false, 0), Cycle, Cycle, Cycle];
    AfterFirst(c);
    Taken(c);
    AfterNext(c, e0, Cycle);
    AfterNext(c, e1, Cycle);
    AfterNext(c, e2, Cycle);
    AfterNext(c, e3, Cycle);
    assert e0 + [Cycle] == e1 && e1 + [Cycle] == e2 && e2 + [Cycle] == e3;
    assert e3 + [Cycle] == [Accept(0, false, 0), Cycle, Cycle, Cycle, Cycle];
    var s1 := Queued(c, After(c, e0));
    var s2 := Opened(c, s1);
    var s3 := ReadIssued(c, s2);
    LooksReturning(c, s3);
    var s4 := CalledBack(c, s3);
  }

  lemma FastIsValid(c: Config)
    requires Fast(c)
    ensures c.Valid() && c.ReadDelay() < 1
  {
  }

  lemma LooksReturning(c: Config, s: Ctrl)
    requires Looks(s, 3, [Issue(1, Opener(c)), Issue(2, ReadOf(c))], [], [], [],
                  [Early().(complete := 2 + c.ReadDelay())])
    ensures s.clk == 3 && s.returnQ == [Early().(complete := 2 + c.ReadDelay())]
  {
  }

  /** There is such a configuration. */
  lemma SomeFast(c: Config) returns (d: Config)
    ensures Fast(d)
  {
    var none := BitRange(0, 0);
    d := c.(protocol := DDR4, ranks := 1, bankgroups := 1, banksPerGroup := 1, queueStructure := PerRank,
            layout := c.layout.(ra := none, bg := none, ba := none), closePage := false, unifiedQueue := true,
            cmdQueueSize := 1, transQueueSize := 1, AL := 0, CL := 0, burstCycle := 0, tRCD := 1, tREFI := 100,
            refreshPolicy := RankLevelSimultaneous);
    assert Pow2(0) == 1;
  }
}

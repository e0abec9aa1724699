/** What a controller owes, address by address: transactions accepted and not yet called back. */
module Outstanding {
  import opened DramTypes
  import opened Counting
  import opened DramConfig
  import opened History
  import opened Scheduler
  import opened QueueFacts
  import opened Turns
  import opened Ordering
  import opened Memory
  import opened Delivery
  import opened RowUse
  import opened Runs

  function AddrOf(t: Transaction): int {
    t.addr
  }

  function CallAddr(cb: Callback): int {
    cb.trans.addr
  }

  function AcceptedAddr(t: Accepted): int {
    t.addr
  }

  ghost function Owed(s: Ctrl, a: int): nat {
    Count(s.pendingRd, AddrOf, a) + Count(s.returnQ, AddrOf, a)
  }

  /** Accepted = owed + called back, for every address. */
  ghost predicate Settled(s: Ctrl) {
    forall a: int :: Count(s.rec.accepted, AcceptedAddr, a) == Owed(s, a) + Count(s.rec.returned, CallAddr, a)
  }

  lemma OwedInitially(c: Config, a: int)
    ensures Owed(Initial(c), a) == 0 && Settled(Initial(c))
  {
  }

  lemma OwedAccept(c: Config, s: Ctrl, addr: nat, isWrite: bool, data: int, a: int)
    ensures Owed(AddTransaction(c, s, addr, isWrite, data), a) == Owed(s, a) + if a == addr then 1 else 0
  {
    hide Count, AddTransaction;
    RecordGrows(c, s, addr, isWrite, data);
    var t := Transaction(addr, isWrite, s.clk, 0, |s.rec.accepted|);
    CountSnoc(s.returnQ, t.(complete := s.clk + 1), AddrOf, a);
    CountSnoc(s.pendingRd, t, AddrOf, a);
  }

  lemma AcceptedGrows(c: Config, s: Ctrl, addr: nat, isWrite: bool, data: int)
    ensures AddTransaction(c, s, addr, isWrite, data).rec.accepted ==
      s.rec.accepted + [Accepted(addr, isWrite, s.clk, data)]
  {
    hide HasRead;
  }

  lemma SettledAccept(c: Config, s: Ctrl, addr: nat, isWrite: bool, data: int)
    requires Settled(s)
    ensures Settled(AddTransaction(c, s, addr, isWrite, data))
  {
    hide Count, AddTransaction, Owed;
    RecordGrows(c, s, addr, isWrite, data);
    AcceptedGrows(c, s, addr, isWrite, data);
    var s' := AddTransaction(c, s, addr, isWrite, data);
    forall a: int ensures Count(s'.rec.accepted, AcceptedAddr, a) == Owed(s', a) + Count(s'.rec.returned, CallAddr, a) {
      OwedAccept(c, s, addr, isWrite, data, a);
      CountSnoc(s.rec.accepted, Accepted(addr, isWrite, s.clk, data), AcceptedAddr, a);
    }
  }

  /** Callbacks settle exactly what is due. */
  lemma OwedReturn(s: Ctrl, clk: int, a: int)
    ensures Owed(ReturnDone(s, clk), a) + Count(Due(s.returnQ, clk), AddrOf, a) == Owed(s, a)
  {
    hide Count;
    DuePartition(s.returnQ, clk, AddrOf, a);
  }

  lemma {:induction false} CalledAddrs(q: seq<Transaction>, clk: int, a: int)
    ensures Count(Called(q, clk), CallAddr, a) == Count(q, AddrOf, a)
  {
    hide Count;
    if q == [] {
      CountEmpty(AddrOf, a);
      CountEmpty(CallAddr, a);
    } else {
      CalledAddrs(q[1..], clk, a);
      CountCons(q, AddrOf, a);
      CountCons(Called(q, clk), CallAddr, a);
      assert Called(q, clk)[1..] == Called(q[1..], clk);
    }
  }

  lemma SettledReturn(s: Ctrl, clk: int)
    requires Settled(s)
    ensures Settled(ReturnDone(s, clk))
  {
    hide Count, Owed, Due, NotDue, Called;
    var s' := ReturnDone(s, clk);
    forall a: int ensures Count(s'.rec.accepted, AcceptedAddr, a) == Owed(s', a) + Count(s'.rec.returned, CallAddr, a) {
      OwedReturn(s, clk, a);
      CalledAddrs(Due(s.returnQ, clk), clk, a);
      CountAppend(s.rec.returned, Called(Due(s.returnQ, clk), clk), CallAddr, a);
    }
  }

  lemma OwedAfterTurn(c: Config, s: Ctrl, turn: Turn, s': Ctrl, a: int)
    requires IsTurn(c, s, turn, s')
    ensures Owed(s', a) == Owed(s, a)
  {
    hide Count, Admits, RequestsAfter, ReadsOf, OtherReads, CompleteAt, Answer;
    if turn.ColumnTurn? && turn.cmd.kind.IsRead() {
      var served := ReadsOf(s.pendingRd, turn.cmd.hex);
      ReadsPartition(s.pendingRd, turn.cmd.hex, AddrOf, a);
      CompletedCount(served, s.clk + c.ReadDelay(), AddrOf, a);
      CountAppend(s.returnQ, CompleteAt(served, s.clk + c.ReadDelay()), AddrOf, a);
    }
  }

  lemma OwedElsewhere(s: Ctrl, s': Ctrl, a: int)
    requires s'.pendingRd == s.pendingRd && s'.returnQ == s.returnQ
    ensures Owed(s', a) == Owed(s, a)
  {
  }

  lemma DispatchKeepsOwed(c: Config, s: Ctrl, a: int)
    requires Sound(c, s, s.clk + 1) && IssuedBefore(s.log, s.clk)
    ensures Steppable(c, s) && Dispatch(c, s).Ok? && Owed(Dispatch(c, s).value, a) == Owed(s, a)
    ensures Dispatch(c, s).value.rec.accepted == s.rec.accepted && Dispatch(c, s).value.rec.returned == s.rec.returned
  {
    hide PolicyKept, Ordered, Faithful, Conserved, Punctual, RowsWanted, Core, Dispatch, Owed;
    CoreIsSteppable(c, s);
    var turn, _ := DispatchTurn(c, s);
    OwedAfterTurn(c, s, turn, Dispatch(c, s).value, a);
    TurnKeepsRecord(c, s, turn, Dispatch(c, s).value);
  }

  lemma TurnKeepsRecord(c: Config, s: Ctrl, turn: Turn, s': Ctrl)
    requires IsTurn(c, s, turn, s')
    ensures s'.rec.accepted == s.rec.accepted && s'.rec.returned == s.rec.returned
  {
    hide Admits, RequestsAfter, ReadsOf, OtherReads, CompleteAt;
  }

  /** A tick only moves reads from waiting to returning. */
  lemma OwedTick(c: Config, s: Ctrl, a: int)
    requires Sound(c, s, s.clk + 1) && IssuedBefore(s.log, s.clk) && s.ref.clk == s.clk && s.clk >= 0
    ensures Steppable(c, s) && Tick(c, s).Ok? && Owed(Tick(c, s).value, a) == Owed(s, a)
    ensures Tick(c, s).value.rec.accepted == s.rec.accepted && Tick(c, s).value.rec.returned == s.rec.returned
  {
    hide Sound, RefreshTick, Dispatch, ScheduleTransaction, Owed;
    SoundSteps(c, s);
    var s1 := RefreshTick(c, s);
    SoundRefresh(c, s, s.clk + 1);
    RefreshFrame(c, s);
    RefreshKeepsRecord(c, s);
    OwedElsewhere(s, s1, a);
    SoundDispatch(c, s1);
    DispatchKeepsOwed(c, s1, a);
    var s2 := Dispatch(c, s1).value;
    SoundSchedule(c, s2, s.clk + 1);
    ScheduleFrame(c, s2);
    OwedElsewhere(s2, Tick(c, s).value, a);
  }

  lemma SoundSteps(c: Config, s: Ctrl)
    requires Sound(c, s, s.clk + 1)
    ensures Steppable(c, s)
  {
    hide Legal, Accounted;
    CoreIsSteppable(c, s);
  }

  lemma RefreshKeepsRecord(c: Config, s: Ctrl)
    requires c.Valid()
    ensures var s' := RefreshTick(c, s); s'.rec == s.rec && s'.pendingRd == s.pendingRd && s'.returnQ == s.returnQ
  {
  }

  lemma SettledTick(c: Config, s: Ctrl)
    requires Settled(s) && Sound(c, s, s.clk + 1) && IssuedBefore(s.log, s.clk) && s.ref.clk == s.clk && s.clk >= 0
    ensures Steppable(c, s) && Tick(c, s).Ok? && Settled(Tick(c, s).value)
  {
    hide Sound, Tick, Owed, Count, Steppable;
    OwedTick(c, s, 0);
    var s' := Tick(c, s).value;
    forall a: int ensures Count(s'.rec.accepted, AcceptedAddr, a) == Owed(s', a) + Count(s'.rec.returned, CallAddr, a) {
      OwedTick(c, s, a);
    }
  }

  lemma SettledStep(c: Config, s: Ctrl, e: Event)
    requires Good(c, s) && Settled(s)
    ensures Steppable(c, s) && Step(c, s, e).Ok? && Settled(Step(c, s, e).value)
  {
    hide Sound, Settled, Tick, ReturnDone, AddTransaction, WillAcceptTransaction;
    GoodStep(c, s, e);
    match e
    case Accept(addr, isWrite, data) => SettledAccept(c, s, addr, isWrite, data);
    case Cycle =>
      SettledReturn(s, s.clk);
      SoundReturn(c, s);
      ReturnFrame(s, s.clk);
      SettledTick(c, ReturnDone(s, s.clk));
  }

  // ---- several controllers --------------------------------------------------------------------------------

  ghost function AllOwed(vs: seq<Ctrl>, a: int): nat {
    if vs == [] then 0 else AllOwed(vs[..|vs| - 1], a) + Owed(vs[|vs| - 1], a)
  }

  lemma {:induction false} AllOwedUpdate(vs: seq<Ctrl>, v: nat, s: Ctrl, a: int)
    requires v < |vs|
    ensures AllOwed(vs[v := s], a) + Owed(vs[v], a) == AllOwed(vs, a) + Owed(s, a)
  {
    hide Owed;
    var n := |vs| - 1;
    if v < n {
      AllOwedUpdate(vs[..n], v, s, a);
      assert vs[v := s][..n] == vs[..n][v := s];
    } else {
      assert vs[v := s][..n] == vs[..n];
    }
  }

  lemma {:induction false} AllOwedSame(vs: seq<Ctrl>, ws: seq<Ctrl>, a: int)
    requires |vs| == |ws| && forall i :: 0 <= i < |vs| ==> Owed(ws[i], a) == Owed(vs[i], a)
    ensures AllOwed(ws, a) == AllOwed(vs, a)
  {
    hide Owed;
    if vs != [] {
      AllOwedSame(vs[..|vs| - 1], ws[..|ws| - 1], a);
    }
  }
}

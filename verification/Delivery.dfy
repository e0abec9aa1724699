/** Every accepted transaction is in exactly one place until its callback, and the callback comes on
    exactly one tick. */
module Delivery {
  import opened DramTypes
  import opened Counting
  import opened DramConfig
  import opened History
  import opened Scheduler
  import opened QueueFacts
  import opened Turns
  import opened Memory

  function IdOf(t: Transaction): nat {
    t.id
  }

  function CallId(cb: Callback): nat {
    cb.trans.id
  }

  /** Where transaction number `id` is: waiting for DRAM, waiting for its callback, or called back. */
  ghost function Places(s: Ctrl, id: nat): nat {
    Count(s.pendingRd, IdOf, id) + Count(s.returnQ, IdOf, id) + Count(s.rec.returned, CallId, id)
  }

  /** Accepted = called back + returning + pending, as multisets. */
  ghost predicate Conserved(s: Ctrl) {
    forall id: nat :: Places(s, id) == if id < |s.rec.accepted| then 1 else 0
  }

  lemma ConservedAccept(c: Config, s: Ctrl, addr: nat, isWrite: bool, data: int)
    requires Conserved(s)
    ensures Conserved(AddTransaction(c, s, addr, isWrite, data))
  {
    hide Count, AddTransaction;
    var s' := AddTransaction(c, s, addr, isWrite, data);
    var t := Transaction(addr, isWrite, s.clk, 0, |s.rec.accepted|);
    RecordGrows(c, s, addr, isWrite, data);
    forall id: nat ensures Places(s', id) == if id < |s'.rec.accepted| then 1 else 0 {
      assert Places(s, id) == if id < |s.rec.accepted| then 1 else 0;
      CountSnoc(s.returnQ, t.(complete := s.clk + 1), IdOf, id);
      CountSnoc(s.pendingRd, t, IdOf, id);
    }
  }

  lemma {:induction false} ReadsPartition<K>(q: seq<Transaction>, addr: int, tag: Transaction -> K, k: K)
    ensures Count(ReadsOf(q, addr), tag, k) + Count(OtherReads(q, addr), tag, k) == Count(q, tag, k)
  {
    hide Count;
    if q == [] {
      CountEmpty(tag, k);
    } else {
      ReadsPartition(q[1..], addr, tag, k);
      CountCons(q, tag, k);
      if q[0].addr == addr {
        CountCons(ReadsOf(q, addr), tag, k);
        assert ReadsOf(q, addr)[1..] == ReadsOf(q[1..], addr);
        assert OtherReads(q, addr) == OtherReads(q[1..], addr);
      } else {
        CountCons(OtherReads(q, addr), tag, k);
        assert OtherReads(q, addr)[1..] == OtherReads(q[1..], addr);
        assert ReadsOf(q, addr) == ReadsOf(q[1..], addr);
      }
    }
  }

  lemma {:induction false} CompletedCount<K>(q: seq<Transaction>, clk: int, tag: Transaction -> K, k: K)
    requires forall t: Transaction :: tag(t.(complete := clk)) == tag(t)
    ensures Count(CompleteAt(q, clk), tag, k) == Count(q, tag, k)
  {
    hide Count;
    if q != [] {
      CompletedCount(q[1..], clk, tag, k);
      CountCons(q, tag, k);
      CountCons(CompleteAt(q, clk), tag, k);
      assert CompleteAt(q, clk)[1..] == CompleteAt(q[1..], clk);
    }
  }

  lemma {:induction false} DuePartition<K>(q: seq<Transaction>, clk: int, tag: Transaction -> K, k: K)
    ensures Count(Due(q, clk), tag, k) + Count(NotDue(q, clk), tag, k) == Count(q, tag, k)
  {
    hide Count;
    if q == [] {
      CountEmpty(tag, k);
    } else {
      DuePartition(q[1..], clk, tag, k);
      CountCons(q, tag, k);
      if q[0].complete <= clk {
        CountCons(Due(q, clk), tag, k);
        assert Due(q, clk)[1..] == Due(q[1..], clk);
        assert NotDue(q, clk) == NotDue(q[1..], clk);
      } else {
        CountCons(NotDue(q, clk), tag, k);
        assert NotDue(q, clk)[1..] == NotDue(q[1..], clk);
        assert Due(q, clk) == Due(q[1..], clk);
      }
    }
  }

  lemma {:induction false} CalledCount(q: seq<Transaction>, clk: int, id: nat)
    ensures Count(Called(q, clk), CallId, id) == Count(q, IdOf, id)
  {
    hide Count;
    if q == [] {
      CountNone(id);
    } else {
      CalledCount(q[1..], clk, id);
      CountCons(q, IdOf, id);
      CountCons(Called(q, clk), CallId, id);
      assert Called(q, clk)[1..] == Called(q[1..], clk);
    }
  }

  lemma CountNone(id: nat)
    ensures Count([], CallId, id) == 0 && Count([], IdOf, id) == 0
  {
  }

  lemma ConservedReturn(s: Ctrl, clk: int)
    requires Conserved(s)
    ensures Conserved(ReturnDone(s, clk))
  {
    hide Count, Due, NotDue, Called;
    var s' := ReturnDone(s, clk);
    forall id: nat ensures Places(s', id) == Places(s, id) {
      DuePartition(s.returnQ, clk, IdOf, id);
      CalledCount(Due(s.returnQ, clk), clk, id);
      CountAppend(s.rec.returned, Called(Due(s.returnQ, clk), clk), CallId, id);
    }
  }

  lemma ConservedAfterTurn(c: Config, s: Ctrl, turn: Turn, s': Ctrl)
    requires Conserved(s) && IsTurn(c, s, turn, s')
    ensures Conserved(s')
  {
    hide Count, Admits, RequestsAfter, ReadsOf, OtherReads, CompleteAt, Answer;
    forall id: nat ensures Places(s', id) == Places(s, id) && |s'.rec.accepted| == |s.rec.accepted| {
      if turn.ColumnTurn? && turn.cmd.kind.IsRead() {
        var served := ReadsOf(s.pendingRd, turn.cmd.hex);
        ReadsPartition(s.pendingRd, turn.cmd.hex, IdOf, id);
        CompletedCount(served, s.clk + c.ReadDelay(), IdOf, id);
        CountAppend(s.returnQ, CompleteAt(served, s.clk + c.ReadDelay()), IdOf, id);
      }
    }
  }

  // ---- which reads the write buffer answers -----------------------------------------------------------

  ghost predicate IsWriteOf(x: Issue, a: int) {
    x.cmd.kind.IsWrite() && x.cmd.hex == a
  }

  ghost predicate IsReadOf(x: Issue, a: int) {
    x.cmd.kind.IsRead() && x.cmd.hex == a
  }

  /** Accepted transaction `k` is a write of `a` that no WRITE has taken along. */
  ghost predicate OpenWrite(accepted: seq<Accepted>, log: Log, k: nat, a: int) {
    && k < |accepted| && accepted[k].isWrite && accepted[k].addr == a
    && forall j :: 0 <= j < |log| && IsWriteOf(log[j], a) ==> log[j].clk < accepted[k].clk
  }

  /** The same as of tick `clk`. */
  ghost predicate OpenBefore(accepted: seq<Accepted>, log: Log, k: nat, a: int, clk: int) {
    && k < |accepted| && accepted[k].isWrite && accepted[k].addr == a
    && forall j :: 0 <= j < |log| && IsWriteOf(log[j], a) ==> log[j].clk < accepted[k].clk || log[j].clk >= clk
  }

  /** When read `t` was accepted, an earlier write of its address had not been issued. */
  ghost predicate Forwarded(accepted: seq<Accepted>, log: Log, t: Transaction) {
    !t.isWrite && exists k: nat :: k < t.id && OpenBefore(accepted, log, k, t.addr, t.added)
  }

  ghost predicate SomeOpen(s: Ctrl, a: int) {
    exists k: nat :: OpenWrite(s.rec.accepted, s.log, k, a)
  }

  /** A write is pending exactly while an accepted one is not issued. */
  ghost predicate Buffered(s: Ctrl) {
    && (forall k :: 0 <= k < |s.rec.accepted| ==> s.rec.accepted[k].clk <= s.clk)
    && (forall a: int :: a in s.pendingWr <==> SomeOpen(s, a))
  }

  lemma {:induction false} AllIssuedBefore(c: Config, log: Log, clk: int, i: nat)
    requires Legal(c, log) && IssuedBefore(log, clk) && i < |log|
    ensures log[i].clk < clk
  {
    hide Legal;
    if i < |log| - 1 {
      ClocksIncrease(c, log, i, |log| - 1);
    }
  }

  /** More accepted transactions and later commands do not change what was open. */
  lemma OpenLater(accepted: seq<Accepted>, more: seq<Accepted>, log: Log, later: Log, k: nat, a: int, clk: int)
    requires accepted <= more && log <= later && k < |accepted|
    requires forall j :: |log| <= j < |later| ==> later[j].clk >= clk
    ensures OpenBefore(more, later, k, a, clk) <==> OpenBefore(accepted, log, k, a, clk)
  {
    if OpenBefore(more, later, k, a, clk) {
      forall j | 0 <= j < |log| && IsWriteOf(log[j], a) ensures log[j].clk < accepted[k].clk || log[j].clk >= clk {
        assert later[j] == log[j];
      }
    }
    if OpenBefore(accepted, log, k, a, clk) {
      forall j | 0 <= j < |later| && IsWriteOf(later[j], a) ensures later[j].clk < more[k].clk || later[j].clk >= clk {
        if j < |log| {
          assert later[j] == log[j];
        }
      }
    }
  }

  lemma ForwardedLater(accepted: seq<Accepted>, more: seq<Accepted>, log: Log, later: Log, t: Transaction)
    requires accepted <= more && log <= later && t.id <= |accepted|
    requires forall j :: |log| <= j < |later| ==> later[j].clk >= t.added
    ensures Forwarded(more, later, t) <==> Forwarded(accepted, log, t)
  {
    hide OpenBefore;
    forall k: nat | k < t.id
      ensures OpenBefore(more, later, k, t.addr, t.added) <==> OpenBefore(accepted, log, k, t.addr, t.added)
    {
      OpenLater(accepted, more, log, later, k, t.addr, t.added);
    }
  }

  lemma AcceptFrame(c: Config, s: Ctrl, addr: nat, isWrite: bool, data: int)
    ensures var s' := AddTransaction(c, s, addr, isWrite, data);
      && s'.rec.accepted == s.rec.accepted + [Accepted(addr, isWrite, s.clk, data)] && s'.log == s.log
      && s'.clk == s.clk
      && forall a: int :: a in s'.pendingWr <==> a in s.pendingWr || (isWrite && a == addr)
  {
    hide HasRead;
  }

  lemma OpenAccept(accepted: seq<Accepted>, x: Accepted, log: Log, k: nat, a: int)
    ensures k < |accepted| ==> (OpenWrite(accepted + [x], log, k, a) <==> OpenWrite(accepted, log, k, a))
    ensures k >= |accepted| && OpenWrite(accepted + [x], log, k, a) ==> k == |accepted| && x.isWrite && x.addr == a
    ensures k >= |accepted| ==> !OpenWrite(accepted, log, k, a)
  {
  }

  lemma BufferedAccept(c: Config, s: Ctrl, addr: nat, isWrite: bool, data: int)
    requires Buffered(s) && Legal(c, s.log) && IssuedBefore(s.log, s.clk)
    ensures Buffered(AddTransaction(c, s, addr, isWrite, data))
  {
    hide Legal, AddTransaction, OpenWrite;
    AcceptFrame(c, s, addr, isWrite, data);
    var s', x := AddTransaction(c, s, addr, isWrite, data), Accepted(addr, isWrite, s.clk, data);
    NewWriteOpen(c, s, x);
    forall a: int ensures a in s'.pendingWr <==> SomeOpen(s', a) {
      forall k: nat
        ensures k < |s.rec.accepted| ==>
          (OpenWrite(s'.rec.accepted, s.log, k, a) <==> OpenWrite(s.rec.accepted, s.log, k, a))
        ensures k >= |s.rec.accepted| && OpenWrite(s'.rec.accepted, s.log, k, a) ==> isWrite && addr == a
        ensures k >= |s.rec.accepted| ==> !OpenWrite(s.rec.accepted, s.log, k, a)
      {
        OpenAccept(s.rec.accepted, x, s.log, k, a);
      }
      assert a in s.pendingWr <==> SomeOpen(s, a);
    }
  }

  lemma NewWriteOpen(c: Config, s: Ctrl, x: Accepted)
    requires Legal(c, s.log) && IssuedBefore(s.log, s.clk) && x.clk == s.clk
    ensures x.isWrite ==> OpenWrite(s.rec.accepted + [x], s.log, |s.rec.accepted|, x.addr)
  {
    hide Legal;
    forall j | 0 <= j < |s.log| ensures s.log[j].clk < s.clk {
      AllIssuedBefore(c, s.log, s.clk, j);
    }
  }

  /** A WRITE takes along every accepted write of its address; nothing else closes one. */
  lemma OpenIssue(s: Ctrl, x: Issue, k: nat, a: int)
    requires Buffered(s) && x.clk == s.clk
    ensures OpenWrite(s.rec.accepted, s.log + [x], k, a) <==> OpenWrite(s.rec.accepted, s.log, k, a) && !IsWriteOf(x, a)
  {
    hide SomeOpen;
    var log := s.log + [x];
    if OpenWrite(s.rec.accepted, log, k, a) {
      assert log[|s.log|] == x;
      forall j | 0 <= j < |s.log| && IsWriteOf(s.log[j], a) ensures s.log[j].clk < s.rec.accepted[k].clk {
        assert log[j] == s.log[j];
      }
    }
  }

  lemma TurnWrites(c: Config, s: Ctrl, turn: Turn, s': Ctrl)
    requires IsTurn(c, s, turn, s')
    ensures s'.rec.accepted == s.rec.accepted && s'.clk == s.clk
    ensures s'.log == if turn.Idle? then s.log else s.log + [Issue(s.clk, turn.cmd)]
    ensures forall a: int :: a in s'.pendingWr <==>
      a in s.pendingWr && (turn.Idle? || !IsWriteOf(Issue(s.clk, turn.cmd), a))
  {
    hide Admits, RequestsAfter, ReadsOf, OtherReads, CompleteAt, Answer;
  }

  lemma BufferedAfterTurn(c: Config, s: Ctrl, turn: Turn, s': Ctrl)
    requires Buffered(s) && IsTurn(c, s, turn, s')
    ensures Buffered(s')
  {
    hide IsTurn, OpenWrite;
    TurnWrites(c, s, turn, s');
    forall a: int ensures a in s'.pendingWr <==> SomeOpen(s', a) {
      if !turn.Idle? {
        var x := Issue(s.clk, turn.cmd);
        forall k: nat
          ensures OpenWrite(s.rec.accepted, s'.log, k, a) <==>
            OpenWrite(s.rec.accepted, s.log, k, a) && !IsWriteOf(x, a)
        {
          OpenIssue(s, x, k, a);
        }
      }
      assert a in s.pendingWr <==> SomeOpen(s, a);
    }
  }

  // ---- on which tick ----------------------------------------------------------------------------------

  /** Entry `i` is the first READ of `t`'s address from the acceptance of `t` on. */
  ghost predicate FirstReadSince(log: Log, t: Transaction, i: nat) {
    && i < |log| && IsReadOf(log[i], t.addr) && log[i].clk >= t.added
    && forall j :: 0 <= j < i && IsReadOf(log[j], t.addr) ==> log[j].clk < t.added
  }

  /** No READ since `t` was accepted. */
  ghost predicate Unserved(log: Log, t: Transaction) {
    forall j :: 0 <= j < |log| && IsReadOf(log[j], t.addr) ==> log[j].clk < t.added
  }

  /** Transaction `t` completes and is to be called back on tick `at`. A write, or a read answered from the write
      buffer, does both one cycle after it was accepted. Any other read completes the read delay after the first
      READ of its address and is called back then, but on the next tick at the earliest. */
  ghost predicate OnTime(c: Config, accepted: seq<Accepted>, log: Log, t: Transaction, at: int) {
    if t.isWrite || Forwarded(accepted, log, t) then t.complete == t.added + 1 && at == t.complete
    else exists i: nat :: FirstReadSince(log, t, i) && ServedBy(c, log[i].clk, t, at)
  }

  predicate ServedBy(c: Config, clk: int, t: Transaction, at: int) {
    t.complete == clk + c.ReadDelay() && at == clk + Max(1, c.ReadDelay())
  }

  /** That leaves no choice. */
  lemma OneTick(c: Config, accepted: seq<Accepted>, log: Log, t: Transaction, u: Transaction, at: int, other: int)
    requires OnTime(c, accepted, log, t, at) && OnTime(c, accepted, log, u, other) && u == t.(complete := u.complete)
    ensures at == other && t.complete == u.complete
  {
    hide OpenBefore;
    assert Forwarded(accepted, log, u) <==> Forwarded(accepted, log, t);
    if !(t.isWrite || Forwarded(accepted, log, t)) {
      var i: nat :| FirstReadSince(log, t, i) && ServedBy(c, log[i].clk, t, at);
      var j: nat :| FirstReadSince(log, u, j) && ServedBy(c, log[j].clk, u, other);
      assert i == j;
    }
  }

  ghost predicate Scheduled(c: Config, accepted: seq<Accepted>, log: Log, t: Transaction, bound: int) {
    exists at :: at >= bound && OnTime(c, accepted, log, t, at)
  }

  /** A read that waits for its READ. */
  ghost predicate Awaiting(s: Ctrl, t: Transaction) {
    t.added <= s.clk && !t.isWrite && !Forwarded(s.rec.accepted, s.log, t) && Unserved(s.log, t)
  }

  ghost predicate Numbered(s: Ctrl, t: Transaction) {
    t.id < |s.rec.accepted| && t.added <= s.clk
  }

  /** Callbacks came on time and the rest is not overdue. */
  ghost predicate Punctual(c: Config, s: Ctrl, bound: int) {
    && Buffered(s)
    && (forall i :: 0 <= i < |s.pendingRd| ==> Numbered(s, s.pendingRd[i]) && Awaiting(s, s.pendingRd[i]))
    && (forall i :: 0 <= i < |s.returnQ| ==>
        Numbered(s, s.returnQ[i]) && Scheduled(c, s.rec.accepted, s.log, s.returnQ[i], bound))
    && (forall i :: 0 <= i < |s.rec.returned| ==>
        var cb := s.rec.returned[i]; Numbered(s, cb.trans) && OnTime(c, s.rec.accepted, s.log, cb.trans, cb.clk))
  }

  lemma OnTimeLater(c: Config, s: Ctrl, s': Ctrl, t: Transaction, at: int)
    requires Extends(s, s') && Numbered(s, t) && OnTime(c, s.rec.accepted, s.log, t, at)
    ensures OnTime(c, s'.rec.accepted, s'.log, t, at)
  {
    hide OpenBefore;
    ForwardedLater(s.rec.accepted, s'.rec.accepted, s.log, s'.log, t);
    if !(t.isWrite || Forwarded(s.rec.accepted, s.log, t)) {
      var i: nat :| FirstReadSince(s.log, t, i) && ServedBy(c, s.log[i].clk, t, at);
      assert FirstReadSince(s'.log, t, i);
    }
  }

  /** `s'` comes after `s`: more was accepted, and commands were issued from now on. */
  ghost predicate Extends(s: Ctrl, s': Ctrl) {
    && s.rec.accepted <= s'.rec.accepted && s.log <= s'.log && s.clk <= s'.clk
    && forall j :: |s.log| <= j < |s'.log| ==> s'.log[j].clk >= s.clk
  }

  lemma ScheduledLater(c: Config, s: Ctrl, s': Ctrl, t: Transaction, bound: int)
    requires Extends(s, s') && Numbered(s, t) && Scheduled(c, s.rec.accepted, s.log, t, bound)
    ensures Scheduled(c, s'.rec.accepted, s'.log, t, bound)
  {
    hide OnTime;
    var at :| at >= bound && OnTime(c, s.rec.accepted, s.log, t, at);
    OnTimeLater(c, s, s', t, at);
  }

  lemma AwaitingLater(s: Ctrl, s': Ctrl, t: Transaction)
    requires Extends(s, s') && Numbered(s, t) && Awaiting(s, t)
    requires forall j :: |s.log| <= j < |s'.log| ==> !IsReadOf(s'.log[j], t.addr)
    ensures Numbered(s', t) && Awaiting(s', t)
  {
    hide OpenBefore;
    ForwardedLater(s.rec.accepted, s'.rec.accepted, s.log, s'.log, t);
  }

  lemma AcceptKeeps(c: Config, s: Ctrl, addr: nat, isWrite: bool, data: int)
    ensures AddTransaction(c, s, addr, isWrite, data).log == s.log
    ensures AddTransaction(c, s, addr, isWrite, data).clk == s.clk
  {
  }

  /** The new read is answered from the buffer exactly when the code finds a pending write. */
  lemma NewRead(c: Config, s: Ctrl, addr: nat, data: int, t: Transaction)
    requires Buffered(s) && Legal(c, s.log) && IssuedBefore(s.log, s.clk)
    requires t.addr == addr && !t.isWrite && t.added == s.clk && t.id == |s.rec.accepted|
    ensures var accepted := s.rec.accepted + [Accepted(addr, false, s.clk, data)];
      (Forwarded(accepted, s.log, t) <==> addr in s.pendingWr) && Unserved(s.log, t)
  {
    hide Legal, OpenWrite, OpenBefore;
    var accepted := s.rec.accepted + [Accepted(addr, false, s.clk, data)];
    forall k: nat
      ensures k < t.id ==> (OpenBefore(accepted, s.log, k, addr, s.clk) <==> OpenWrite(s.rec.accepted, s.log, k, addr))
      ensures OpenWrite(s.rec.accepted, s.log, k, addr) ==> k < t.id
    {
      OpenSoFar(c, s, accepted, k, addr);
    }
    assert addr in s.pendingWr <==> SomeOpen(s, addr);
    forall j | 0 <= j < |s.log| ensures s.log[j].clk < s.clk {
      AllIssuedBefore(c, s.log, s.clk, j);
    }
  }

  lemma OpenSoFar(c: Config, s: Ctrl, accepted: seq<Accepted>, k: nat, a: int)
    requires Legal(c, s.log) && IssuedBefore(s.log, s.clk) && s.rec.accepted <= accepted
    ensures k < |s.rec.accepted| ==>
      (OpenBefore(accepted, s.log, k, a, s.clk) <==> OpenWrite(s.rec.accepted, s.log, k, a))
    ensures OpenWrite(s.rec.accepted, s.log, k, a) ==> k < |s.rec.accepted|
  {
    hide Legal;
    forall j | 0 <= j < |s.log| ensures s.log[j].clk < s.clk {
      AllIssuedBefore(c, s.log, s.clk, j);
    }
  }

  lemma PunctualAccept(c: Config, s: Ctrl, addr: nat, isWrite: bool, data: int)
    requires Punctual(c, s, s.clk) && Legal(c, s.log) && IssuedBefore(s.log, s.clk)
    ensures Punctual(c, AddTransaction(c, s, addr, isWrite, data), s.clk)
  {
    hide AddTransaction, Legal, Buffered, Awaiting, OnTime, Scheduled;
    var s' := AddTransaction(c, s, addr, isWrite, data);
    RecordGrows(c, s, addr, isWrite, data);
    AcceptFrame(c, s, addr, isWrite, data);
    BufferedAccept(c, s, addr, isWrite, data);
    NewcomerOnTime(c, s, addr, isWrite, data);
    forall t | Numbered(s, t) && Awaiting(s, t) ensures Numbered(s', t) && Awaiting(s', t) {
      AwaitingLater(s, s', t);
    }
    forall t | Numbered(s, t) && Scheduled(c, s.rec.accepted, s.log, t, s.clk)
      ensures Scheduled(c, s'.rec.accepted, s'.log, t, s.clk)
    {
      ScheduledLater(c, s, s', t, s.clk);
    }
    forall t, at | Numbered(s, t) && OnTime(c, s.rec.accepted, s.log, t, at)
      ensures OnTime(c, s'.rec.accepted, s'.log, t, at)
    {
      OnTimeLater(c, s, s', t, at);
    }
  }

  lemma NewcomerOnTime(c: Config, s: Ctrl, addr: nat, isWrite: bool, data: int)
    requires Buffered(s) && Legal(c, s.log) && IssuedBefore(s.log, s.clk)
    ensures var s' := AddTransaction(c, s, addr, isWrite, data);
      var t := Transaction(addr, isWrite, s.clk, 0, |s.rec.accepted|);
      && Numbered(s', t)
      && (if isWrite || addr in s.pendingWr then Scheduled(c, s'.rec.accepted, s'.log, t.(complete := s.clk + 1), s.clk)
          else Awaiting(s', t))
  {
    hide AddTransaction, Legal, Buffered, OpenWrite;
    AcceptFrame(c, s, addr, isWrite, data);
    var s' := AddTransaction(c, s, addr, isWrite, data);
    var t := Transaction(addr, isWrite, s.clk, 0, |s.rec.accepted|);
    var done := t.(complete := s.clk + 1);
    if isWrite {
      assert OnTime(c, s'.rec.accepted, s'.log, done, s.clk + 1);
    } else {
      NewRead(c, s, addr, data, t);
      NewRead(c, s, addr, data, done);
      if addr in s.pendingWr {
        assert OnTime(c, s'.rec.accepted, s'.log, done, s.clk + 1);
      }
    }
  }

  lemma BufferedElsewhere(s: Ctrl, s': Ctrl)
    requires Buffered(s) && s'.rec.accepted == s.rec.accepted && s'.log == s.log && s'.pendingWr == s.pendingWr
    requires s.clk <= s'.clk
    ensures Buffered(s')
  {
    hide OpenWrite;
    forall a: int ensures a in s'.pendingWr <==> SomeOpen(s', a) {
      assert SomeOpen(s', a) <==> SomeOpen(s, a);
    }
  }

  /** A transaction is due exactly on its tick. */
  lemma DueOnTime(c: Config, accepted: seq<Accepted>, log: Log, clk: int, t: Transaction, at: int)
    requires Legal(c, log) && IssuedBefore(log, clk) && at >= clk && OnTime(c, accepted, log, t, at)
    ensures t.complete <= clk <==> at == clk
  {
    hide Legal, Forwarded;
    if !(t.isWrite || Forwarded(accepted, log, t)) {
      var i: nat :| FirstReadSince(log, t, i) && ServedBy(c, log[i].clk, t, at);
      AllIssuedBefore(c, log, clk, i);
    }
  }

  lemma PunctualReturn(c: Config, s: Ctrl)
    requires Legal(c, s.log) && IssuedBefore(s.log, s.clk) && Punctual(c, s, s.clk)
    ensures Punctual(c, ReturnDone(s, s.clk), s.clk + 1)
  {
    hide Legal, Due, NotDue, Called, OnTime, Buffered, Forwarded;
    BufferedElsewhere(s, ReturnDone(s, s.clk));
    DueMember(s.returnQ, s.clk);
    CalledMember(Due(s.returnQ, s.clk), s.clk);
    forall t | t in s.returnQ
      ensures t.complete <= s.clk ==> OnTime(c, s.rec.accepted, s.log, t, s.clk)
      ensures t.complete > s.clk ==> Scheduled(c, s.rec.accepted, s.log, t, s.clk + 1)
    {
      var at :| at >= s.clk && OnTime(c, s.rec.accepted, s.log, t, at);
      DueOnTime(c, s.rec.accepted, s.log, s.clk, t, at);
    }
  }

  /** A pending read completed by a READ now is on time. */
  lemma CompletedOnTime(c: Config, s: Ctrl, s': Ctrl, x: Issue, t: Transaction)
    requires Awaiting(s, t) && Numbered(s, t) && IsReadOf(x, t.addr) && x.clk == s.clk
    requires s'.log == s.log + [x] && s'.rec.accepted == s.rec.accepted
    ensures Scheduled(c, s'.rec.accepted, s'.log, t.(complete := x.clk + c.ReadDelay()), x.clk + 1)
  {
    hide OpenBefore;
    var done := t.(complete := x.clk + c.ReadDelay());
    ForwardedLater(s.rec.accepted, s'.rec.accepted, s.log, s'.log, t);
    assert Forwarded(s'.rec.accepted, s'.log, done) <==> Forwarded(s'.rec.accepted, s'.log, t);
    assert FirstReadSince(s'.log, done, |s.log|);
    assert OnTime(c, s'.rec.accepted, s'.log, done, x.clk + Max(1, c.ReadDelay()));
  }

  /** What every turn keeps, and what a READ adds. */
  lemma PunctualAfterTurn(c: Config, s: Ctrl, turn: Turn, s': Ctrl)
    requires Punctual(c, s, s.clk + 1) && IsTurn(c, s, turn, s')
    ensures Punctual(c, s', s.clk + 1)
  {
    hide IsTurn, CompleteAt, ReadsOf, OnTime, Scheduled, Buffered, Awaiting;
    var bound := s.clk + 1;
    BufferedAfterTurn(c, s, turn, s');
    TurnWrites(c, s, turn, s');
    forall t | Numbered(s, t) && Scheduled(c, s.rec.accepted, s.log, t, bound)
      ensures Scheduled(c, s'.rec.accepted, s'.log, t, bound)
    {
      ScheduledLater(c, s, s', t, bound);
    }
    forall t, at | Numbered(s, t) && OnTime(c, s.rec.accepted, s.log, t, at)
      ensures OnTime(c, s'.rec.accepted, s'.log, t, at)
    {
      OnTimeLater(c, s, s', t, at);
    }
    PendingAfterTurn(c, s, turn, s');
    ReturningAfterTurn(c, s, turn, s');
  }

  lemma PendingAfterTurn(c: Config, s: Ctrl, turn: Turn, s': Ctrl)
    requires IsTurn(c, s, turn, s')
    requires forall i :: 0 <= i < |s.pendingRd| ==> Numbered(s, s.pendingRd[i]) && Awaiting(s, s.pendingRd[i])
    ensures forall i :: 0 <= i < |s'.pendingRd| ==> Numbered(s', s'.pendingRd[i]) && Awaiting(s', s'.pendingRd[i])
  {
    hide Admits, RequestsAfter, ReadsOf, OtherReads, CompleteAt, Answer, Awaiting;
    forall i | 0 <= i < |s'.pendingRd| ensures Numbered(s', s'.pendingRd[i]) && Awaiting(s', s'.pendingRd[i]) {
      if turn.ColumnTurn? && turn.cmd.kind.IsRead() {
        OtherReadsMember(s.pendingRd, turn.cmd.hex, i);
      }
      AwaitingLater(s, s', s'.pendingRd[i]);
    }
  }

  lemma ReturningAfterTurn(c: Config, s: Ctrl, turn: Turn, s': Ctrl)
    requires IsTurn(c, s, turn, s')
    requires forall i :: 0 <= i < |s.pendingRd| ==> Numbered(s, s.pendingRd[i]) && Awaiting(s, s.pendingRd[i])
    ensures s'.rec.returned == s.rec.returned && |s.returnQ| <= |s'.returnQ| && s'.returnQ[..|s.returnQ|] == s.returnQ
    ensures forall i :: |s.returnQ| <= i < |s'.returnQ| ==>
      Numbered(s', s'.returnQ[i]) && Scheduled(c, s'.rec.accepted, s'.log, s'.returnQ[i], s.clk + 1)
  {
    hide Admits, RequestsAfter, ReadsOf, OtherReads, CompleteAt, Answer, Awaiting, Scheduled;
    if turn.ColumnTurn? && turn.cmd.kind.IsRead() {
      var served := ReadsOf(s.pendingRd, turn.cmd.hex);
      forall i | |s.returnQ| <= i < |s'.returnQ|
        ensures Numbered(s', s'.returnQ[i]) && Scheduled(c, s'.rec.accepted, s'.log, s'.returnQ[i], s.clk + 1)
      {
        CompleteAtMember(served, s.clk + c.ReadDelay(), i - |s.returnQ|);
        ReadsOfMember(s.pendingRd, turn.cmd.hex, i - |s.returnQ|);
        CompletedOnTime(c, s, s', Issue(s.clk, turn.cmd), served[i - |s.returnQ|]);
      }
    }
  }
}

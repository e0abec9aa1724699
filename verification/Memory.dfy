/** With data: the channel behaves like an atomic memory. Every read is answered with what the last
    write accepted before it carried, whether it was forwarded from the write buffer or read from DRAM
    long after later writes were accepted. */
module Memory {
  import opened DramTypes
  import opened DramConfig
  import opened History
  import opened Scheduler
  import opened QueueFacts
  import opened Turns
  import opened Ordering

  /** Contents of address `a` after the accepted transactions, one at a time. */
  function Atomic(accepted: seq<Accepted>, a: int): int {
    if accepted == [] then 0
    else
      var x := accepted[|accepted| - 1];
      if x.isWrite && x.addr == a then x.data else Atomic(accepted[..|accepted| - 1], a)
  }

  /** `t` is the transaction that was accepted as number `t.id`. */
  ghost predicate Matches(rec: Record, t: Transaction) {
    t.id < |rec.accepted| && rec.accepted[t.id].addr == t.addr && rec.accepted[t.id].isWrite == t.isWrite
      && rec.accepted[t.id].clk == t.added
  }

  /** What an atomic memory would have answered to read `t`. */
  function Expected(rec: Record, t: Transaction): int
    requires t.id <= |rec.accepted|
  {
    Atomic(rec.accepted[..t.id], t.addr)
  }

  /** An answered read saw the right value. */
  ghost predicate Answered(rec: Record, t: Transaction) {
    Matches(rec, t) && (!t.isWrite ==> t.id in rec.got && rec.got[t.id] == Expected(rec, t))
  }

  /** A read on its way to DRAM will find the right value there. */
  ghost predicate Awaited(rec: Record, t: Transaction) {
    Matches(rec, t) && !t.isWrite && Lookup(rec.dram, t.addr) == Expected(rec, t)
  }

  /** The write buffer over DRAM is the atomic memory. */
  ghost predicate Coherent(s: Ctrl) {
    && s.rec.buffer.Keys == s.pendingWr.Keys
    && forall a: int ::
      Atomic(s.rec.accepted, a) == if a in s.rec.buffer then s.rec.buffer[a] else Lookup(s.rec.dram, a)
  }

  ghost predicate Faithful(s: Ctrl) {
    && Coherent(s)
    && (forall i :: 0 <= i < |s.pendingRd| ==> Awaited(s.rec, s.pendingRd[i]))
    && (forall i :: 0 <= i < |s.returnQ| ==> Answered(s.rec, s.returnQ[i]))
    && (forall i :: 0 <= i < |s.rec.returned| ==> Answered(s.rec, s.rec.returned[i].trans))
  }

  // ---- accepting -----------------------------------------------------------------------------------

  lemma AtomicSnoc(accepted: seq<Accepted>, x: Accepted, a: int)
    ensures Atomic(accepted + [x], a) == if x.isWrite && x.addr == a then x.data else Atomic(accepted, a)
  {
    assert (accepted + [x])[..|accepted|] == accepted;
  }

  lemma CoherentAccept(c: Config, s: Ctrl, addr: nat, isWrite: bool, data: int)
    requires Coherent(s)
    ensures Coherent(AddTransaction(c, s, addr, isWrite, data))
  {
    hide Atomic, HasRead;
    var s' := AddTransaction(c, s, addr, isWrite, data);
    forall a: int
      ensures Atomic(s'.rec.accepted, a) == if a in s'.rec.buffer then s'.rec.buffer[a] else Lookup(s'.rec.dram, a)
    {
      AtomicSnoc(s.rec.accepted, Accepted(addr, isWrite, s.clk, data), a);
    }
  }

  /** Later transactions do not change what an earlier one expects or got. */
  lemma StaysAnswered(rec: Record, rec': Record, t: Transaction)
    requires |rec.accepted| <= |rec'.accepted| && rec'.accepted[..|rec.accepted|] == rec.accepted
    requires forall id :: id in rec.got && id < |rec.accepted| ==> id in rec'.got && rec'.got[id] == rec.got[id]
    ensures Answered(rec, t) ==> Answered(rec', t)
    ensures Awaited(rec, t) && Lookup(rec'.dram, t.addr) == Lookup(rec.dram, t.addr) ==> Awaited(rec', t)
  {
    hide Atomic;
    if t.id < |rec.accepted| {
      assert rec'.accepted[..t.id] == rec.accepted[..t.id] by {
        assert rec'.accepted[..t.id] == rec'.accepted[..|rec.accepted|][..t.id];
      }
      assert rec'.accepted[t.id] == rec'.accepted[..|rec.accepted|][t.id];
    }
  }

  lemma FaithfulAccept(c: Config, s: Ctrl, addr: nat, isWrite: bool, data: int)
    requires Faithful(s)
    ensures Faithful(AddTransaction(c, s, addr, isWrite, data))
  {
    hide Atomic, HasRead, Coherent, Awaited, Answered, Enqueue;
    var s' := AddTransaction(c, s, addr, isWrite, data);
    CoherentAccept(c, s, addr, isWrite, data);
    RecordGrows(c, s, addr, isWrite, data);
    forall t: Transaction
      ensures Answered(s.rec, t) ==> Answered(s'.rec, t)
      ensures Awaited(s.rec, t) ==> Awaited(s'.rec, t)
    {
      StaysAnswered(s.rec, s'.rec, t);
    }
    NewcomerIsRight(c, s, addr, isWrite, data);
  }

  lemma RecordGrows(c: Config, s: Ctrl, addr: nat, isWrite: bool, data: int)
    ensures var s' := AddTransaction(c, s, addr, isWrite, data);
      && s'.rec.accepted[..|s.rec.accepted|] == s.rec.accepted && |s'.rec.accepted| == |s.rec.accepted| + 1
      && s'.rec.dram == s.rec.dram && s'.rec.returned == s.rec.returned
      && (forall id :: id in s.rec.got && id < |s.rec.accepted| ==> id in s'.rec.got && s'.rec.got[id] == s.rec.got[id])
    ensures var s' := AddTransaction(c, s, addr, isWrite, data);
      var t := Transaction(addr, isWrite, s.clk, 0, |s.rec.accepted|);
      && s'.returnQ == (if isWrite || addr in s.pendingWr then s.returnQ + [t.(complete := s.clk + 1)] else s.returnQ)
      && s'.pendingRd == (if isWrite || addr in s.pendingWr then s.pendingRd else s.pendingRd + [t])
  {
    hide HasRead;
  }

  lemma NewcomerIsRight(c: Config, s: Ctrl, addr: nat, isWrite: bool, data: int)
    requires Coherent(s)
    ensures var s' := AddTransaction(c, s, addr, isWrite, data);
      var t := Transaction(addr, isWrite, s.clk, 0, |s.rec.accepted|);
      if isWrite || addr in s.pendingWr then Answered(s'.rec, t.(complete := s.clk + 1)) else Awaited(s'.rec, t)
  {
    hide Atomic, HasRead;
    var s' := AddTransaction(c, s, addr, isWrite, data);
    assert s'.rec.accepted[..|s.rec.accepted|] == s.rec.accepted;
  }

  // ---- issuing --------------------------------------------------------------------------------------

  lemma {:induction false} AnswerAt(got: map<nat, int>, q: seq<Transaction>, v: int, id: nat)
    ensures (exists i :: 0 <= i < |q| && q[i].id == id) ==> id in Answer(got, q, v) && Answer(got, q, v)[id] == v
    ensures !(exists i :: 0 <= i < |q| && q[i].id == id) ==>
      (id in Answer(got, q, v) <==> id in got) && (id in got ==> Answer(got, q, v)[id] == got[id])
    decreases q
  {
    if q != [] {
      AnswerAt(got[q[0].id := v], q[1..], v, id);
      if exists i :: 0 <= i < |q| && q[i].id == id {
        var i :| 0 <= i < |q| && q[i].id == id;
        if i > 0 {
          assert q[1..][i - 1].id == id;
        }
      }
      if exists i :: 0 <= i < |q| - 1 && q[1..][i].id == id {
        var i :| 0 <= i < |q| - 1 && q[1..][i].id == id;
        assert q[i + 1].id == id;
      }
    }
  }

  lemma {:induction false} ReadsOfMember(q: seq<Transaction>, addr: int, i: nat)
    requires i < |ReadsOf(q, addr)|
    ensures ReadsOf(q, addr)[i] in q && ReadsOf(q, addr)[i].addr == addr
  {
    if q[0].addr == addr {
      if i > 0 {
        ReadsOfMember(q[1..], addr, i - 1);
      }
    } else {
      ReadsOfMember(q[1..], addr, i);
    }
  }

  lemma {:induction false} OtherReadsMember(q: seq<Transaction>, addr: int, i: nat)
    requires i < |OtherReads(q, addr)|
    ensures OtherReads(q, addr)[i] in q && OtherReads(q, addr)[i].addr != addr
  {
    if q[0].addr != addr {
      if i > 0 {
        OtherReadsMember(q[1..], addr, i - 1);
      }
    } else {
      OtherReadsMember(q[1..], addr, i);
    }
  }

  lemma {:induction false} CompleteAtMember(q: seq<Transaction>, clk: int, i: nat)
    requires i < |CompleteAt(q, clk)|
    ensures |CompleteAt(q, clk)| == |q| && CompleteAt(q, clk)[i] == q[i].(complete := clk)
  {
    if |q| > 1 {
      CompleteAtMember(q[1..], clk, if i > 0 then i - 1 else 0);
    }
  }

  /** A READ answers every pending read of its address with what DRAM holds. */
  lemma FaithfulRead(c: Config, s: Ctrl, turn: Turn, s': Ctrl)
    requires Faithful(s) && turn.ColumnTurn? && turn.cmd.kind.IsRead() && IsTurn(c, s, turn, s')
    ensures Faithful(s')
  {
    hide Admits, Atomic, ReadsOf, OtherReads, CompleteAt, Answer;
    var a := turn.cmd.hex;
    var served, v := ReadsOf(s.pendingRd, a), Lookup(s.rec.dram, a);
    forall t: Transaction | Answered(s.rec, t) ensures Answered(s'.rec, t) {
      AnswerAt(s.rec.got, served, v, t.id);
      if exists i :: 0 <= i < |served| && served[i].id == t.id {
        var i :| 0 <= i < |served| && served[i].id == t.id;
        ReadsOfMember(s.pendingRd, a, i);
        assert Awaited(s.rec, served[i]);
      }
    }
    forall i | 0 <= i < |s'.pendingRd| ensures Awaited(s'.rec, s'.pendingRd[i]) {
      OtherReadsMember(s.pendingRd, a, i);
    }
    var done := CompleteAt(served, s.clk + c.ReadDelay());
    forall i | 0 <= i < |done| ensures Answered(s'.rec, done[i]) {
      CompleteAtMember(served, s.clk + c.ReadDelay(), i);
      ReadsOfMember(s.pendingRd, a, i);
      assert Awaited(s.rec, served[i]);
      AnswerAt(s.rec.got, served, v, done[i].id);
    }
    assert s'.returnQ == s.returnQ + done;
  }

  /** A WRITE moves its data from the buffer to DRAM; no pending read was going to look there. */
  lemma FaithfulWrite(c: Config, s: Ctrl, turn: Turn, s': Ctrl)
    requires Faithful(s) && turn.ColumnTurn? && turn.cmd.kind.IsWrite() && IsTurn(c, s, turn, s')
    requires !HasRead(s.pendingRd, turn.cmd.hex)
    ensures Faithful(s')
  {
    hide Admits, Atomic;
    forall i | 0 <= i < |s'.pendingRd| ensures Awaited(s'.rec, s'.pendingRd[i]) {
      assert Awaited(s.rec, s.pendingRd[i]);
    }
  }

  lemma FaithfulAfterTurn(c: Config, s: Ctrl, turn: Turn, s': Ctrl)
    requires Faithful(s) && IsTurn(c, s, turn, s')
    requires turn.ColumnTurn? && turn.cmd.kind.IsWrite() ==> !HasRead(s.pendingRd, turn.cmd.hex)
    ensures Faithful(s')
  {
    hide Admits, Atomic, RequestsAfter, Awaited, Answered, CompleteTransactions, HasRead;
    if turn.ColumnTurn? {
      if turn.cmd.kind.IsWrite() {
        FaithfulWrite(c, s, turn, s');
      } else {
        FaithfulRead(c, s, turn, s');
      }
    }
  }

  // ---- returning and scheduling -----------------------------------------------------------------------

  lemma {:induction false} DueMember(q: seq<Transaction>, clk: int)
    ensures forall i :: 0 <= i < |Due(q, clk)| ==> Due(q, clk)[i] in q && Due(q, clk)[i].complete <= clk
    ensures forall i :: 0 <= i < |NotDue(q, clk)| ==> NotDue(q, clk)[i] in q && NotDue(q, clk)[i].complete > clk
  {
    if q != [] {
      DueMember(q[1..], clk);
    }
  }

  lemma {:induction false} CalledMember(q: seq<Transaction>, clk: int)
    ensures |Called(q, clk)| == |q|
    ensures forall i :: 0 <= i < |q| ==> Called(q, clk)[i] == Callback(q[i], clk)
  {
    if q != [] {
      CalledMember(q[1..], clk);
    }
  }

  lemma FaithfulReturn(s: Ctrl, clk: int)
    requires Faithful(s)
    ensures Faithful(ReturnDone(s, clk))
  {
    hide Atomic, Due, NotDue, Called;
    DueMember(s.returnQ, clk);
    CalledMember(Due(s.returnQ, clk), clk);
    var s' := ReturnDone(s, clk);
    forall t: Transaction | Answered(s.rec, t) ensures Answered(s'.rec, t) {
    }
    forall t: Transaction | Awaited(s.rec, t) ensures Awaited(s'.rec, t) {
    }
  }

  /** Steps that touch neither the record nor the pending and returning transactions. */
  lemma FaithfulElsewhere(s: Ctrl, s': Ctrl)
    requires Faithful(s)
    requires s'.rec == s.rec && s'.pendingRd == s.pendingRd && s'.pendingWr == s.pendingWr && s'.returnQ == s.returnQ
    ensures Faithful(s')
  {
    hide Atomic;
  }
}

/** The other steps of the controller keep its invariant too, so no run ever aborts. */
module Steps {
  import opened DramTypes
  import opened Counting
  import opened DramConfig
  import opened History
  import opened Scheduler
  import opened QueueFacts
  import opened Turns

  // ---- transactions -----------------------------------------------------------------------------

  lemma HasReadSnoc(q: seq<Transaction>, t: Transaction, a: int)
    ensures HasRead(q + [t], a) <==> HasRead(q, a) || t.addr == a
  {
    if HasRead(q, a) {
      var i :| 0 <= i < |q| && q[i].addr == a;
      assert (q + [t])[i].addr == a;
    }
    if t.addr == a {
      assert (q + [t])[|q|].addr == a;
    }
  }

  lemma CoreAccept(c: Config, s: Ctrl, addr: nat, isWrite: bool, data: int)
    requires Core(c, s)
    ensures Core(c, AddTransaction(c, s, addr, isWrite, data))
  {
    hide Legal, CqOk, RequestsOk, HasRead, Count, CountAll;
    var s' := AddTransaction(c, s, addr, isWrite, data);
    var t := Transaction(addr, isWrite, s.clk, 0, |s.rec.accepted|);
    forall k: Key ensures Waiting(s', k) == if Pending(s', k) then 1 else 0 {
      assert Waiting(s, k) == if Pending(s, k) then 1 else 0;
      HasReadSnoc(s.pendingRd, t, k.addr);
      CountSnoc(s.unified, t, TransKey, k);
      CountSnoc(s.readQ, t, TransKey, k);
      CountSnoc(s.writeBuf, t, TransKey, k);
    }
  }

  lemma CoreReturn(c: Config, s: Ctrl, clk: int)
    requires Core(c, s)
    ensures Core(c, ReturnDone(s, clk))
  {
    hide Legal, CqOk, RequestsOk, Count, CountAll, NotDue, Due, Called;
    var s' := ReturnDone(s, clk);
    assert forall k: Key :: Waiting(s', k) == Waiting(s, k) && Pending(s', k) == Pending(s, k);
  }

  // ---- refresh timer ----------------------------------------------------------------------------

  ghost predicate TimerOk(c: Config, r: RefreshState) {
    0 <= r.nextRank < c.ranks && 0 <= r.nextGroup < c.bankgroups && 0 <= r.nextBank < c.banksPerGroup
  }

  lemma CoreRefresh(c: Config, s: Ctrl)
    requires Core(c, s) && TimerOk(c, s.ref)
    ensures Core(c, RefreshTick(c, s)) && TimerOk(c, RefreshTick(c, s).ref)
  {
    hide Legal, CqOk, Count, CountAll;
    var s' := RefreshTick(c, s);
    assert forall k: Key :: Waiting(s', k) == Waiting(s, k) && Pending(s', k) == Pending(s, k);
    IterateStays(c, s.ref);
  }

  lemma IterateStays(c: Config, r: RefreshState)
    requires c.Valid() && TimerOk(c, r)
    ensures TimerOk(c, IterateNext(c, r))
  {
  }

  // ---- scheduling -------------------------------------------------------------------------------

  /** Moving a transaction to its command queue changes nothing that waits. */
  lemma CoreMove(c: Config, s: Ctrl, src: Source, i: nat)
    requires Core(c, s)
    requires i < |SourceQueue(s, src)| && SourceQueue(s, src)[i].addr >= 0
    requires WillAcceptCommand(c, s.cq, TransToCommand(c, SourceQueue(s, src)[i]).Bank())
    ensures Core(c, Move(c, s, src, i))
  {
    hide Legal, RequestsOk, Count, CountAll, QueueIndex, CommandFor;
    var q := SourceQueue(s, src);
    var cmd := TransToCommand(c, q[i]);
    assert CmdOk(c, cmd) && CmdKey(cmd) == TransKey(q[i]) by { CommandKey(c, q[i]); }
    var p := QueueIndex(c, cmd.Bank());
    var s' := Move(c, s, src, i);
    forall k: Key ensures Waiting(s', k) == Waiting(s, k) && Pending(s', k) == Pending(s, k) {
      CountAllUpdate(s.cq.queues, p, s.cq.queues[p] + [cmd], CmdKey, k);
      CountSnoc(s.cq.queues[p], cmd, CmdKey, k);
      CountRemove(q, i, TransKey, k);
    }
    ShapeAfterRemove(c, s, src, i);
  }

  lemma CommandKey(c: Config, t: Transaction)
    requires t.addr >= 0
    ensures CmdOk(c, TransToCommand(c, t)) && CmdKey(TransToCommand(c, t)) == TransKey(t)
  {
  }

  lemma ShapeAfterRemove(c: Config, s: Ctrl, src: Source, i: nat)
    requires TransShape(c, s) && i < |SourceQueue(s, src)|
    ensures TransShape(c, WithSource(s, src, Remove(SourceQueue(s, src), i)))
  {
  }

  lemma CoreSchedule(c: Config, s: Ctrl)
    requires Core(c, s)
    ensures Core(c, ScheduleTransaction(c, s))
  {
    hide Core, FirstFitting, WillAcceptCommand, Move, Draining;
    var s1 := s.(draining := Draining(c, s));
    CoreDraining(c, s, s1.draining);
    var src := if c.unifiedQueue then Unified else if s1.draining > 0 then WriteBuffer else ReadQueue;
    var q := SourceQueue(s1, src);
    assert TransOk(s1) by { CoreTrans(c, s); }
    FirstFittingFits(c, s1.cq, q, 0);
    var fit := FirstFitting(c, s1.cq, q, 0);
    if fit.Some? {
      CoreDraining(c, s1, 0);
      CoreDraining(c, s1, s1.draining - 1);
      CoreMove(c, s1, src, fit.value);
      CoreMove(c, s1.(draining := s1.draining - 1), src, fit.value);
    }
  }

  lemma CoreTrans(c: Config, s: Ctrl)
    requires Core(c, s)
    ensures TransOk(s)
  {
  }

  lemma CoreDraining(c: Config, s: Ctrl, d: int)
    requires Core(c, s)
    ensures Core(c, s.(draining := d))
  {
    hide Legal, CqOk, RequestsOk, Count, CountAll, TransShape, TransOk;
    var s' := s.(draining := d);
    assert TransShape(c, s') by { ShapeDraining(c, s, d); }
    assert forall k: Key :: Waiting(s', k) == Waiting(s, k) && Pending(s', k) == Pending(s, k);
  }

  lemma ShapeDraining(c: Config, s: Ctrl, d: int)
    requires TransShape(c, s)
    ensures TransShape(c, s.(draining := d))
  {
  }
}

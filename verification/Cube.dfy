/** The memory cube as values: the crossbar on top of the vault controllers. What a table entry stands for is
    a request on a link, in a quadrant, or owed by a vault. */
module Cube {
  import opened DramTypes
  import opened Counting
  import opened DramConfig
  import opened Scheduler
  import opened Turns
  import opened Delivery
  import opened Runs
  import opened Outstanding
  import opened Crossbar

  // ---- the crossbar's own steps ---------------------------------------------------------------------------

  /** Nothing came in or out, and no logic cycle went by. */
  predicate SameRecord(x: Xbar, y: Xbar) {
    y.inserted == x.inserted && y.called == x.called && y.logicClk == x.logicClk
  }

  predicate Same(x: Xbar, y: Xbar) {
    SameRecord(x, y) && y.atVaults == x.atVaults
  }

  predicate SameButCalled(x: Xbar, y: Xbar) {
    y.inserted == x.inserted && x.called <= y.called && y.logicClk == x.logicClk && y.atVaults == x.atVaults
  }

  /** The queue of turns: no one twice, and everyone in it has something to send. */
  ghost predicate InTurn<T>(queues: seq<seq<T>>, queue: seq<nat>) {
    Distinct(queue) && forall i :: 0 <= i < |queue| ==> queue[i] < |queues| && queues[queue[i]] != []
  }

  lemma TurnsLeft<T>(queues: seq<seq<T>>, queue: seq<nat>)
    requires InTurn(queues, queue) && queue != []
    ensures var n := |queue| - 1;
      InTurn(queues, queue[..n]) && queue[n] !in queue[..n] && queue[n] < |queues| && queues[queue[n]] != []
  {
  }

  /** The requests of all links in `queue` move or age. */
  ghost function MoveRequests(p: Params, x: Xbar, queue: seq<nat>): (y: Xbar)
    requires XbarOk(p, x) && InTurn(x.linkReq, queue)
    ensures XbarOk(p, y) && Same(x, y)
    ensures forall k :: 0 <= k < p.links && k !in queue ==> y.linkReq[k] == x.linkReq[k]
  {
    hide XbarOk, MoveRequest;
    OkShape(p, x);
    if queue == [] then x
    else
      TurnsLeft(x.linkReq, queue);
      var n := |queue| - 1;
      var y := MoveRequests(p, x, queue[..n]);
      OkShape(p, y);
      MoveRequestOk(p, y, queue[n]);
      MoveRequestFrame(p, y, queue[n]);
      OkShape(p, MoveRequest(p, y, queue[n]));
      MoveRequest(p, y, queue[n])
  }

  lemma OkShape(p: Params, x: Xbar)
    requires XbarOk(p, x)
    ensures Shape(p, x) && AgesOk(x.linkAge, x.linkReq) && AgesOk(x.quadAge, x.quadResp)
  {
    hide Count, CountAll;
  }

  lemma MoveRequestFrame(p: Params, x: Xbar, src: nat)
    requires Shape(p, x) && src < p.links && x.linkReq[src] != [] && x.linkReq[src][0].quad < QUADS
    ensures var y := MoveRequest(p, x, src);
      && Same(x, y) && |y.linkReq| == |x.linkReq|
      && forall k :: 0 <= k < p.links && k != src ==> y.linkReq[k] == x.linkReq[k]
  {
  }

  /** The responses of all quadrants in `queue` move or age. */
  ghost function MoveResponses(p: Params, x: Xbar, queue: seq<nat>): (y: Xbar)
    requires XbarOk(p, x) && InTurn(x.quadResp, queue)
    ensures XbarOk(p, y) && Same(x, y)
    ensures forall k :: 0 <= k < QUADS && k !in queue ==> y.quadResp[k] == x.quadResp[k]
  {
    hide XbarOk, MoveResponse;
    OkShape(p, x);
    if queue == [] then x
    else
      TurnsLeft(x.quadResp, queue);
      var n := |queue| - 1;
      var y := MoveResponses(p, x, queue[..n]);
      OkShape(p, y);
      MoveResponseOk(p, y, queue[n]);
      MoveResponseFrame(p, y, queue[n]);
      OkShape(p, MoveResponse(p, y, queue[n]));
      MoveResponse(p, y, queue[n])
  }

  lemma MoveResponseFrame(p: Params, x: Xbar, src: nat)
    requires Shape(p, x) && src < QUADS && x.quadResp[src] != [] && x.quadResp[src][0].link < p.links
    ensures var y := MoveResponse(p, x, src);
      && Same(x, y) && |y.quadResp| == |x.quadResp|
      && forall k :: 0 <= k < QUADS && k != src ==> y.quadResp[k] == x.quadResp[k]
  {
  }

  /** The first `n` links hand a response to the CPU. */
  ghost function ToCpus(p: Params, x: Xbar, n: nat): (y: Xbar)
    requires XbarOk(p, x) && n <= p.links
    ensures XbarOk(p, y) && SameButCalled(x, y)
  {
    hide XbarOk;
    OkShape(p, x);
    if n == 0 then x
    else
      var y := ToCpus(p, x, n - 1);
      OkShape(p, y);
      ToCpuOk(p, y, n - 1);
      ToCpu(p, y, n - 1)
  }

  /** Everyone with something to send gets a turn. */
  lemma TurnsOk<T>(ages: seq<int>, queues: seq<seq<T>>, clk: nat)
    requires AgesOk(ages, queues) && |ages| > 0
    ensures InTurn(queues, AgeQueue(ages, clk % |ages|, |ages|))
  {
    hide AgeQueue;
    EveryoneInTurn(ages, clk % |ages|);
    var queue := AgeQueue(ages, clk % |ages|, |ages|);
    assert forall i :: 0 <= i < |queue| ==> queue[i] in queue;
  }

  /** `DrainResponses` */
  ghost function DrainResponses(p: Params, x: Xbar): (y: Xbar)
    requires XbarOk(p, x)
    ensures XbarOk(p, y) && SameButCalled(x, y)
  {
    hide XbarOk, AgeQueue, ToCpus, MoveResponses;
    OkShape(p, x);
    var x1 := ToCpus(p, x, p.links);
    OkShape(p, x1);
    var x2 := x1.(linkBusy := Cool(x1.linkBusy));
    OkElsewhere(p, x1, x2);
    TurnsOk(x2.quadAge, x2.quadResp, x2.logicClk);
    MoveResponses(p, x2, AgeQueue(x2.quadAge, x2.logicClk % QUADS, QUADS))
  }

  /** The last part of `DrainRequests`. */
  ghost function CrossRequests(p: Params, x: Xbar): (y: Xbar)
    requires XbarOk(p, x)
    ensures XbarOk(p, y) && Same(x, y)
  {
    hide XbarOk, AgeQueue, MoveRequests;
    OkShape(p, x);
    var x1 := x.(quadBusy := Cool(x.quadBusy));
    OkElsewhere(p, x, x1);
    TurnsOk(x1.linkAge, x1.linkReq, x1.logicClk);
    MoveRequests(p, x1, AgeQueue(x1.linkAge, x1.logicClk % p.links, p.links))
  }

  // ---- with the vaults ----------------------------------------------------------------------------------------

  /** What is at the vaults is what they owe. */
  ghost predicate Matched(x: Xbar, vs: seq<Ctrl>) {
    forall a: int :: x.atVaults[a] == AllOwed(vs, a)
  }

  ghost predicate AllGood(c: Config, vs: seq<Ctrl>) {
    forall v :: 0 <= v < |vs| ==> Good(c, vs[v])
  }

  predicate AllAt(vs: seq<Ctrl>, clk: int) {
    forall v :: 0 <= v < |vs| ==> vs[v].clk == clk
  }

  ghost predicate CubeOk(c: Config, p: Params, x: Xbar, vs: seq<Ctrl>, clk: int) {
    |vs| == p.vaults && XbarOk(p, x) && AllGood(c, vs) && AllAt(vs, clk) && Matched(x, vs)
  }

  /** The head of quadrant `q` can go to its vault now. */
  predicate CanFeed(c: Config, p: Params, x: Xbar, vs: seq<Ctrl>, q: nat)
    requires Shape(p, x) && q < QUADS
  {
    && x.quadReq[q] != [] && |x.quadResp[q]| < p.depth && x.quadReq[q][0].exitTime <= x.logicClk
    && x.quadReq[q][0].vault < |vs| && WillAcceptTransaction(c, vs[x.quadReq[q][0].vault], x.quadReq[q][0].isWrite)
  }

  function FeedVault(c: Config, vs: seq<Ctrl>, req: Request): seq<Ctrl>
    requires req.vault < |vs|
  {
    vs[req.vault := AddTransaction(c, vs[req.vault], req.addr, req.isWrite, req.data)]
  }

  lemma FeedOk(c: Config, p: Params, x: Xbar, vs: seq<Ctrl>, clk: int, q: nat)
    requires CubeOk(c, p, x, vs, clk) && q < QUADS && CanFeed(c, p, x, vs, q)
    ensures CubeOk(c, p, ToVault(p, x, q), FeedVault(c, vs, x.quadReq[q][0]), clk)
  {
    hide Good, AddTransaction, Owed, AllOwed, Count, CountAll;
    var req := x.quadReq[q][0];
    var v := req.vault;
    var y, ws := ToVault(p, x, q), FeedVault(c, vs, req);
    ToVaultOk(p, x, q);
    GoodAccept(c, vs[v], req.addr, req.isWrite, req.data);
    AcceptKeeps(c, vs[v], req.addr, req.isWrite, req.data);
    forall a: int ensures y.atVaults[a] == AllOwed(ws, a) {
      AllOwedUpdate(vs, v, ws[v], a);
      OwedAccept(c, vs[v], req.addr, req.isWrite, req.data, a);
    }
  }

  /** The first `n` quadrants feed their vaults. */
  ghost function Feed(c: Config, p: Params, x: Xbar, vs: seq<Ctrl>, clk: int, n: nat): (r: (Xbar, seq<Ctrl>))
    requires CubeOk(c, p, x, vs, clk) && n <= QUADS
    ensures CubeOk(c, p, r.0, r.1, clk) && SameRecord(x, r.0)
  {
    hide XbarOk, Good, Matched, AddTransaction, WillAcceptTransaction;
    if n == 0 then (x, vs)
    else
      var (y, ws) := Feed(c, p, x, vs, clk, n - 1);
      OkShape(p, y);
      if CanFeed(c, p, y, ws, n - 1) then
        FeedOk(c, p, y, ws, clk, n - 1);
        (ToVault(p, y, n - 1), FeedVault(c, ws, y.quadReq[n - 1][0]))
      else (y, ws)
  }

  /** `DrainRequests` */
  ghost function DrainRequests(c: Config, p: Params, x: Xbar, vs: seq<Ctrl>, clk: int): (r: (Xbar, seq<Ctrl>))
    requires CubeOk(c, p, x, vs, clk)
    ensures CubeOk(c, p, r.0, r.1, clk) && SameRecord(x, r.0)
  {
    hide XbarOk, Good, Feed, CrossRequests, AllOwed;
    var (y, ws) := Feed(c, p, x, vs, clk, QUADS);
    (CrossRequests(p, y), ws)
  }

  // ---- a memory cycle -------------------------------------------------------------------------------------------

  /** Everything in `due` is at the vaults. */
  ghost predicate Covered(x: Xbar, due: seq<Transaction>) {
    forall a: int :: Count(due, AddrOf, a) <= x.atVaults[a]
  }

  /** `y` is `x` with everything in `due` answered. */
  ghost predicate Repaid(x: Xbar, due: seq<Transaction>, y: Xbar) {
    SameRecord(x, y) && forall a: int :: y.atVaults[a] == x.atVaults[a] - Count(due, AddrOf, a)
  }

  lemma CoveredPrefix(x: Xbar, due: seq<Transaction>)
    requires Covered(x, due) && due != []
    ensures var n := |due| - 1; Covered(x, due[..n]) && x.atVaults[due[n].addr] > Count(due[..n], AddrOf, due[n].addr)
  {
    var n := |due| - 1;
    forall a: int ensures Count(due[..n], AddrOf, a) <= x.atVaults[a] {
      assert Count(due, AddrOf, a) <= x.atVaults[a];
    }
    assert Count(due, AddrOf, due[n].addr) <= x.atVaults[due[n].addr];
  }

  lemma RepaidNext(p: Params, x: Xbar, due: seq<Transaction>, y: Xbar)
    requires XbarOk(p, y) && due != [] && Covered(x, due) && Repaid(x, due[..|due| - 1], y)
    ensures Shape(p, y) && XbarOk(p, Reply(p, y, due[|due| - 1].addr))
    ensures Repaid(x, due, Reply(p, y, due[|due| - 1].addr))
  {
    hide XbarOk, Reply, Covered;
    CoveredPrefix(x, due);
    OkShape(p, y);
    ReplyOk(p, y, due[|due| - 1].addr);
    ReplyFrame(p, y, due[|due| - 1].addr);
  }

  /** The callbacks for `due`, in order. */
  function Replies(p: Params, x: Xbar, due: seq<Transaction>): (y: Xbar)
    requires Shape(p, x)
    ensures Shape(p, y)
    decreases |due|
  {
    if due == [] then x else Reply(p, Replies(p, x, due[..|due| - 1]), due[|due| - 1].addr)
  }

  lemma {:induction false} RepliesOk(p: Params, x: Xbar, due: seq<Transaction>)
    requires Shape(p, x) && XbarOk(p, x) && Covered(x, due)
    ensures XbarOk(p, Replies(p, x, due)) && Repaid(x, due, Replies(p, x, due))
    decreases |due|
  {
    hide XbarOk, Reply, Covered;
    if due != [] {
      CoveredPrefix(x, due);
      RepliesOk(p, x, due[..|due| - 1]);
      RepaidNext(p, x, due, Replies(p, x, due[..|due| - 1]));
    }
  }

  lemma ReplyFrame(p: Params, x: Xbar, addr: int)
    requires Shape(p, x)
    ensures Shape(p, Reply(p, x, addr))
    ensures SameRecord(x, Reply(p, x, addr))
  {
  }

  /** The controllers once the first `n` have called back. */
  function Returned(vs: seq<Ctrl>, clk: int, n: nat): (ws: seq<Ctrl>)
    requires n <= |vs|
    ensures |ws| == |vs|
    ensures forall v :: 0 <= v < |vs| ==> ws[v] == if v < n then ReturnDone(vs[v], clk) else vs[v]
  {
    seq(|vs|, v requires 0 <= v < |vs| => if v < n then ReturnDone(vs[v], clk) else vs[v])
  }

  lemma ReturnedNext(vs: seq<Ctrl>, clk: int, n: nat)
    requires n < |vs|
    ensures Returned(vs, clk, n + 1) == Returned(vs, clk, n)[n := ReturnDone(vs[n], clk)]
  {
  }

  /** What vault `n` calls back is still owed. */
  lemma DueIsOwed(x: Xbar, vs: seq<Ctrl>, clk: int, n: nat, a: int)
    requires n < |vs| && Matched(x, Returned(vs, clk, n))
    ensures x.atVaults[a] - Count(Due(vs[n].returnQ, clk), AddrOf, a) == AllOwed(Returned(vs, clk, n + 1), a)
  {
    hide Owed, AllOwed, Count, Due, ReturnDone, Returned;
    ReturnedNext(vs, clk, n);
    AllOwedUpdate(Returned(vs, clk, n), n, ReturnDone(vs[n], clk), a);
    OwedReturn(vs[n], clk, a);
  }

  lemma DueIsCovered(x: Xbar, vs: seq<Ctrl>, clk: int, n: nat)
    requires n < |vs| && Matched(x, Returned(vs, clk, n))
    ensures Covered(x, Due(vs[n].returnQ, clk))
  {
    hide AllOwed, Count, Due, Returned, Matched;
    forall a: int ensures Count(Due(vs[n].returnQ, clk), AddrOf, a) <= x.atVaults[a] {
      DueIsOwed(x, vs, clk, n, a);
    }
  }

  lemma RepaidMatches(x: Xbar, y: Xbar, vs: seq<Ctrl>, clk: int, n: nat)
    requires n < |vs| && Matched(x, Returned(vs, clk, n)) && Repaid(x, Due(vs[n].returnQ, clk), y)
    ensures Matched(y, Returned(vs, clk, n + 1))
  {
    hide AllOwed, Count, Due, Returned;
    forall a: int ensures y.atVaults[a] == AllOwed(Returned(vs, clk, n + 1), a) {
      DueIsOwed(x, vs, clk, n, a);
    }
  }

  lemma NoneReturned(vs: seq<Ctrl>, clk: int)
    ensures Returned(vs, clk, 0) == vs
  {
  }

  /** The callbacks of the first `n` vaults. */
  function RepliesAll(p: Params, x: Xbar, vs: seq<Ctrl>, clk: int, n: nat): (y: Xbar)
    requires Shape(p, x) && n <= |vs|
    ensures Shape(p, y)
  {
    if n == 0 then x else Replies(p, RepliesAll(p, x, vs, clk, n - 1), Due(vs[n - 1].returnQ, clk))
  }

  lemma {:induction false} RepliesAllOk(p: Params, x: Xbar, vs: seq<Ctrl>, clk: int, n: nat)
    requires Shape(p, x) && XbarOk(p, x) && Matched(x, vs) && n <= |vs|
    ensures var y := RepliesAll(p, x, vs, clk, n);
      XbarOk(p, y) && Matched(y, Returned(vs, clk, n)) && SameRecord(x, y)
  {
    hide XbarOk, Matched, Replies, Returned, Due, Covered;
    if n == 0 {
      NoneReturned(vs, clk);
    } else {
      RepliesAllOk(p, x, vs, clk, n - 1);
      var y := RepliesAll(p, x, vs, clk, n - 1);
      DueIsCovered(y, vs, clk, n - 1);
      RepliesOk(p, y, Due(vs[n - 1].returnQ, clk));
      RepaidMatches(y, RepliesAll(p, x, vs, clk, n), vs, clk, n - 1);
    }
  }

  /** One controller after a memory cycle. */
  ghost function CycleOf(c: Config, s: Ctrl): (r: Ctrl)
    requires Good(c, s)
    ensures Good(c, r)
  {
    hide Good, Steppable, Step;
    GoodCycle(c, s);
    Step(c, s, Cycle).value
  }

  /** The controllers after a memory cycle. */
  ghost function Cycled(c: Config, vs: seq<Ctrl>): (ws: seq<Ctrl>)
    requires AllGood(c, vs)
    ensures |ws| == |vs| && AllGood(c, ws)
  {
    hide Good, CycleOf;
    seq(|vs|, v requires 0 <= v < |vs| => CycleOf(c, vs[v]))
  }

  lemma CycledOwes(c: Config, vs: seq<Ctrl>, clk: int, a: int)
    requires AllGood(c, vs) && AllAt(vs, clk)
    ensures AllOwed(Cycled(c, vs), a) == AllOwed(Returned(vs, clk, |vs|), a)
  {
    hide Good, Owed, AllOwed, ReturnDone, CycleOf;
    var ws, rs := Cycled(c, vs), Returned(vs, clk, |vs|);
    forall v | 0 <= v < |vs| ensures Owed(ws[v], a) == Owed(rs[v], a) {
      CycleOwes(c, vs[v], a);
    }
    AllOwedSame(rs, ws, a);
  }

  lemma CycleOwes(c: Config, s: Ctrl, a: int)
    requires Good(c, s)
    ensures Owed(CycleOf(c, s), a) == Owed(ReturnDone(s, s.clk), a)
  {
    hide Sound, Owed, Tick, ReturnDone;
    GoodCycle(c, s);
    SoundReturn(c, s);
    ReturnFrame(s, s.clk);
    OwedTick(c, ReturnDone(s, s.clk), a);
  }

  /** `DRAMClockTick`: every vault calls back what is due and then ticks. */
  ghost function MemoryCycle(c: Config, p: Params, x: Xbar, vs: seq<Ctrl>, clk: int): (r: (Xbar, seq<Ctrl>))
    requires CubeOk(c, p, x, vs, clk)
    ensures CubeOk(c, p, r.0, r.1, clk + 1) && SameRecord(x, r.0)
  {
    hide XbarOk, Good, RepliesAll, AllOwed, Cycled, Returned;
    OkShape(p, x);
    RepliesAllOk(p, x, vs, clk, |vs|);
    var y := RepliesAll(p, x, vs, clk, |vs|);
    assert forall a: int :: AllOwed(Cycled(c, vs), a) == AllOwed(Returned(vs, clk, |vs|), a) by {
      forall a: int { CycledOwes(c, vs, clk, a); }
    }
    CycledAt(c, vs, clk);
    (y, Cycled(c, vs))
  }

  lemma CycledAt(c: Config, vs: seq<Ctrl>, clk: int)
    requires AllGood(c, vs) && AllAt(vs, clk)
    ensures AllAt(Cycled(c, vs), clk + 1)
  {
    hide Good, CycleOf;
    forall v | 0 <= v < |vs| ensures Cycled(c, vs)[v].clk == clk + 1 {
      CycleAt(c, vs[v]);
    }
  }

  lemma CycleAt(c: Config, s: Ctrl)
    requires Good(c, s)
    ensures CycleOf(c, s).clk == s.clk + 1
  {
    hide Good, Steppable, Step;
    GoodCycle(c, s);
  }
}

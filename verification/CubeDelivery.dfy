/** Every vault gets the requests that were inserted for it: the same addresses, the same kinds and the same data,
    no more and no fewer. */
module CubeDelivery {
  import opened DramTypes
  import opened Counting
  import opened DramConfig
  import opened Scheduler
  import opened Turns
  import opened Steps
  import opened Ordering
  import opened Memory
  import opened Delivery
  import opened RowUse
  import opened Runs
  import opened Outstanding
  import opened Crossbar
  import opened Cube
  import opened CubeSystem

  datatype Job = Job(addr: int, isWrite: bool, data: int)

  datatype Order = Order(vault: nat, job: Job)

  function JobOf(a: Accepted): Job {
    Job(a.addr, a.isWrite, a.data)
  }

  function OrderOf(r: Request): Order {
    Order(r.vault, Job(r.addr, r.isWrite, r.data))
  }

  /** For every vault and job: taken by the vault, in a quadrant or on a link is inserted. */
  ghost predicate AllDelivered(x: Xbar, vs: seq<Ctrl>) {
    forall v: nat, j: Job :: v < |vs| ==>
      Count(vs[v].rec.accepted, JobOf, j) + CountAll(x.linkReq, OrderOf, Order(v, j))
        + CountAll(x.quadReq, OrderOf, Order(v, j))
      == Count(x.inserted, OrderOf, Order(v, j))
  }

  // ---- steps that move no request ---------------------------------------------------------------------------------

  predicate SameRequests(x: Xbar, y: Xbar) {
    y.linkReq == x.linkReq && y.quadReq == x.quadReq && y.inserted == x.inserted
  }

  ghost predicate SameAccepted(vs: seq<Ctrl>, ws: seq<Ctrl>) {
    |ws| == |vs| && forall v :: 0 <= v < |vs| ==> ws[v].rec.accepted == vs[v].rec.accepted
  }

  lemma DeliveredElsewhere(x: Xbar, vs: seq<Ctrl>, y: Xbar, ws: seq<Ctrl>)
    requires AllDelivered(x, vs) && SameRequests(x, y) && SameAccepted(vs, ws)
    ensures AllDelivered(y, ws)
  {
    hide Count, CountAll;
    forall v: nat, j: Job | v < |ws|
      ensures Count(ws[v].rec.accepted, JobOf, j) + CountAll(y.linkReq, OrderOf, Order(v, j))
        + CountAll(y.quadReq, OrderOf, Order(v, j)) == Count(y.inserted, OrderOf, Order(v, j))
    {
      assert Count(vs[v].rec.accepted, JobOf, j) + CountAll(x.linkReq, OrderOf, Order(v, j))
        + CountAll(x.quadReq, OrderOf, Order(v, j)) == Count(x.inserted, OrderOf, Order(v, j));
    }
  }

  lemma {:induction false} MoveResponsesKeep(p: Params, x: Xbar, queue: seq<nat>)
    requires XbarOk(p, x) && InTurn(x.quadResp, queue)
    ensures SameRequests(x, MoveResponses(p, x, queue))
  {
    hide XbarOk;
    if queue != [] {
      TurnsLeft(x.quadResp, queue);
      MoveResponsesKeep(p, x, queue[..|queue| - 1]);
    }
  }

  lemma {:induction false} ToCpusKeep(p: Params, x: Xbar, n: nat)
    requires XbarOk(p, x) && n <= p.links
    ensures SameRequests(x, ToCpus(p, x, n))
  {
    hide XbarOk;
    if n > 0 {
      ToCpusKeep(p, x, n - 1);
    }
  }

  lemma DrainResponsesKeeps(p: Params, x: Xbar)
    requires XbarOk(p, x)
    ensures SameRequests(x, DrainResponses(p, x))
  {
    hide XbarOk, AgeQueue, ToCpus, MoveResponses;
    OkShape(p, x);
    var x1 := ToCpus(p, x, p.links);
    ToCpusKeep(p, x, p.links);
    OkShape(p, x1);
    var x2 := x1.(linkBusy := Cool(x1.linkBusy));
    OkElsewhere(p, x1, x2);
    TurnsOk(x2.quadAge, x2.quadResp, x2.logicClk);
    MoveResponsesKeep(p, x2, AgeQueue(x2.quadAge, x2.logicClk % QUADS, QUADS));
  }

  lemma {:induction false} RepliesKeep(p: Params, x: Xbar, due: seq<Transaction>)
    requires Shape(p, x)
    ensures SameRequests(x, Replies(p, x, due))
    decreases |due|
  {
    if due != [] {
      RepliesKeep(p, x, due[..|due| - 1]);
    }
  }

  lemma {:induction false} RepliesAllKeep(p: Params, x: Xbar, vs: seq<Ctrl>, clk: int, n: nat)
    requires Shape(p, x) && n <= |vs|
    ensures SameRequests(x, RepliesAll(p, x, vs, clk, n))
  {
    hide Replies, Due;
    if n > 0 {
      RepliesAllKeep(p, x, vs, clk, n - 1);
      RepliesKeep(p, RepliesAll(p, x, vs, clk, n - 1), Due(vs[n - 1].returnQ, clk));
    }
  }

  /** A memory cycle takes no new transaction. */
  lemma CycleAccepts(c: Config, s: Ctrl)
    requires Good(c, s)
    ensures CycleOf(c, s).rec.accepted == s.rec.accepted
  {
    hide Sound, RefreshTick, Dispatch, ScheduleTransaction, ReturnDone;
    GoodCycle(c, s);
    var s0 := ReturnDone(s, s.clk);
    SoundReturn(c, s);
    ReturnFrame(s, s.clk);
    ReturnAccepts(s, s.clk);
    var s1 := RefreshTick(c, s0);
    SoundRefresh(c, s0, s.clk + 1);
    RefreshFrame(c, s0);
    RefreshAccepts(c, s0);
    SoundDispatch(c, s1);
    DispatchAccepts(c, s1, s.clk + 1);
    var s2 := Dispatch(c, s1).value;
    SoundSchedule(c, s2, s.clk + 1);
    ScheduleFrame(c, s2);
  }

  lemma ReturnAccepts(s: Ctrl, clk: int)
    ensures ReturnDone(s, clk).rec.accepted == s.rec.accepted
  {
  }

  lemma RefreshAccepts(c: Config, s: Ctrl)
    requires c.Valid()
    ensures RefreshTick(c, s).rec == s.rec
  {
  }

  lemma DispatchAccepts(c: Config, s: Ctrl, bound: int)
    requires Sound(c, s, bound) && IssuedBefore(s.log, s.clk)
    ensures Steppable(c, s) && Dispatch(c, s).Ok? && Dispatch(c, s).value.rec.accepted == s.rec.accepted
  {
    hide Core, Ordered, Faithful, Conserved, Punctual, RowsWanted, InSync, PolicyKept, Dispatch, IsTurn, IsEntry;
    CoreIsSteppable(c, s);
    var turn, from := DispatchTurn(c, s);
    TurnWrites(c, s, turn, Dispatch(c, s).value);
  }

  lemma CycledAccepts(c: Config, vs: seq<Ctrl>)
    requires AllGood(c, vs)
    ensures SameAccepted(vs, Cycled(c, vs))
  {
    hide Good, CycleOf;
    forall v | 0 <= v < |vs| ensures Cycled(c, vs)[v].rec.accepted == vs[v].rec.accepted {
      CycleAccepts(c, vs[v]);
    }
  }

  lemma MemoryCycleDelivers(c: Config, p: Params, x: Xbar, vs: seq<Ctrl>, clk: int)
    requires CubeOk(c, p, x, vs, clk) && AllDelivered(x, vs)
    ensures var (y, ws) := MemoryCycle(c, p, x, vs, clk); AllDelivered(y, ws)
  {
    hide XbarOk, Good, RepliesAll, AllOwed, Cycled, Returned, AllDelivered;
    OkShape(p, x);
    RepliesAllKeep(p, x, vs, clk, |vs|);
    CycledAccepts(c, vs);
    DeliveredElsewhere(x, vs, RepliesAll(p, x, vs, clk, |vs|), Cycled(c, vs));
  }

  // ---- steps that move one ----------------------------------------------------------------------------------------

  lemma InsertAtDelivers(p: Params, x: Xbar, vs: seq<Ctrl>, req: Request, link: nat)
    requires Shape(p, x) && link < p.links && AllDelivered(x, vs)
    ensures AllDelivered(InsertAt(p, x, req, link), vs)
  {
    hide Count, CountAll;
    var y, taken := InsertAt(p, x, req, link), req.(link := link);
    forall v: nat, j: Job | v < |vs|
      ensures Count(vs[v].rec.accepted, JobOf, j) + CountAll(y.linkReq, OrderOf, Order(v, j))
        + CountAll(y.quadReq, OrderOf, Order(v, j)) == Count(y.inserted, OrderOf, Order(v, j))
    {
      var k := Order(v, j);
      assert Count(vs[v].rec.accepted, JobOf, j) + CountAll(x.linkReq, OrderOf, k) + CountAll(x.quadReq, OrderOf, k)
        == Count(x.inserted, OrderOf, k);
      CountSnoc(x.inserted, taken, OrderOf, k);
      CountAllUpdate(x.linkReq, link, y.linkReq[link], OrderOf, k);
      CountSnoc(x.linkReq[link], taken, OrderOf, k);
    }
  }

  lemma InsertDelivers(p: Params, x: Xbar, vs: seq<Ctrl>, req: Request)
    requires Shape(p, x) && AllDelivered(x, vs)
    ensures AllDelivered(Insert(p, x, req), vs)
  {
    hide AllDelivered, InsertAt;
    match FirstRoom(p, x, 0)
    case None =>
    case Some(link) =>
      InsertAtDelivers(p, x, vs, req, link);
      DeliveredElsewhere(InsertAt(p, x, req, link), vs, Insert(p, x, req), vs);
  }

  lemma MoveRequestDelivers(p: Params, x: Xbar, vs: seq<Ctrl>, src: nat)
    requires Shape(p, x) && src < p.links && x.linkReq[src] != [] && x.linkReq[src][0].quad < QUADS
    requires AllDelivered(x, vs)
    ensures AllDelivered(MoveRequest(p, x, src), vs)
  {
    hide Count, CountAll;
    var y, req := MoveRequest(p, x, src), x.linkReq[src][0];
    var d := req.quad;
    forall v: nat, j: Job | v < |vs|
      ensures Count(vs[v].rec.accepted, JobOf, j) + CountAll(y.linkReq, OrderOf, Order(v, j))
        + CountAll(y.quadReq, OrderOf, Order(v, j)) == Count(y.inserted, OrderOf, Order(v, j))
    {
      var k := Order(v, j);
      assert Count(vs[v].rec.accepted, JobOf, j) + CountAll(x.linkReq, OrderOf, k) + CountAll(x.quadReq, OrderOf, k)
        == Count(x.inserted, OrderOf, k);
      CountAllUpdate(x.linkReq, src, y.linkReq[src], OrderOf, k);
      CountCons(x.linkReq[src], OrderOf, k);
      CountAllUpdate(x.quadReq, d, y.quadReq[d], OrderOf, k);
      CountSnoc(x.quadReq[d], req.(exitTime := x.logicClk + req.flits), OrderOf, k);
    }
  }

  lemma {:induction false} MoveRequestsDeliver(p: Params, x: Xbar, vs: seq<Ctrl>, queue: seq<nat>)
    requires XbarOk(p, x) && InTurn(x.linkReq, queue) && AllDelivered(x, vs)
    ensures AllDelivered(MoveRequests(p, x, queue), vs)
  {
    hide XbarOk, MoveRequest, AllDelivered;
    if queue != [] {
      OkShape(p, x);
      TurnsLeft(x.linkReq, queue);
      var n := |queue| - 1;
      MoveRequestsDeliver(p, x, vs, queue[..n]);
      var y := MoveRequests(p, x, queue[..n]);
      OkShape(p, y);
      MoveRequestOk(p, y, queue[n]);
      MoveRequestDelivers(p, y, vs, queue[n]);
    }
  }

  lemma CrossRequestsDelivers(p: Params, x: Xbar, vs: seq<Ctrl>)
    requires XbarOk(p, x) && AllDelivered(x, vs)
    ensures AllDelivered(CrossRequests(p, x), vs)
  {
    hide XbarOk, AgeQueue, MoveRequests, AllDelivered;
    OkShape(p, x);
    var x1 := x.(quadBusy := Cool(x.quadBusy));
    OkElsewhere(p, x, x1);
    TurnsOk(x1.linkAge, x1.linkReq, x1.logicClk);
    DeliveredElsewhere(x, vs, x1, vs);
    MoveRequestsDeliver(p, x1, vs, AgeQueue(x1.linkAge, x1.logicClk % p.links, p.links));
  }

  lemma HandOver(c: Config, p: Params, x: Xbar, vs: seq<Ctrl>, q: nat)
    requires Shape(p, x) && q < QUADS && x.quadReq[q] != [] && x.quadReq[q][0].vault < |vs| && AllDelivered(x, vs)
    ensures AllDelivered(ToVault(p, x, q), FeedVault(c, vs, x.quadReq[q][0]))
  {
    hide Count, CountAll, AddTransaction;
    var req := x.quadReq[q][0];
    var y, ws := ToVault(p, x, q), FeedVault(c, vs, req);
    AcceptRecords(c, vs[req.vault], req.addr, req.isWrite, req.data);
    forall v: nat, j: Job | v < |ws|
      ensures Count(ws[v].rec.accepted, JobOf, j) + CountAll(y.linkReq, OrderOf, Order(v, j))
        + CountAll(y.quadReq, OrderOf, Order(v, j)) == Count(y.inserted, OrderOf, Order(v, j))
    {
      var k := Order(v, j);
      assert Count(vs[v].rec.accepted, JobOf, j) + CountAll(x.linkReq, OrderOf, k) + CountAll(x.quadReq, OrderOf, k)
        == Count(x.inserted, OrderOf, k);
      CountAllUpdate(x.quadReq, q, y.quadReq[q], OrderOf, k);
      CountCons(x.quadReq[q], OrderOf, k);
      CountSnoc(vs[req.vault].rec.accepted, Accepted(req.addr, req.isWrite, vs[req.vault].clk, req.data), JobOf, j);
    }
  }

  lemma AcceptRecords(c: Config, s: Ctrl, addr: nat, isWrite: bool, data: int)
    ensures AddTransaction(c, s, addr, isWrite, data).rec.accepted ==
      s.rec.accepted + [Accepted(addr, isWrite, s.clk, data)]
  {
  }

  lemma {:induction false} FeedDelivers(c: Config, p: Params, x: Xbar, vs: seq<Ctrl>, clk: int, n: nat)
    requires CubeOk(c, p, x, vs, clk) && n <= QUADS && AllDelivered(x, vs)
    ensures var (y, ws) := Feed(c, p, x, vs, clk, n); AllDelivered(y, ws)
  {
    hide XbarOk, Good, Matched, AddTransaction, WillAcceptTransaction, AllDelivered, ToVault, FeedVault;
    if n > 0 {
      FeedDelivers(c, p, x, vs, clk, n - 1);
      var (y, ws) := Feed(c, p, x, vs, clk, n - 1);
      OkShape(p, y);
      if CanFeed(c, p, y, ws, n - 1) {
        HandOver(c, p, y, ws, n - 1);
      }
    }
  }

  lemma DrainRequestsDelivers(c: Config, p: Params, x: Xbar, vs: seq<Ctrl>, clk: int)
    requires CubeOk(c, p, x, vs, clk) && AllDelivered(x, vs)
    ensures var (y, ws) := DrainRequests(c, p, x, vs, clk); AllDelivered(y, ws)
  {
    hide XbarOk, Good, Feed, CrossRequests, AllOwed, AllDelivered;
    FeedDelivers(c, p, x, vs, clk, QUADS);
    var (y, ws) := Feed(c, p, x, vs, clk, QUADS);
    CrossRequestsDelivers(p, y, ws);
  }

  // ---- every run --------------------------------------------------------------------------------------------------

  ghost predicate Delivers(s: System) {
    AllDelivered(s.x, s.vs)
  }

  lemma RespondingDelivers(c: Config, p: Params, s: System)
    requires SystemOk(c, p, s) && Delivers(s)
    ensures Delivers(Responding(c, p, s))
  {
    hide XbarOk, Good, AllOwed, DrainResponses, AllDelivered;
    DrainResponsesKeeps(p, s.x);
    DeliveredElsewhere(s.x, s.vs, DrainResponses(p, s.x), s.vs);
  }

  lemma RequestingDelivers(c: Config, p: Params, s: System)
    requires SystemOk(c, p, s) && Delivers(s)
    ensures Delivers(Requesting(c, p, s))
  {
    hide XbarOk, Good, AllOwed, DrainRequests, AllDelivered;
    DrainRequestsDelivers(c, p, s.x, s.vs, s.clk);
  }

  lemma DramCycleDelivers(c: Config, p: Params, s: System)
    requires SystemOk(c, p, s) && Delivers(s)
    ensures Delivers(DramCycle(c, p, s))
  {
    hide XbarOk, Good, AllOwed, MemoryCycle, AllDelivered;
    MemoryCycleDelivers(c, p, s.x, s.vs, s.clk);
  }

  lemma AdvanceDelivers(k: Clocks, s: System)
    requires Delivers(s)
    ensures Delivers(LogicAdvance(k, s))
  {
    hide AllDelivered;
    DeliveredElsewhere(s.x, s.vs, LogicAdvance(k, s).x, s.vs);
  }

  lemma LogicCycleDelivers(c: Config, p: Params, k: Clocks, s: System)
    requires SystemOk(c, p, s) && Delivers(s)
    ensures Delivers(LogicCycle(c, p, k, s))
  {
    hide SystemOk, Responding, Requesting, Delivers, LogicAdvance;
    RespondingDelivers(c, p, s);
    RequestingDelivers(c, p, Responding(c, p, s));
    AdvanceDelivers(k, Requesting(c, p, Responding(c, p, s)));
  }

  lemma FirstCycleDelivers(c: Config, p: Params, k: Clocks, s: System)
    requires SystemOk(c, p, s) && Delivers(s)
    ensures Delivers(FirstCycle(c, p, k, s))
  {
    hide SystemOk, Responding, Requesting, DramCycle, Delivers, LogicAdvance;
    if s.dramPs == s.logicPs {
      var s1 := Responding(c, p, s);
      RespondingDelivers(c, p, s);
      var s2 := DramCycle(c, p, s1);
      DramCycleDelivers(c, p, s1);
      RequestingDelivers(c, p, s2);
      AdvanceDelivers(k, Requesting(c, p, s2));
    } else {
      DramCycleDelivers(c, p, s);
    }
  }

  lemma {:induction false} CatchUpDelivers(c: Config, p: Params, k: Clocks, s: System)
    requires k.Valid() && SystemOk(c, p, s) && Delivers(s)
    ensures Delivers(CatchUp(c, p, k, s))
    decreases s.dramPs + k.perDram - s.logicPs
  {
    hide SystemOk, LogicCycle, Delivers;
    if s.logicPs < s.dramPs + k.perDram {
      LogicCycleDelivers(c, p, k, s);
      CatchUpDelivers(c, p, k, LogicCycle(c, p, k, s));
    }
  }

  lemma ClockTickDelivers(c: Config, p: Params, k: Clocks, s: System)
    requires k.Valid() && SystemOk(c, p, s) && Delivers(s)
    ensures Delivers(ClockTick(c, p, k, s))
  {
    hide SystemOk, CatchUp, FirstCycle, AllDelivered;
    FirstCycleDelivers(c, p, k, s);
    CatchUpDelivers(c, p, k, FirstCycle(c, p, k, s));
  }

  lemma StartDelivers(c: Config, p: Params)
    requires p.links > 0
    ensures Delivers(Start(c, p))
  {
    hide CountAll;
    var s := Start(c, p);
    forall v: nat, j: Job | v < |s.vs|
      ensures Count(s.vs[v].rec.accepted, JobOf, j) + CountAll(s.x.linkReq, OrderOf, Order(v, j))
        + CountAll(s.x.quadReq, OrderOf, Order(v, j)) == Count(s.x.inserted, OrderOf, Order(v, j))
    {
      CountAllNone(p.links, OrderOf, Order(v, j));
      CountAllNone(QUADS, OrderOf, Order(v, j));
    }
  }

  lemma {:induction false} AlwaysDelivers(c: Config, p: Params, k: Clocks, es: seq<CubeSystem.Event>)
    requires c.Valid() && p.links > 0 && k.Valid()
    ensures Delivers(After(c, p, k, es))
  {
    hide SystemOk, ClockTick, Insert, Delivers;
    if es == [] {
      StartDelivers(c, p);
    } else {
      var s := After(c, p, k, es[..|es| - 1]);
      AlwaysDelivers(c, p, k, es[..|es| - 1]);
      match es[|es| - 1]
      case Arrive(req) =>
        ShapeOf(c, p, s);
        ArriveDelivers(p, s, req);
      case Advance => ClockTickDelivers(c, p, k, s);
    }
  }

  lemma ArriveDelivers(p: Params, s: System, req: Request)
    requires Shape(p, s.x) && Delivers(s)
    ensures Delivers(s.(x := Insert(p, s.x, req)))
  {
    hide AllDelivered, Insert;
    InsertDelivers(p, s.x, s.vs, req);
  }

  /** In every run: what a vault has taken of a job is what was inserted for it and is no longer under way. */
  lemma VaultsGetTheirRequests(c: Config, p: Params, k: Clocks, es: seq<CubeSystem.Event>, v: nat, j: Job)
    requires c.Valid() && p.links > 0 && k.Valid() && v < |After(c, p, k, es).vs|
    ensures var s := After(c, p, k, es);
      Count(s.vs[v].rec.accepted, JobOf, j) ==
        Count(s.x.inserted, OrderOf, Order(v, j))
        - CountAll(s.x.linkReq, OrderOf, Order(v, j)) - CountAll(s.x.quadReq, OrderOf, Order(v, j))
  {
    hide After, Count, CountAll, SystemOk;
    AlwaysDelivers(c, p, k, es);
    var s := After(c, p, k, es);
    assert Count(s.vs[v].rec.accepted, JobOf, j) + CountAll(s.x.linkReq, OrderOf, Order(v, j))
      + CountAll(s.x.quadReq, OrderOf, Order(v, j)) == Count(s.x.inserted, OrderOf, Order(v, j));
  }

  /** And a read that a vault called back saw the last write of its address that the vault had taken before it. */
  lemma VaultReadsSeeLastWrite(c: Config, p: Params, k: Clocks, es: seq<CubeSystem.Event>, v: nat, i: nat)
    requires c.Valid() && p.links > 0 && k.Valid() && v < |After(c, p, k, es).vs|
    requires i < |After(c, p, k, es).vs[v].rec.returned| && !After(c, p, k, es).vs[v].rec.returned[i].trans.isWrite
    ensures var rec := After(c, p, k, es).vs[v].rec; var t := rec.returned[i].trans;
      Matches(rec, t) && t.id in rec.got && rec.got[t.id] == Atomic(rec.accepted[..t.id], t.addr)
  {
    hide After, Good, XbarOk, AllOwed, Atomic;
    var s := After(c, p, k, es);
    assert SystemOk(c, p, s);
    GoodAnswers(c, s.vs[v], i);
  }

  lemma GoodAnswers(c: Config, s: Ctrl, i: nat)
    requires Good(c, s) && i < |s.rec.returned|
    ensures Memory.Answered(s.rec, s.rec.returned[i].trans)
  {
    hide Core, Ordered, Conserved, Punctual, RowsWanted, InSync, PolicyKept, Coherent;
  }
}

/** The laws of the crossbar's traffic hold in every run of the memory cube. */
module CubeTrafficRuns {
  import opened DramTypes
  import opened Counting
  import opened DramConfig
  import opened Scheduler
  import opened Turns
  import opened Runs
  import opened Outstanding
  import opened Crossbar
  import opened Cube
  import opened CubeSystem
  import opened CubeDelivery
  import opened CubeTraffic

  // ---- one part of a logic cycle after the other ------------------------------------------------------------------

  lemma HeadOfLink(p: Params, x: Xbar, src: nat)
    requires XbarOk(p, x) && src < p.links && x.linkReq[src] != []
    ensures x.linkReq[src][0].link == src && x.linkReq[src][0].quad < QUADS
  {
    hide Count, CountAll;
    assert ReqOk(p, x.linkReq[src][0]) && FromLink(x.linkReq[src], src);
  }

  lemma HeadOfQuad(p: Params, x: Xbar, q: nat)
    requires XbarOk(p, x) && q < QUADS && x.quadReq[q] != []
    ensures x.quadReq[q][0].quad == q
  {
    hide Count, CountAll;
    assert ForQuad(x.quadReq[q], q);
  }

  lemma MoveRequestHands(p: Params, x: Xbar, src: nat)
    requires Shape(p, x) && src < p.links && x.linkReq[src] != [] && x.linkReq[src][0].quad < QUADS
    ensures HandedOf(MoveRequest(p, x, src).trace) == HandedOf(x.trace)
  {
    hide HandedOf;
    var req := x.linkReq[src][0];
    HandedSnoc(x.trace, Crossed(req.(exitTime := x.logicClk + req.flits), x.logicClk));
  }

  lemma {:induction false} MoveRequestsTraffic(p: Params, x: Xbar, queue: seq<nat>, b: int)
    requires XbarOk(p, x) && InTurn(x.linkReq, queue) && TrafficOk(p, x, 0, b)
    ensures var y := MoveRequests(p, x, queue); TrafficOk(p, y, 0, b) && HandedOf(y.trace) == HandedOf(x.trace)
  {
    hide XbarOk, MoveRequest, TrafficOk, HandedOf;
    if queue != [] {
      OkShape(p, x);
      TurnsLeft(x.linkReq, queue);
      var n := |queue| - 1;
      MoveRequestsTraffic(p, x, queue[..n], b);
      var y := MoveRequests(p, x, queue[..n]);
      OkShape(p, y);
      HeadOfLink(p, y, queue[n]);
      MoveRequestTraffic(p, y, queue[n], b);
      MoveRequestHands(p, y, queue[n]);
    }
  }

  lemma CrossRequestsTraffic(p: Params, x: Xbar, b: int)
    requires XbarOk(p, x) && TrafficOk(p, x, 2, b)
    ensures var y := CrossRequests(p, x); TrafficOk(p, y, 0, b) && HandedOf(y.trace) == HandedOf(x.trace)
  {
    hide XbarOk, AgeQueue, MoveRequests, TrafficOk, HandedOf;
    OkShape(p, x);
    var x1 := x.(quadBusy := Cool(x.quadBusy));
    OkElsewhere(p, x, x1);
    TurnsOk(x1.linkAge, x1.linkReq, x1.logicClk);
    CoolQuads(p, x, b);
    MoveRequestsTraffic(p, x1, AgeQueue(x1.linkAge, x1.logicClk % p.links, p.links), b);
  }

  lemma TakenElsewhere(x: Xbar, vs: seq<Ctrl>, y: Xbar, ws: seq<Ctrl>)
    requires TakenInOrder(x, vs) && HandedOf(y.trace) == HandedOf(x.trace) && SameAccepted(vs, ws)
    ensures TakenInOrder(y, ws)
  {
    hide HandedOf, Jobs, JobsFor;
  }

  lemma HandOverInOrder(c: Config, p: Params, x: Xbar, vs: seq<Ctrl>, q: nat)
    requires Shape(p, x) && q < QUADS && x.quadReq[q] != [] && x.quadReq[q][0].vault < |vs| && TakenInOrder(x, vs)
    ensures TakenInOrder(ToVault(p, x, q), FeedVault(c, vs, x.quadReq[q][0]))
  {
    hide HandedOf, Jobs, JobsFor, AddTransaction;
    var req := x.quadReq[q][0];
    var y, ws := ToVault(p, x, q), FeedVault(c, vs, req);
    AcceptRecords(c, vs[req.vault], req.addr, req.isWrite, req.data);
    HandedSnoc(x.trace, Handed(req, x.logicClk));
    forall v: nat | v < |ws| ensures Jobs(ws[v].rec.accepted) == JobsFor(HandedOf(y.trace), v) {
      JobsForSnoc(HandedOf(x.trace), req, v);
      JobsSnoc(vs[req.vault].rec.accepted, Accepted(req.addr, req.isWrite, vs[req.vault].clk, req.data));
      assert Jobs(vs[v].rec.accepted) == JobsFor(HandedOf(x.trace), v);
    }
  }

  lemma {:induction false} FeedTraffic(c: Config, p: Params, x: Xbar, vs: seq<Ctrl>, clk: int, n: nat, a: int, b: int)
    requires CubeOk(c, p, x, vs, clk) && n <= QUADS && TrafficOk(p, x, a, b) && TakenInOrder(x, vs)
    ensures var (y, ws) := Feed(c, p, x, vs, clk, n); TrafficOk(p, y, a, b) && TakenInOrder(y, ws)
  {
    hide XbarOk, Good, Matched, AddTransaction, WillAcceptTransaction, TrafficOk, TakenInOrder, ToVault, FeedVault;
    if n > 0 {
      FeedTraffic(c, p, x, vs, clk, n - 1, a, b);
      var (y, ws) := Feed(c, p, x, vs, clk, n - 1);
      OkShape(p, y);
      if CanFeed(c, p, y, ws, n - 1) {
        HeadOfQuad(p, y, n - 1);
        ToVaultTraffic(p, y, n - 1, a, b);
        HandOverInOrder(c, p, y, ws, n - 1);
      }
    }
  }

  lemma DrainRequestsTraffic(c: Config, p: Params, x: Xbar, vs: seq<Ctrl>, clk: int, b: int)
    requires CubeOk(c, p, x, vs, clk) && TrafficOk(p, x, 2, b) && TakenInOrder(x, vs)
    ensures var (y, ws) := DrainRequests(c, p, x, vs, clk); TrafficOk(p, y, 0, b) && TakenInOrder(y, ws)
  {
    hide XbarOk, Good, Feed, CrossRequests, AllOwed, TrafficOk, TakenInOrder, HandedOf;
    FeedTraffic(c, p, x, vs, clk, QUADS, 2, b);
    var (y, ws) := Feed(c, p, x, vs, clk, QUADS);
    CrossRequestsTraffic(p, y, b);
    TakenElsewhere(y, ws, CrossRequests(p, y), ws);
  }

  lemma {:induction false} ToCpusTraffic(p: Params, x: Xbar, n: nat, a: int, b: int)
    requires XbarOk(p, x) && n <= p.links && TrafficOk(p, x, a, b)
    ensures var y := ToCpus(p, x, n); TrafficOk(p, y, a, b) && HandedOf(y.trace) == HandedOf(x.trace)
  {
    hide XbarOk, TrafficOk, HandedOf, ToCpu;
    if n > 0 {
      ToCpusTraffic(p, x, n - 1, a, b);
      var y := ToCpus(p, x, n - 1);
      OkShape(p, y);
      ToCpuTraffic(p, y, n - 1, a, b);
      ToCpuHands(p, y, n - 1);
    }
  }

  lemma ToCpuHands(p: Params, x: Xbar, link: nat)
    requires Shape(p, x) && link < p.links
    ensures HandedOf(ToCpu(p, x, link).trace) == HandedOf(x.trace)
  {
    hide HandedOf;
    if x.linkResp[link] != [] {
      HandedSnoc(x.trace, Delivered(x.linkResp[link][0], x.logicClk));
    }
  }

  lemma MoveResponseHands(p: Params, x: Xbar, src: nat)
    requires Shape(p, x) && src < QUADS && x.quadResp[src] != [] && x.quadResp[src][0].link < p.links
    ensures HandedOf(MoveResponse(p, x, src).trace) == HandedOf(x.trace)
  {
    hide HandedOf;
    var resp := x.quadResp[src][0];
    HandedSnoc(x.trace, Sent(resp.(exitTime := x.logicClk + resp.flits), x.logicClk));
  }

  lemma {:induction false} MoveResponsesTraffic(p: Params, x: Xbar, queue: seq<nat>, a: int)
    requires XbarOk(p, x) && InTurn(x.quadResp, queue) && TrafficOk(p, x, a, 0)
    ensures var y := MoveResponses(p, x, queue); TrafficOk(p, y, a, 0) && HandedOf(y.trace) == HandedOf(x.trace)
  {
    hide XbarOk, MoveResponse, TrafficOk, HandedOf;
    if queue != [] {
      OkShape(p, x);
      TurnsLeft(x.quadResp, queue);
      var n := |queue| - 1;
      MoveResponsesTraffic(p, x, queue[..n], a);
      var y := MoveResponses(p, x, queue[..n]);
      OkShape(p, y);
      MoveResponseOk(p, y, queue[n]);
      MoveResponseTraffic(p, y, queue[n], a);
      MoveResponseHands(p, y, queue[n]);
    }
  }

  lemma DrainResponsesTraffic(p: Params, x: Xbar, a: int)
    requires XbarOk(p, x) && TrafficOk(p, x, a, 2)
    ensures var y := DrainResponses(p, x); TrafficOk(p, y, a, 0) && HandedOf(y.trace) == HandedOf(x.trace)
  {
    hide XbarOk, AgeQueue, ToCpus, MoveResponses, TrafficOk, HandedOf;
    OkShape(p, x);
    var x1 := ToCpus(p, x, p.links);
    ToCpusTraffic(p, x, p.links, a, 2);
    OkShape(p, x1);
    var x2 := x1.(linkBusy := Cool(x1.linkBusy));
    OkElsewhere(p, x1, x2);
    TurnsOk(x2.quadAge, x2.quadResp, x2.logicClk);
    CoolLinks(p, x1, a);
    MoveResponsesTraffic(p, x2, AgeQueue(x2.quadAge, x2.logicClk % QUADS, QUADS), a);
  }

  lemma {:induction false} RepliesSame(p: Params, x: Xbar, due: seq<Transaction>)
    requires Shape(p, x)
    ensures SameTraffic(x, Replies(p, x, due))
    decreases |due|
  {
    if due != [] {
      RepliesSame(p, x, due[..|due| - 1]);
    }
  }

  lemma {:induction false} RepliesAllSame(p: Params, x: Xbar, vs: seq<Ctrl>, clk: int, n: nat)
    requires Shape(p, x) && n <= |vs|
    ensures SameTraffic(x, RepliesAll(p, x, vs, clk, n))
  {
    hide Replies, Due;
    if n > 0 {
      RepliesAllSame(p, x, vs, clk, n - 1);
      RepliesSame(p, RepliesAll(p, x, vs, clk, n - 1), Due(vs[n - 1].returnQ, clk));
    }
  }

  lemma MemoryCycleTraffic(c: Config, p: Params, x: Xbar, vs: seq<Ctrl>, clk: int, a: int, b: int)
    requires CubeOk(c, p, x, vs, clk) && TrafficOk(p, x, a, b) && TakenInOrder(x, vs)
    ensures var (y, ws) := MemoryCycle(c, p, x, vs, clk); TrafficOk(p, y, a, b) && TakenInOrder(y, ws)
  {
    hide XbarOk, Good, RepliesAll, AllOwed, Cycled, Returned, TrafficOk, TakenInOrder, HandedOf;
    OkShape(p, x);
    var y := RepliesAll(p, x, vs, clk, |vs|);
    RepliesAllSame(p, x, vs, clk, |vs|);
    TrafficElsewhere(p, x, y, a, b);
    CycledAccepts(c, vs);
    TakenElsewhere(x, vs, y, Cycled(c, vs));
  }

  // ---- every run --------------------------------------------------------------------------------------------------

  ghost predicate Lawful(p: Params, s: System, a: int, b: int) {
    TrafficOk(p, s.x, a, b) && TakenInOrder(s.x, s.vs)
  }

  lemma RespondingLawful(c: Config, p: Params, s: System, a: int)
    requires SystemOk(c, p, s) && Lawful(p, s, a, 2)
    ensures Lawful(p, Responding(c, p, s), a, 0)
  {
    hide XbarOk, Good, AllOwed, DrainResponses, TrafficOk, TakenInOrder, HandedOf;
    DrainResponsesTraffic(p, s.x, a);
    TakenElsewhere(s.x, s.vs, DrainResponses(p, s.x), s.vs);
  }

  lemma RequestingLawful(c: Config, p: Params, s: System, b: int)
    requires SystemOk(c, p, s) && Lawful(p, s, 2, b)
    ensures Lawful(p, Requesting(c, p, s), 0, b)
  {
    hide XbarOk, Good, AllOwed, DrainRequests, TrafficOk, TakenInOrder;
    DrainRequestsTraffic(c, p, s.x, s.vs, s.clk, b);
  }

  lemma DramCycleLawful(c: Config, p: Params, s: System, a: int, b: int)
    requires SystemOk(c, p, s) && Lawful(p, s, a, b)
    ensures Lawful(p, DramCycle(c, p, s), a, b)
  {
    hide XbarOk, Good, AllOwed, MemoryCycle, TrafficOk, TakenInOrder;
    MemoryCycleTraffic(c, p, s.x, s.vs, s.clk, a, b);
  }

  lemma AdvanceLawful(p: Params, k: Clocks, s: System)
    requires Lawful(p, s, 0, 0)
    ensures Lawful(p, LogicAdvance(k, s), 2, 2)
  {
    hide TrafficOk, TakenInOrder, HandedOf;
    AdvanceTraffic(p, s.x);
    TakenElsewhere(s.x, s.vs, LogicAdvance(k, s).x, s.vs);
  }

  lemma LogicCycleLawful(c: Config, p: Params, k: Clocks, s: System)
    requires SystemOk(c, p, s) && Lawful(p, s, 2, 2)
    ensures Lawful(p, LogicCycle(c, p, k, s), 2, 2)
  {
    hide SystemOk, Responding, Requesting, Lawful, LogicAdvance;
    RespondingLawful(c, p, s, 2);
    RequestingLawful(c, p, Responding(c, p, s), 0);
    AdvanceLawful(p, k, Requesting(c, p, Responding(c, p, s)));
  }

  lemma FirstCycleLawful(c: Config, p: Params, k: Clocks, s: System)
    requires SystemOk(c, p, s) && Lawful(p, s, 2, 2)
    ensures Lawful(p, FirstCycle(c, p, k, s), 2, 2)
  {
    hide SystemOk, Responding, Requesting, DramCycle, Lawful, LogicAdvance;
    if s.dramPs == s.logicPs {
      var s1 := Responding(c, p, s);
      RespondingLawful(c, p, s, 2);
      var s2 := DramCycle(c, p, s1);
      DramCycleLawful(c, p, s1, 2, 0);
      RequestingLawful(c, p, s2, 0);
      AdvanceLawful(p, k, Requesting(c, p, s2));
    } else {
      DramCycleLawful(c, p, s, 2, 2);
    }
  }

  lemma {:induction false} CatchUpLawful(c: Config, p: Params, k: Clocks, s: System)
    requires k.Valid() && SystemOk(c, p, s) && Lawful(p, s, 2, 2)
    ensures Lawful(p, CatchUp(c, p, k, s), 2, 2)
    decreases s.dramPs + k.perDram - s.logicPs
  {
    hide SystemOk, LogicCycle, Lawful;
    if s.logicPs < s.dramPs + k.perDram {
      LogicCycleLawful(c, p, k, s);
      CatchUpLawful(c, p, k, LogicCycle(c, p, k, s));
    }
  }

  lemma ClockTickLawful(c: Config, p: Params, k: Clocks, s: System)
    requires k.Valid() && SystemOk(c, p, s) && Lawful(p, s, 2, 2)
    ensures Lawful(p, ClockTick(c, p, k, s), 2, 2)
  {
    hide SystemOk, CatchUp, FirstCycle, TrafficOk, TakenInOrder;
    FirstCycleLawful(c, p, k, s);
    CatchUpLawful(c, p, k, FirstCycle(c, p, k, s));
  }

  lemma ArriveLawful(p: Params, s: System, req: Request)
    requires Shape(p, s.x) && Lawful(p, s, 2, 2)
    ensures Lawful(p, s.(x := Insert(p, s.x, req)), 2, 2)
  {
    hide TrafficOk, TakenInOrder, HandedOf, InsertAt;
    match FirstRoom(p, s.x, 0)
    case None =>
    case Some(link) =>
      InsertTraffic(p, s.x, req, link, 2, 2);
      InsertKeeps(p, s.x, req, link);
      TrafficElsewhere(p, InsertAt(p, s.x, req, link), Insert(p, s.x, req), 2, 2);
      TakenElsewhere(s.x, s.vs, Insert(p, s.x, req), s.vs);
  }

  lemma InsertKeeps(p: Params, x: Xbar, req: Request, link: nat)
    requires Shape(p, x) && link < p.links
    ensures Shape(p, InsertAt(p, x, req, link)) && InsertAt(p, x, req, link).trace == x.trace
  {
  }

  lemma StartLawful(c: Config, p: Params)
    requires p.links > 0
    ensures Lawful(p, Start(c, p), 2, 2)
  {
  }

  lemma {:induction false} AlwaysLawful(c: Config, p: Params, k: Clocks, es: seq<CubeSystem.Event>)
    requires c.Valid() && p.links > 0 && k.Valid()
    ensures Lawful(p, After(c, p, k, es), 2, 2)
  {
    hide SystemOk, ClockTick, Insert, Lawful;
    if es == [] {
      StartLawful(c, p);
    } else {
      var s := After(c, p, k, es[..|es| - 1]);
      AlwaysLawful(c, p, k, es[..|es| - 1]);
      match es[|es| - 1]
      case Arrive(req) =>
        ShapeOf(c, p, s);
        ArriveLawful(p, s, req);
      case Advance => ClockTickLawful(c, p, k, s);
    }
  }

  /** Two flits a cycle: of any two requests that crossed to the same quadrant, or responses that crossed to the same
      link, the second came at least half as many logic cycles later as the first has flits. */
  lemma PortsKeepTheirRate(c: Config, p: Params, k: Clocks, es: seq<CubeSystem.Event>, i: nat, j: nat)
    requires c.Valid() && p.links > 0 && k.Valid() && i < j < |After(c, p, k, es).x.trace|
    ensures var trace := After(c, p, k, es).x.trace; Apart(trace[i], trace[j])
  {
    hide After, SystemOk, InTime, AllFifo, Covers, Apart, TakenInOrder;
    AlwaysLawful(c, p, k, es);
  }

  /** A request is handed to its vault, and a response to the CPU, no sooner than as many logic cycles after it
      crossed as it has flits. */
  lemma NothingLeavesEarly(c: Config, p: Params, k: Clocks, es: seq<CubeSystem.Event>, j: nat) returns (i: nat)
    requires c.Valid() && p.links > 0 && k.Valid() && j < |After(c, p, k, es).x.trace|
    requires var e := After(c, p, k, es).x.trace[j]; e.Handed? || e.Delivered?
    ensures i < j
    ensures var trace := After(c, p, k, es).x.trace;
      if trace[j].Handed? then
        trace[i].Crossed? && trace[i].req == trace[j].req && trace[i].clk + trace[j].req.flits <= trace[j].clk
      else
        trace[i].Sent? && trace[i].resp == trace[j].resp && trace[i].clk + trace[j].resp.flits <= trace[j].clk
  {
    hide After, SystemOk, Stamped, AllCame, AllCameBack, AllFifo, Paced, TakenInOrder;
    AlwaysLawful(c, p, k, es);
    var trace := After(c, p, k, es).x.trace;
    assert LeftInTime(trace, j);
    if trace[j].Handed? {
      i :| Brings(trace[..j], i, trace[j].req);
    } else {
      i :| BringsBack(trace[..j], i, trace[j].resp);
    }
  }

  /** Of any link and quadrant, the requests handed to vaults are the first of those inserted, in the order they
      came, and the rest is under way in that order. */
  lemma LinksKeepOrder(c: Config, p: Params, k: Clocks, es: seq<CubeSystem.Event>, l: nat, q: nat)
    requires c.Valid() && p.links > 0 && k.Valid() && l < p.links && q < QUADS
    ensures var x := After(c, p, k, es).x;
      && |x.quadReq| == QUADS && |x.linkReq| == p.links
      && Of(HandedOf(x.trace), l, q) + Of(x.quadReq[q], l, q) + Of(x.linkReq[l], l, q) == Of(x.inserted, l, q)
  {
    hide After, SystemOk, InTime, Paced, TakenInOrder, Of, HandedOf;
    AlwaysLawful(c, p, k, es);
    assert Fifo(p, After(c, p, k, es).x, l, q);
  }

  /** A vault has taken exactly what was handed to it, in that order. */
  lemma VaultsTakeInOrder(c: Config, p: Params, k: Clocks, es: seq<CubeSystem.Event>, v: nat)
    requires c.Valid() && p.links > 0 && k.Valid() && v < |After(c, p, k, es).vs|
    ensures var s := After(c, p, k, es); Jobs(s.vs[v].rec.accepted) == JobsFor(HandedOf(s.x.trace), v)
  {
    hide After, SystemOk, TrafficOk, Jobs, JobsFor, HandedOf;
    AlwaysLawful(c, p, k, es);
  }
}

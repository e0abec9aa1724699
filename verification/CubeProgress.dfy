/** The crossbar does not hold anything back without need: what could move on in a logic cycle does. */
module CubeProgress {
  import opened DramTypes
  import opened DramConfig
  import opened Scheduler
  import opened Runs
  import opened Crossbar
  import opened Cube
  import opened CubeSystem

  // ---- requests cross ---------------------------------------------------------------------------------------------

  /** The way into quadrant `d` is closed: its queue is full or its port still passes flits. */
  predicate Closed(p: Params, x: Xbar, d: nat)
    requires Shape(p, x) && d < QUADS
  {
    |x.quadReq[d]| >= p.depth || x.quadBusy[d] > 0
  }

  /** The head of link `k` of `x` has crossed in `y`, or its way was closed and still is. */
  ghost predicate HeadCrossed(p: Params, x: Xbar, y: Xbar, k: nat)
    requires Shape(p, x) && Shape(p, y) && k < p.links && x.linkReq[k] != []
  {
    || y.linkReq[k] == x.linkReq[k][1..]
    || (y.linkReq[k] == x.linkReq[k] && (x.linkReq[k][0].quad < QUADS ==> Closed(p, y, x.linkReq[k][0].quad)))
  }

  lemma StaysClosed(p: Params, x: Xbar, src: nat, d: nat)
    requires Shape(p, x) && src < p.links && x.linkReq[src] != [] && x.linkReq[src][0].quad < QUADS && d < QUADS
    requires Closed(p, x, d)
    ensures Shape(p, MoveRequest(p, x, src)) && Closed(p, MoveRequest(p, x, src), d)
  {
  }

  lemma HeadMoves(p: Params, x: Xbar, src: nat)
    requires Shape(p, x) && src < p.links && x.linkReq[src] != [] && x.linkReq[src][0].quad < QUADS
    ensures Shape(p, MoveRequest(p, x, src)) && HeadCrossed(p, x, MoveRequest(p, x, src), src)
  {
  }

  lemma {:induction false} HeadsCross(p: Params, x: Xbar, queue: seq<nat>, k: nat)
    requires XbarOk(p, x) && InTurn(x.linkReq, queue) && k in queue && k < p.links
    ensures var y := MoveRequests(p, x, queue);
      Shape(p, x) && Shape(p, y) && x.linkReq[k] != [] && HeadCrossed(p, x, y, k)
  {
    hide XbarOk, MoveRequest;
    OkShape(p, x);
    TurnsLeft(x.linkReq, queue);
    var n := |queue| - 1;
    var y := MoveRequests(p, x, queue[..n]);
    OkShape(p, y);
    MoveRequestOk(p, y, queue[n]);
    MoveRequestFrame(p, y, queue[n]);
    OkShape(p, MoveRequest(p, y, queue[n]));
    if queue[n] == k {
      HeadMoves(p, y, k);
    } else {
      HeadsCross(p, x, queue[..n], k);
      if x.linkReq[k][0].quad < QUADS && y.linkReq[k] == x.linkReq[k] && Closed(p, y, x.linkReq[k][0].quad) {
        StaysClosed(p, y, queue[n], x.linkReq[k][0].quad);
      }
    }
  }

  /** In every logic cycle the request at the head of every link crosses to its quadrant, unless that is full or its
      port is busy. */
  lemma RequestsCross(p: Params, x: Xbar, k: nat)
    requires XbarOk(p, x) && k < p.links
    ensures var y := CrossRequests(p, x);
      Shape(p, x) && Shape(p, y) && (x.linkReq[k] != [] ==> HeadCrossed(p, x, y, k))
  {
    hide XbarOk, AgeQueue, MoveRequests, HeadCrossed;
    OkShape(p, x);
    var x1 := x.(quadBusy := Cool(x.quadBusy));
    OkElsewhere(p, x, x1);
    TurnsOk(x1.linkAge, x1.linkReq, x1.logicClk);
    var queue := AgeQueue(x1.linkAge, x1.logicClk % p.links, p.links);
    OkShape(p, CrossRequests(p, x));
    if x.linkReq[k] != [] {
      EveryoneInTurn(x1.linkAge, x1.logicClk % p.links);
      assert x1.linkAge[k] > 0;
      HeadsCross(p, x1, queue, k);
      SameHead(p, x, x1, CrossRequests(p, x), k);
    }
  }

  lemma SameHead(p: Params, x: Xbar, x1: Xbar, y: Xbar, k: nat)
    requires Shape(p, x) && Shape(p, x1) && Shape(p, y) && k < p.links && x.linkReq[k] != []
    requires x1.linkReq == x.linkReq && HeadCrossed(p, x1, y, k)
    ensures HeadCrossed(p, x, y, k)
  {
  }

  // ---- requests reach their vaults --------------------------------------------------------------------------------

  /** The head of quadrant `q` of `x` has gone to its vault in `y`, or could not and still cannot. */
  ghost predicate HeadFed(c: Config, p: Params, x: Xbar, y: Xbar, ws: seq<Ctrl>, q: nat)
    requires Shape(p, x) && Shape(p, y) && q < QUADS
  {
    || (x.quadReq[q] != [] && y.quadReq[q] == x.quadReq[q][1..])
    || (y.quadReq[q] == x.quadReq[q] && Waits(c, p, y, ws, q))
  }

  /** What may keep the head of a quadrant: there is none, its flits have not passed, the quadrant's responses fill
      their queue, or the vault's transaction queue for its kind is full. */
  predicate Waits(c: Config, p: Params, x: Xbar, vs: seq<Ctrl>, q: nat)
    requires Shape(p, x) && q < QUADS
  {
    || x.quadReq[q] == [] || x.quadReq[q][0].exitTime > x.logicClk || |x.quadResp[q]| >= p.depth
    || x.quadReq[q][0].vault >= |vs| || VaultFull(c, vs[x.quadReq[q][0].vault], x.quadReq[q][0].isWrite)
  }

  predicate VaultFull(c: Config, s: Ctrl, isWrite: bool) {
    if c.unifiedQueue then |s.unified| >= c.transQueueSize
    else if isWrite then |s.writeBuf| >= c.transQueueSize
    else |s.readQ| >= c.transQueueSize
  }

  lemma WaitsIs(c: Config, p: Params, x: Xbar, vs: seq<Ctrl>, q: nat)
    requires Shape(p, x) && q < QUADS
    ensures Waits(c, p, x, vs, q) <==> !CanFeed(c, p, x, vs, q)
  {
  }

  /** A full queue does not accept more after it has accepted more. */
  lemma StillRefuses(c: Config, s: Ctrl, addr: nat, isWrite: bool, data: int, kind: bool)
    requires !WillAcceptTransaction(c, s, kind)
    ensures !WillAcceptTransaction(c, AddTransaction(c, s, addr, isWrite, data), kind)
  {
  }

  lemma StillCannot(c: Config, p: Params, x: Xbar, vs: seq<Ctrl>, n: nat, q: nat)
    requires Shape(p, x) && n < QUADS && q < QUADS && q != n && CanFeed(c, p, x, vs, n) && !CanFeed(c, p, x, vs, q)
    ensures Shape(p, ToVault(p, x, n)) && !CanFeed(c, p, ToVault(p, x, n), FeedVault(c, vs, x.quadReq[n][0]), q)
  {
    hide WillAcceptTransaction, AddTransaction;
    var req := x.quadReq[n][0];
    if x.quadReq[q] != [] && x.quadReq[q][0].vault == req.vault
       && !WillAcceptTransaction(c, vs[x.quadReq[q][0].vault], x.quadReq[q][0].isWrite) {
      StillRefuses(c, vs[req.vault], req.addr, req.isWrite, req.data, x.quadReq[q][0].isWrite);
    }
  }

  /** Where the head of quadrant `q` is after the first `n` quadrants had their turn. */
  ghost predicate TurnTaken(c: Config, p: Params, x: Xbar, y: Xbar, ws: seq<Ctrl>, n: nat, q: nat)
    requires Shape(p, x) && Shape(p, y) && q < QUADS
  {
    if q < n then HeadFed(c, p, x, y, ws, q) else y.quadReq[q] == x.quadReq[q]
  }

  lemma TurnFed(c: Config, p: Params, x: Xbar, y: Xbar, ws: seq<Ctrl>, n: nat, q: nat)
    requires Shape(p, x) && Shape(p, y) && n < QUADS && q < QUADS && TurnTaken(c, p, x, y, ws, n, q)
    requires CanFeed(c, p, y, ws, n)
    ensures Shape(p, ToVault(p, y, n)) && y.quadReq[n] != [] && y.quadReq[n][0].vault < |ws|
    ensures TurnTaken(c, p, x, ToVault(p, y, n), FeedVault(c, ws, y.quadReq[n][0]), n + 1, q)
  {
    hide CanFeed, FeedVault, Waits;
    FeedableHead(c, p, y, ws, n);
    WaitsIs(c, p, y, ws, q);
    if q < n && !CanFeed(c, p, y, ws, q) {
      StillCannot(c, p, y, ws, n, q);
      WaitsIs(c, p, ToVault(p, y, n), FeedVault(c, ws, y.quadReq[n][0]), q);
    }
  }

  lemma TurnPassed(c: Config, p: Params, x: Xbar, y: Xbar, ws: seq<Ctrl>, n: nat, q: nat)
    requires Shape(p, x) && Shape(p, y) && n < QUADS && q < QUADS && TurnTaken(c, p, x, y, ws, n, q)
    requires !CanFeed(c, p, y, ws, n)
    ensures TurnTaken(c, p, x, y, ws, n + 1, q)
  {
    hide CanFeed, Waits;
    WaitsIs(c, p, y, ws, n);
  }

  lemma {:induction false} HeadsFed(c: Config, p: Params, x: Xbar, vs: seq<Ctrl>, clk: int, n: nat, q: nat)
    requires CubeOk(c, p, x, vs, clk) && n <= QUADS && q < QUADS
    ensures var (y, ws) := Feed(c, p, x, vs, clk, n);
      Shape(p, x) && Shape(p, y) && TurnTaken(c, p, x, y, ws, n, q)
  {
    hide XbarOk, Good, Matched, AddTransaction, WillAcceptTransaction, CanFeed, FeedVault, ToVault, HeadFed;
    OkShape(p, x);
    if n > 0 {
      HeadsFed(c, p, x, vs, clk, n - 1, q);
      var (y, ws) := Feed(c, p, x, vs, clk, n - 1);
      OkShape(p, y);
      if CanFeed(c, p, y, ws, n - 1) {
        TurnFed(c, p, x, y, ws, n - 1, q);
      } else {
        TurnPassed(c, p, x, y, ws, n - 1, q);
      }
    }
  }

  lemma FeedableHead(c: Config, p: Params, x: Xbar, vs: seq<Ctrl>, q: nat)
    requires Shape(p, x) && q < QUADS && CanFeed(c, p, x, vs, q)
    ensures x.quadReq[q] != [] && x.quadReq[q][0].vault < |vs|
  {
  }

  /** In every logic cycle the head of every quadrant goes to its vault, unless its flits have not passed, the
      quadrant's responses wait in a full queue, or the vault has no room. */
  lemma VaultsAreFed(c: Config, p: Params, x: Xbar, vs: seq<Ctrl>, clk: int, q: nat)
    requires CubeOk(c, p, x, vs, clk) && q < QUADS
    ensures var (y, ws) := Feed(c, p, x, vs, clk, QUADS); Shape(p, x) && Shape(p, y) && HeadFed(c, p, x, y, ws, q)
  {
    hide CubeOk, Feed, HeadFed;
    HeadsFed(c, p, x, vs, clk, QUADS, q);
  }

  // ---- responses --------------------------------------------------------------------------------------------------

  /** The way onto link `d` is closed. */
  predicate LinkClosed(p: Params, x: Xbar, d: nat)
    requires Shape(p, x) && d < p.links
  {
    |x.linkResp[d]| >= p.depth || x.linkBusy[d] > 0
  }

  ghost predicate HeadSent(p: Params, x: Xbar, y: Xbar, q: nat)
    requires Shape(p, x) && Shape(p, y) && q < QUADS && x.quadResp[q] != []
  {
    || y.quadResp[q] == x.quadResp[q][1..]
    || (y.quadResp[q] == x.quadResp[q] && (x.quadResp[q][0].link < p.links ==> LinkClosed(p, y, x.quadResp[q][0].link)))
  }

  lemma LinkStaysClosed(p: Params, x: Xbar, src: nat, d: nat)
    requires Shape(p, x) && src < QUADS && x.quadResp[src] != [] && x.quadResp[src][0].link < p.links && d < p.links
    requires LinkClosed(p, x, d)
    ensures Shape(p, MoveResponse(p, x, src)) && LinkClosed(p, MoveResponse(p, x, src), d)
  {
  }

  lemma ResponseMoves(p: Params, x: Xbar, src: nat)
    requires Shape(p, x) && src < QUADS && x.quadResp[src] != [] && x.quadResp[src][0].link < p.links
    ensures Shape(p, MoveResponse(p, x, src)) && HeadSent(p, x, MoveResponse(p, x, src), src)
  {
  }

  lemma {:induction false} ResponsesMove(p: Params, x: Xbar, queue: seq<nat>, q: nat)
    requires XbarOk(p, x) && InTurn(x.quadResp, queue) && q in queue && q < QUADS
    ensures var y := MoveResponses(p, x, queue);
      Shape(p, x) && Shape(p, y) && x.quadResp[q] != [] && HeadSent(p, x, y, q)
  {
    hide XbarOk, MoveResponse;
    OkShape(p, x);
    TurnsLeft(x.quadResp, queue);
    var n := |queue| - 1;
    var y := MoveResponses(p, x, queue[..n]);
    OkShape(p, y);
    MoveResponseOk(p, y, queue[n]);
    MoveResponseFrame(p, y, queue[n]);
    OkShape(p, MoveResponse(p, y, queue[n]));
    if queue[n] == q {
      ResponseMoves(p, y, q);
    } else {
      ResponsesMove(p, x, queue[..n], q);
      if x.quadResp[q][0].link < p.links && y.quadResp[q] == x.quadResp[q] && LinkClosed(p, y, x.quadResp[q][0].link) {
        LinkStaysClosed(p, y, queue[n], x.quadResp[q][0].link);
      }
    }
  }

  lemma {:induction false} ToCpusKeepQuads(p: Params, x: Xbar, n: nat)
    requires XbarOk(p, x) && n <= p.links
    ensures var y := ToCpus(p, x, n); y.quadResp == x.quadResp && y.quadAge == x.quadAge
  {
    hide XbarOk;
    if n > 0 {
      ToCpusKeepQuads(p, x, n - 1);
    }
  }

  /** In every logic cycle the response at the head of every quadrant crosses to its link, unless that is full or its
      port is busy. */
  lemma ResponsesCross(p: Params, x: Xbar, q: nat)
    requires XbarOk(p, x) && q < QUADS
    ensures var y := DrainResponses(p, x);
      Shape(p, x) && Shape(p, y) && (x.quadResp[q] != [] ==> HeadSent(p, x, y, q))
  {
    hide XbarOk, AgeQueue, ToCpus, MoveResponses, HeadSent;
    OkShape(p, x);
    var x1 := ToCpus(p, x, p.links);
    ToCpusKeepQuads(p, x, p.links);
    OkShape(p, x1);
    var x2 := x1.(linkBusy := Cool(x1.linkBusy));
    OkElsewhere(p, x1, x2);
    TurnsOk(x2.quadAge, x2.quadResp, x2.logicClk);
    OkShape(p, DrainResponses(p, x));
    if x.quadResp[q] != [] {
      EveryoneInTurn(x2.quadAge, x2.logicClk % QUADS);
      assert x2.quadAge[q] > 0;
      ResponsesMove(p, x2, AgeQueue(x2.quadAge, x2.logicClk % QUADS, QUADS), q);
      SameResponse(p, x, x2, DrainResponses(p, x), q);
    }
  }

  lemma SameResponse(p: Params, x: Xbar, x1: Xbar, y: Xbar, q: nat)
    requires Shape(p, x) && Shape(p, x1) && Shape(p, y) && q < QUADS && x.quadResp[q] != []
    requires x1.quadResp == x.quadResp && HeadSent(p, x1, y, q)
    ensures HeadSent(p, x, y, q)
  {
  }

  /** And every link hands the CPU the response at its head as soon as its flits have passed. */
  lemma {:induction false} LinksDeliver(p: Params, x: Xbar, n: nat, k: nat)
    requires XbarOk(p, x) && n <= p.links && k < p.links
    ensures var y := ToCpus(p, x, n);
      && Shape(p, x) && Shape(p, y)
      && y.linkResp[k] == if k < n && x.linkResp[k] != [] && x.linkResp[k][0].exitTime <= x.logicClk
                          then x.linkResp[k][1..] else x.linkResp[k]
  {
    hide XbarOk;
    OkShape(p, x);
    if n > 0 {
      LinksDeliver(p, x, n - 1, k);
      OkShape(p, ToCpus(p, x, n));
    }
  }
}

/** The traffic of the crossbar, in every run: no port passes more than two flits per logic cycle, nothing leaves a
    queue before its flits have passed, and requests of one link for one quadrant reach the vaults in the order they
    came. */
module CubeTraffic {
  import opened DramTypes
  import opened Counting
  import opened DramConfig
  import opened Scheduler
  import opened Runs
  import opened Crossbar
  import opened Cube
  import opened CubeSystem
  import opened CubeDelivery

  // ---- time -------------------------------------------------------------------------------------------------------

  /** What moved on did so in order, and not later than now. */
  ghost predicate Stamped(trace: seq<Passage>, now: nat) {
    && (forall i :: 0 <= i < |trace| ==> trace[i].clk <= now)
    && (forall i, j :: 0 <= i < j < |trace| ==> trace[i].clk <= trace[j].clk)
  }

  /** Entry `i` took its request to the quadrant, or its response to the link, where it stays until its flits have
      passed. */
  predicate Brings(trace: seq<Passage>, i: nat, req: Request) {
    i < |trace| && trace[i].Crossed? && trace[i].req == req && req.exitTime == trace[i].clk + req.flits
  }

  predicate BringsBack(trace: seq<Passage>, i: nat, resp: Response) {
    i < |trace| && trace[i].Sent? && trace[i].resp == resp && resp.exitTime == trace[i].clk + resp.flits
  }

  ghost predicate Came(trace: seq<Passage>, req: Request) {
    exists i: nat :: Brings(trace, i, req)
  }

  ghost predicate CameBack(trace: seq<Passage>, resp: Response) {
    exists i: nat :: BringsBack(trace, i, resp)
  }

  /** Whatever leaves a quadrant for a vault, or a link for the CPU, came there long enough before. */
  ghost predicate LeftInTime(trace: seq<Passage>, j: nat)
    requires j < |trace|
  {
    && (trace[j].Crossed? ==> Brings(trace, j, trace[j].req))
    && (trace[j].Sent? ==> BringsBack(trace, j, trace[j].resp))
    && (trace[j].Handed? ==> trace[j].req.exitTime <= trace[j].clk && Came(trace[..j], trace[j].req))
    && (trace[j].Delivered? ==> trace[j].resp.exitTime <= trace[j].clk && CameBack(trace[..j], trace[j].resp))
  }

  ghost predicate AllCame(trace: seq<Passage>, queue: seq<Request>) {
    forall k :: 0 <= k < |queue| ==> Came(trace, queue[k])
  }

  ghost predicate AllCameBack(trace: seq<Passage>, queue: seq<Response>) {
    forall k :: 0 <= k < |queue| ==> CameBack(trace, queue[k])
  }

  ghost predicate InTime(p: Params, x: Xbar)
    requires Shape(p, x)
  {
    && Stamped(x.trace, x.logicClk)
    && (forall j :: 0 <= j < |x.trace| ==> LeftInTime(x.trace, j))
    && (forall q :: 0 <= q < QUADS ==> AllCame(x.trace, x.quadReq[q]))
    && (forall k :: 0 <= k < p.links ==> AllCameBack(x.trace, x.linkResp[k]))
  }

  // ---- bandwidth --------------------------------------------------------------------------------------------------

  /** Two passages through the same port: between them there is time for the flits of the first. */
  predicate Apart(a: Passage, b: Passage) {
    && (a.Crossed? && b.Crossed? && a.req.quad == b.req.quad ==> a.req.flits <= 2 * (b.clk - a.clk))
    && (a.Sent? && b.Sent? && a.resp.link == b.resp.link ==> a.resp.flits <= 2 * (b.clk - a.clk))
  }

  ghost predicate AllApart(trace: seq<Passage>) {
    forall i, j :: 0 <= i < j < |trace| ==> Apart(trace[i], trace[j])
  }

  /** The counters of the ports cover the flits still passing; `a` and `b` are what they have in hand before they are
      counted down in this cycle. */
  ghost predicate Covers(p: Params, x: Xbar, e: Passage, a: int, b: int)
    requires Shape(p, x)
  {
    && (e.Crossed? ==> e.req.quad < QUADS && x.quadBusy[e.req.quad] >= e.req.flits - 2 * (x.logicClk - e.clk) + a)
    && (e.Sent? ==> e.resp.link < p.links && x.linkBusy[e.resp.link] >= e.resp.flits - 2 * (x.logicClk - e.clk) + b)
  }

  ghost predicate Paced(p: Params, x: Xbar, a: int, b: int)
    requires Shape(p, x)
  {
    AllApart(x.trace) && forall i :: 0 <= i < |x.trace| ==> Covers(p, x, x.trace[i], a, b)
  }

  // ---- order ------------------------------------------------------------------------------------------------------

  /** The requests of link `l` for quadrant `q`, as they came. */
  function Of(reqs: seq<Request>, l: nat, q: nat): seq<Request> {
    if reqs == [] then []
    else Of(reqs[..|reqs| - 1], l, q) + One(reqs[|reqs| - 1], l, q)
  }

  function One(r: Request, l: nat, q: nat): seq<Request> {
    if r.link == l && r.quad == q then [r.(exitTime := 0)] else []
  }

  /** The requests handed to vaults. */
  function HandedOf(trace: seq<Passage>): seq<Request> {
    if trace == [] then []
    else HandedOf(trace[..|trace| - 1]) + if trace[|trace| - 1].Handed? then [trace[|trace| - 1].req] else []
  }

  /** Of link `l` and quadrant `q`: handed over, then in the quadrant, then on the link, are the inserted ones in
      order. */
  ghost predicate Fifo(p: Params, x: Xbar, l: nat, q: nat)
    requires Shape(p, x) && l < p.links && q < QUADS
  {
    Of(HandedOf(x.trace), l, q) + Of(x.quadReq[q], l, q) + Of(x.linkReq[l], l, q) == Of(x.inserted, l, q)
  }

  ghost predicate AllFifo(p: Params, x: Xbar)
    requires Shape(p, x)
  {
    forall l: nat, q: nat :: l < p.links && q < QUADS ==> Fifo(p, x, l, q)
  }

  /** The jobs a vault has taken, and those handed to it. */
  function Jobs(accepted: seq<Accepted>): seq<Job> {
    if accepted == [] then [] else Jobs(accepted[..|accepted| - 1]) + [JobOf(accepted[|accepted| - 1])]
  }

  function JobsFor(reqs: seq<Request>, v: nat): seq<Job> {
    if reqs == [] then []
    else
      var r := reqs[|reqs| - 1];
      JobsFor(reqs[..|reqs| - 1], v) + if r.vault == v then [OrderOf(r).job] else []
  }

  ghost predicate TakenInOrder(x: Xbar, vs: seq<Ctrl>) {
    forall v: nat :: v < |vs| ==> Jobs(vs[v].rec.accepted) == JobsFor(HandedOf(x.trace), v)
  }

  // ---- sequences --------------------------------------------------------------------------------------------------

  lemma OfSnoc(reqs: seq<Request>, r: Request, l: nat, q: nat)
    ensures Of(reqs + [r], l, q) == Of(reqs, l, q) + One(r, l, q)
  {
    assert (reqs + [r])[..|reqs|] == reqs;
  }

  lemma {:induction false} OfCons(reqs: seq<Request>, l: nat, q: nat)
    requires reqs != []
    ensures Of(reqs, l, q) == One(reqs[0], l, q) + Of(reqs[1..], l, q)
  {
    hide One;
    var n := |reqs| - 1;
    if n == 0 {
      assert reqs[..0] == [] && reqs[1..] == [];
    } else {
      OfCons(reqs[..n], l, q);
      assert reqs[..n][1..] == reqs[1..][..n - 1];
    }
  }

  lemma HandedSnoc(trace: seq<Passage>, e: Passage)
    ensures HandedOf(trace + [e]) == HandedOf(trace) + if e.Handed? then [e.req] else []
  {
    assert (trace + [e])[..|trace|] == trace;
  }

  lemma JobsSnoc(accepted: seq<Accepted>, a: Accepted)
    ensures Jobs(accepted + [a]) == Jobs(accepted) + [JobOf(a)]
  {
    assert (accepted + [a])[..|accepted|] == accepted;
  }

  lemma JobsForSnoc(reqs: seq<Request>, r: Request, v: nat)
    ensures JobsFor(reqs + [r], v) == JobsFor(reqs, v) + if r.vault == v then [OrderOf(r).job] else []
  {
    assert (reqs + [r])[..|reqs|] == reqs;
  }

  // ---- one more passage -------------------------------------------------------------------------------------------

  lemma StampedNext(trace: seq<Passage>, e: Passage, now: nat)
    requires Stamped(trace, now) && e.clk == now
    ensures Stamped(trace + [e], now)
  {
  }

  lemma CameStill(trace: seq<Passage>, e: Passage, req: Request)
    requires Came(trace, req)
    ensures Came(trace + [e], req)
  {
    var i: nat :| Brings(trace, i, req);
    assert Brings(trace + [e], i, req);
  }

  lemma CameBackStill(trace: seq<Passage>, e: Passage, resp: Response)
    requires CameBack(trace, resp)
    ensures CameBack(trace + [e], resp)
  {
    var i: nat :| BringsBack(trace, i, resp);
    assert BringsBack(trace + [e], i, resp);
  }

  lemma LeftNext(trace: seq<Passage>, e: Passage)
    requires forall j :: 0 <= j < |trace| ==> LeftInTime(trace, j)
    requires e.Crossed? ==> e.req.exitTime == e.clk + e.req.flits
    requires e.Sent? ==> e.resp.exitTime == e.clk + e.resp.flits
    requires e.Handed? ==> e.req.exitTime <= e.clk && Came(trace, e.req)
    requires e.Delivered? ==> e.resp.exitTime <= e.clk && CameBack(trace, e.resp)
    ensures forall j :: 0 <= j < |trace + [e]| ==> LeftInTime(trace + [e], j)
  {
    hide Came, CameBack;
    var more := trace + [e];
    forall j | 0 <= j < |more| ensures LeftInTime(more, j) {
      if j < |trace| {
        assert LeftInTime(trace, j);
        assert more[..j] == trace[..j] && more[j] == trace[j];
      } else {
        assert more[..j] == trace;
      }
    }
  }

  lemma QueuesStill(p: Params, x: Xbar, e: Passage)
    requires Shape(p, x) && InTime(p, x)
    ensures forall q :: 0 <= q < QUADS ==> AllCame(x.trace + [e], x.quadReq[q])
    ensures forall k :: 0 <= k < p.links ==> AllCameBack(x.trace + [e], x.linkResp[k])
  {
    hide Came, CameBack, Stamped, LeftInTime;
    forall q | 0 <= q < QUADS ensures AllCame(x.trace + [e], x.quadReq[q]) {
      forall k | 0 <= k < |x.quadReq[q]| ensures Came(x.trace + [e], x.quadReq[q][k]) {
        CameStill(x.trace, e, x.quadReq[q][k]);
      }
    }
    forall k | 0 <= k < p.links ensures AllCameBack(x.trace + [e], x.linkResp[k]) {
      forall i | 0 <= i < |x.linkResp[k]| ensures CameBack(x.trace + [e], x.linkResp[k][i]) {
        CameBackStill(x.trace, e, x.linkResp[k][i]);
      }
    }
  }

  /** A passage through a port that is free. */
  lemma PacedNext(p: Params, x: Xbar, y: Xbar, e: Passage, a: int, b: int)
    requires Shape(p, x) && Shape(p, y) && Paced(p, x, a, b)
    requires y.trace == x.trace + [e] && y.logicClk == x.logicClk == e.clk
    requires if e.Crossed? then
        && a == 0 && e.req.quad < QUADS && x.quadBusy[e.req.quad] <= 0
        && y.quadBusy == x.quadBusy[e.req.quad := e.req.flits]
      else y.quadBusy == x.quadBusy
    requires if e.Sent? then
        && b == 0 && e.resp.link < p.links && x.linkBusy[e.resp.link] <= 0
        && y.linkBusy == x.linkBusy[e.resp.link := e.resp.flits]
      else y.linkBusy == x.linkBusy
    ensures Paced(p, y, a, b)
  {
    forall i | 0 <= i < |x.trace| ensures Apart(x.trace[i], e) && Covers(p, y, x.trace[i], a, b) {
      assert Covers(p, x, x.trace[i], a, b);
    }
    forall i, j | 0 <= i < j < |y.trace| ensures Apart(y.trace[i], y.trace[j]) {
      if j < |x.trace| {
        assert Apart(x.trace[i], x.trace[j]);
      }
    }
  }

  // ---- the steps of the crossbar ----------------------------------------------------------------------------------

  ghost predicate TrafficOk(p: Params, x: Xbar, a: int, b: int) {
    Shape(p, x) && InTime(p, x) && Paced(p, x, a, b) && AllFifo(p, x)
  }

  /** Nothing moved on. */
  predicate SameTraffic(x: Xbar, y: Xbar) {
    && SameRequests(x, y) && y.linkResp == x.linkResp && y.trace == x.trace && y.logicClk == x.logicClk
    && y.quadBusy == x.quadBusy && y.linkBusy == x.linkBusy
  }

  lemma TrafficElsewhere(p: Params, x: Xbar, y: Xbar, a: int, b: int)
    requires TrafficOk(p, x, a, b) && Shape(p, y) && SameTraffic(x, y)
    ensures TrafficOk(p, y, a, b)
  {
    hide Stamped, LeftInTime, AllCame, AllCameBack, AllApart, Of, HandedOf;
    PacedElsewhere(p, x, y, a, b);
    forall l: nat, q: nat | l < p.links && q < QUADS ensures Fifo(p, y, l, q) {
      assert Fifo(p, x, l, q);
    }
  }

  lemma PacedElsewhere(p: Params, x: Xbar, y: Xbar, a: int, b: int)
    requires Shape(p, x) && Shape(p, y) && Paced(p, x, a, b)
    requires y.trace == x.trace && y.logicClk == x.logicClk && y.quadBusy == x.quadBusy && y.linkBusy == x.linkBusy
    ensures Paced(p, y, a, b)
  {
    forall i | 0 <= i < |y.trace| ensures Covers(p, y, y.trace[i], a, b) {
      assert Covers(p, x, x.trace[i], a, b);
    }
  }

  lemma InsertFifo(p: Params, x: Xbar, req: Request, link: nat, l: nat, q: nat)
    requires Shape(p, x) && link < p.links && l < p.links && q < QUADS && Fifo(p, x, l, q)
    ensures Fifo(p, InsertAt(p, x, req, link), l, q)
  {
    hide Of, HandedOf;
    var taken := req.(link := link);
    OfSnoc(x.inserted, taken, l, q);
    OfSnoc(x.linkReq[link], taken, l, q);
  }

  lemma InsertTraffic(p: Params, x: Xbar, req: Request, link: nat, a: int, b: int)
    requires TrafficOk(p, x, a, b) && link < p.links
    ensures TrafficOk(p, InsertAt(p, x, req, link), a, b)
  {
    hide Stamped, LeftInTime, AllCame, AllCameBack, AllApart, Fifo;
    var y := InsertAt(p, x, req, link);
    PacedElsewhere(p, x, y, a, b);
    forall l: nat, q: nat | l < p.links && q < QUADS ensures Fifo(p, y, l, q) {
      InsertFifo(p, x, req, link, l, q);
    }
  }

  lemma CrossFifo(p: Params, x: Xbar, src: nat, l: nat, q: nat)
    requires Shape(p, x) && src < p.links && x.linkReq[src] != [] && x.linkReq[src][0].quad < QUADS
    requires x.linkReq[src][0].link == src && l < p.links && q < QUADS && Fifo(p, x, l, q)
    ensures Fifo(p, MoveRequest(p, x, src), l, q)
  {
    hide Of, HandedOf;
    var req := x.linkReq[src][0];
    var moved := req.(exitTime := x.logicClk + req.flits);
    OfCons(x.linkReq[src], l, q);
    OfSnoc(x.quadReq[req.quad], moved, l, q);
    HandedSnoc(x.trace, Crossed(moved, x.logicClk));
    assert One(moved, l, q) == One(req, l, q);
    assert HandedOf(x.trace) + [] == HandedOf(x.trace);
  }

  lemma MoveRequestTraffic(p: Params, x: Xbar, src: nat, b: int)
    requires TrafficOk(p, x, 0, b) && src < p.links && x.linkReq[src] != [] && x.linkReq[src][0].quad < QUADS
    requires x.linkReq[src][0].link == src
    ensures TrafficOk(p, MoveRequest(p, x, src), 0, b)
  {
    hide Stamped, LeftInTime, AllCame, AllCameBack, Paced, Fifo;
    var y := MoveRequest(p, x, src);
    forall l: nat, q: nat | l < p.links && q < QUADS ensures Fifo(p, y, l, q) {
      CrossFifo(p, x, src, l, q);
    }
    var req := x.linkReq[src][0];
    if |x.quadReq[req.quad]| < p.depth && x.quadBusy[req.quad] <= 0 {
      var moved := req.(exitTime := x.logicClk + req.flits);
      var e := Crossed(moved, x.logicClk);
      StampedNext(x.trace, e, x.logicClk);
      LeftNext(x.trace, e);
      QueuesStill(p, x, e);
      QueueMore(x.trace + [e], x.quadReq[req.quad], moved, |x.trace|);
      PacedNext(p, x, y, e, 0, b);
    } else {
      PacedElsewhere(p, x, y, 0, b);
    }
  }

  lemma QueueMore(trace: seq<Passage>, queue: seq<Request>, req: Request, i: nat)
    requires AllCame(trace, queue) && Brings(trace, i, req)
    ensures AllCame(trace, queue + [req])
  {
    hide Brings;
    forall k | 0 <= k < |queue + [req]| ensures Came(trace, (queue + [req])[k]) {
      assert k < |queue| ==> Came(trace, queue[k]);
    }
  }

  lemma ResponsesMore(trace: seq<Passage>, queue: seq<Response>, resp: Response, i: nat)
    requires AllCameBack(trace, queue) && BringsBack(trace, i, resp)
    ensures AllCameBack(trace, queue + [resp])
  {
    hide BringsBack;
    forall k | 0 <= k < |queue + [resp]| ensures CameBack(trace, (queue + [resp])[k]) {
      assert k < |queue| ==> CameBack(trace, queue[k]);
    }
  }

  lemma HandFifo(p: Params, x: Xbar, quad: nat, l: nat, q: nat)
    requires Shape(p, x) && quad < QUADS && x.quadReq[quad] != [] && x.quadReq[quad][0].quad == quad
    requires l < p.links && q < QUADS && Fifo(p, x, l, q)
    ensures Fifo(p, ToVault(p, x, quad), l, q)
  {
    hide Of, HandedOf;
    var req := x.quadReq[quad][0];
    OfCons(x.quadReq[quad], l, q);
    HandedSnoc(x.trace, Handed(req, x.logicClk));
    OfSnoc(HandedOf(x.trace), req, l, q);
  }

  lemma ToVaultTraffic(p: Params, x: Xbar, quad: nat, a: int, b: int)
    requires TrafficOk(p, x, a, b) && quad < QUADS && x.quadReq[quad] != [] && x.quadReq[quad][0].quad == quad
    requires x.quadReq[quad][0].exitTime <= x.logicClk
    ensures TrafficOk(p, ToVault(p, x, quad), a, b)
  {
    hide Stamped, LeftInTime, AllCameBack, Came, Paced, Fifo;
    var y := ToVault(p, x, quad);
    var e := Handed(x.quadReq[quad][0], x.logicClk);
    forall l: nat, q: nat | l < p.links && q < QUADS ensures Fifo(p, y, l, q) {
      HandFifo(p, x, quad, l, q);
    }
    assert Came(x.trace, x.quadReq[quad][0]);
    StampedNext(x.trace, e, x.logicClk);
    LeftNext(x.trace, e);
    QueuesStill(p, x, e);
    PacedNext(p, x, y, e, a, b);
  }

  lemma MoveResponseTraffic(p: Params, x: Xbar, src: nat, a: int)
    requires TrafficOk(p, x, a, 0) && src < QUADS && x.quadResp[src] != [] && x.quadResp[src][0].link < p.links
    ensures TrafficOk(p, MoveResponse(p, x, src), a, 0)
  {
    hide Stamped, LeftInTime, AllCame, AllCameBack, Paced, Of, HandedOf;
    var y := MoveResponse(p, x, src);
    var resp := x.quadResp[src][0];
    if |x.linkResp[resp.link]| < p.depth && x.linkBusy[resp.link] <= 0 {
      var moved := resp.(exitTime := x.logicClk + resp.flits);
      var e := Sent(moved, x.logicClk);
      FifoNext(p, x, y, e);
      StampedNext(x.trace, e, x.logicClk);
      LeftNext(x.trace, e);
      QueuesStill(p, x, e);
      ResponsesMore(x.trace + [e], x.linkResp[resp.link], moved, |x.trace|);
      PacedNext(p, x, y, e, a, 0);
    } else {
      TrafficElsewhere(p, x, y, a, 0);
    }
  }

  /** Responses do not matter to the order of requests. */
  lemma FifoNext(p: Params, x: Xbar, y: Xbar, e: Passage)
    requires Shape(p, x) && Shape(p, y) && AllFifo(p, x) && SameRequests(x, y) && y.trace == x.trace + [e] && !e.Handed?
    ensures AllFifo(p, y)
  {
    hide Of, HandedOf;
    HandedSnoc(x.trace, e);
    assert HandedOf(x.trace) + [] == HandedOf(x.trace);
    forall l: nat, q: nat | l < p.links && q < QUADS ensures Fifo(p, y, l, q) {
      assert Fifo(p, x, l, q);
    }
  }

  lemma ToCpuTraffic(p: Params, x: Xbar, link: nat, a: int, b: int)
    requires TrafficOk(p, x, a, b) && link < p.links
    ensures TrafficOk(p, ToCpu(p, x, link), a, b)
  {
    hide Stamped, LeftInTime, AllCame, CameBack, Paced, Of, HandedOf, AllFifo;
    var y, queue := ToCpu(p, x, link), x.linkResp[link];
    if queue != [] && queue[0].exitTime <= x.logicClk {
      var e := Delivered(queue[0], x.logicClk);
      assert CameBack(x.trace, queue[0]);
      FifoNext(p, x, y, e);
      StampedNext(x.trace, e, x.logicClk);
      LeftNext(x.trace, e);
      QueuesStill(p, x, e);
      PacedNext(p, x, y, e, a, b);
    }
  }

  /** Counting down takes two off what a port has in hand. */
  lemma CoolQuads(p: Params, x: Xbar, b: int)
    requires TrafficOk(p, x, 2, b)
    ensures TrafficOk(p, x.(quadBusy := Cool(x.quadBusy)), 0, b)
  {
    hide Stamped, LeftInTime, AllCame, AllCameBack, AllApart, Of, HandedOf;
    var y := x.(quadBusy := Cool(x.quadBusy));
    forall i | 0 <= i < |y.trace| ensures Covers(p, y, y.trace[i], 0, b) {
      assert Covers(p, x, x.trace[i], 2, b);
    }
    forall l: nat, q: nat | l < p.links && q < QUADS ensures Fifo(p, y, l, q) {
      assert Fifo(p, x, l, q);
    }
  }

  lemma CoolLinks(p: Params, x: Xbar, a: int)
    requires TrafficOk(p, x, a, 2)
    ensures TrafficOk(p, x.(linkBusy := Cool(x.linkBusy)), a, 0)
  {
    hide Stamped, LeftInTime, AllCame, AllCameBack, AllApart, Of, HandedOf;
    var y := x.(linkBusy := Cool(x.linkBusy));
    forall i | 0 <= i < |y.trace| ensures Covers(p, y, y.trace[i], a, 0) {
      assert Covers(p, x, x.trace[i], a, 2);
    }
    forall l: nat, q: nat | l < p.links && q < QUADS ensures Fifo(p, y, l, q) {
      assert Fifo(p, x, l, q);
    }
  }

  /** A logic cycle gives every port two flits more. */
  lemma AdvanceTraffic(p: Params, x: Xbar)
    requires TrafficOk(p, x, 0, 0)
    ensures TrafficOk(p, x.(logicClk := x.logicClk + 1), 2, 2)
  {
    hide LeftInTime, AllCame, AllCameBack, AllApart, Of, HandedOf;
    var y := x.(logicClk := x.logicClk + 1);
    forall i | 0 <= i < |y.trace| ensures Covers(p, y, y.trace[i], 2, 2) {
      assert Covers(p, x, x.trace[i], 0, 0);
    }
    forall l: nat, q: nat | l < p.links && q < QUADS ensures Fifo(p, y, l, q) {
      assert Fifo(p, x, l, q);
    }
  }
}

/** The crossbar of the memory cube as values: request and response queues on links and quadrants, age
    counters, and the table that turns a finished address back into a response. */
module Crossbar {
  import opened DramTypes
  import opened Counting
  import opened Division

  const QUADS: nat := 4

  /** `link` is filled in when a link takes the request. `readReply` and `replyFlits` are what the request type says
      about its response; `data` is what a write carries, for the record only. */
  datatype Request = Request(addr: nat, isWrite: bool, link: nat, quad: nat, vault: nat, flits: nat, readReply: bool,
                             replyFlits: nat, exitTime: int, data: int)

  /** `id` is the number of the request it answers, for the record only. */
  datatype Response = Response(addr: int, isRead: bool, link: nat, quad: nat, flits: nat, exitTime: int, id: nat)

  /** Something moved on, in logic cycle `clk`: a request to its quadrant or its vault, a response to its link or
      the CPU. */
  datatype Passage =
    | Crossed(req: Request, clk: nat)
    | Handed(req: Request, clk: nat)
    | Sent(resp: Response, clk: nat)
    | Delivered(resp: Response, clk: nat)

  datatype Params = Params(links: nat, depth: nat, vaults: nat)

  /** For the record: `inserted` are the requests accepted so far, `atVaults` the addresses handed to a vault and
      not yet answered, `called` the responses given to the CPU, and `trace` all that moved on, in order. */
  datatype Xbar = Xbar(
    logicClk: nat, nextLink: nat, table: seq<Response>,
    linkReq: seq<seq<Request>>, quadReq: seq<seq<Request>>, quadResp: seq<seq<Response>>, linkResp: seq<seq<Response>>,
    linkBusy: seq<int>, quadBusy: seq<int>, linkAge: seq<int>, quadAge: seq<int>,
    inserted: seq<Request>, atVaults: multiset<int>, called: seq<Response>, trace: seq<Passage>)

  predicate Shape(p: Params, x: Xbar) {
    && |x.linkReq| == |x.linkResp| == |x.linkBusy| == |x.linkAge| == p.links && x.nextLink < p.links
    && |x.quadReq| == |x.quadResp| == |x.quadBusy| == |x.quadAge| == QUADS
  }

  function Empty(p: Params): Xbar {
    Xbar(0, 0, [], seq(p.links, _ => []), seq(QUADS, _ => []), seq(QUADS, _ => []), seq(p.links, _ => []),
         seq(p.links, _ => 0), seq(QUADS, _ => 0), seq(p.links, _ => 0), seq(QUADS, _ => 0), [], multiset{}, [], [])
  }

  // ---- steps ----------------------------------------------------------------------------------------------

  /** `InsertReqToLink`, when the link has room. */
  function InsertAt(p: Params, x: Xbar, req: Request, link: nat): Xbar
    requires Shape(p, x) && link < p.links
  {
    var resp := Response(req.addr, req.readReply, link, req.quad, req.replyFlits, 0, |x.inserted|);
    x.(linkReq := x.linkReq[link := x.linkReq[link] + [req.(link := link)]], table := x.table + [resp],
       linkAge := x.linkAge[link := 1], inserted := x.inserted + [req.(link := link)])
  }

  function LinkAt(p: Params, x: Xbar, j: nat): (link: nat)
    requires p.links > 0
    ensures link < p.links
  {
    (x.nextLink + j) % p.links
  }

  /** The first link with room, round robin from `nextLink`, `j` links on. */
  function FirstRoom(p: Params, x: Xbar, j: nat): (r: Option<nat>)
    requires Shape(p, x) && j <= p.links
    ensures r.Some? ==> r.value < p.links && |x.linkReq[r.value]| < p.depth
    decreases p.links - j
  {
    if j == p.links then None
    else if |x.linkReq[LinkAt(p, x, j)]| < p.depth then Some(LinkAt(p, x, j))
    else FirstRoom(p, x, j + 1)
  }

  ghost predicate Full(p: Params, x: Xbar, link: nat)
    requires Shape(p, x) && link < p.links
  {
    |x.linkReq[link]| >= p.depth
  }

  /** The links come up in turn, the one with room that is used first. */
  lemma {:induction false} RoomInTurn(p: Params, x: Xbar, j: nat)
    requires Shape(p, x) && j <= p.links && forall i: nat :: i < j ==> Full(p, x, LinkAt(p, x, i))
    ensures var r := FirstRoom(p, x, j);
      if r.None? then forall i: nat :: i < p.links ==> Full(p, x, LinkAt(p, x, i))
      else exists i: nat :: UsesLink(p, x, r.value, i)
    decreases p.links - j
  {
    if j < p.links {
      if Full(p, x, LinkAt(p, x, j)) {
        RoomInTurn(p, x, j + 1);
      } else {
        assert UsesLink(p, x, LinkAt(p, x, j), j);
      }
    }
  }

  /** The link `i` places on from `nextLink` has room, and those before it have none. */
  ghost predicate UsesLink(p: Params, x: Xbar, link: nat, i: nat)
    requires Shape(p, x)
  {
    && i < p.links && link == (x.nextLink + i) % p.links && !Full(p, x, link)
    && forall k: nat :: k < i ==> Full(p, x, LinkAt(p, x, k))
  }

  /** A request is refused if and only if every link is full. */
  lemma RefusedWhenFull(p: Params, x: Xbar)
    requires Shape(p, x)
    ensures FirstRoom(p, x, 0).None? <==> forall link: nat :: link < p.links ==> Full(p, x, link)
    ensures FirstRoom(p, x, 0).Some? ==> exists i: nat :: UsesLink(p, x, FirstRoom(p, x, 0).value, i)
  {
    hide FirstRoom;
    RoomInTurn(p, x, 0);
    if FirstRoom(p, x, 0).None? {
      forall link: nat | link < p.links ensures Full(p, x, link) {
        var i := if link >= x.nextLink then link - x.nextLink else link + p.links - x.nextLink;
        WrapOnce(x.nextLink + i, p.links);
        assert Full(p, x, LinkAt(p, x, i));
      }
    }
  }

  /** `InsertHMCReq` */
  function Insert(p: Params, x: Xbar, req: Request): Xbar
    requires Shape(p, x)
  {
    match FirstRoom(p, x, 0)
    case None => x
    case Some(link) => InsertAt(p, x, req, link).(nextLink := LinkAfter(p, link))
  }

  /** Round robin. */
  function LinkAfter(p: Params, link: nat): (next: nat)
    requires p.links > 0
    ensures next < p.links
  {
    (link + 1) % p.links
  }

  /** The request at the head of a quadrant goes to its vault. */
  function ToVault(p: Params, x: Xbar, q: nat): Xbar
    requires Shape(p, x) && q < QUADS && x.quadReq[q] != []
  {
    x.(quadReq := x.quadReq[q := x.quadReq[q][1..]], atVaults := x.atVaults + multiset{x.quadReq[q][0].addr},
       trace := x.trace + [Handed(x.quadReq[q][0], x.logicClk)])
  }

  /** First entry for an address. */
  function Find(table: seq<Response>, addr: int): (r: Option<nat>)
    ensures r.Some? ==> r.value < |table| && table[r.value].addr == addr
  {
    if table == [] then None
    else if table[0].addr == addr then Some(0)
    else match Find(table[1..], addr)
      case None => None
      case Some(i) => Some(i + 1)
  }

  /** `VaultCallback`, when the address has an entry. */
  function Reply(p: Params, x: Xbar, addr: int): Xbar
    requires Shape(p, x)
  {
    match Find(x.table, addr)
    case None => x
    case Some(i) =>
      var resp := x.table[i];
      if resp.quad >= QUADS then x
      else x.(table := Remove(x.table, i), quadResp := x.quadResp[resp.quad := x.quadResp[resp.quad] + [resp]],
              quadAge := x.quadAge[resp.quad := 1], atVaults := x.atVaults - multiset{addr})
  }

  /** `age` after the queue moved. */
  function AgeOf<T>(queue: seq<T>): int {
    if queue == [] then 0 else 1
  }

  /** The request at the head of link `src` crosses to its quadrant, or ages. */
  function MoveRequest(p: Params, x: Xbar, src: nat): Xbar
    requires Shape(p, x) && src < p.links && x.linkReq[src] != [] && x.linkReq[src][0].quad < QUADS
  {
    var req, rest := x.linkReq[src][0], x.linkReq[src][1..];
    var d := req.quad;
    if |x.quadReq[d]| < p.depth && x.quadBusy[d] <= 0 then
      var moved := req.(exitTime := x.logicClk + req.flits);
      x.(linkReq := x.linkReq[src := rest], linkAge := x.linkAge[src := AgeOf(rest)],
         quadBusy := x.quadBusy[d := req.flits], quadReq := x.quadReq[d := x.quadReq[d] + [moved]],
         trace := x.trace + [Crossed(moved, x.logicClk)])
    else x.(linkAge := x.linkAge[src := x.linkAge[src] + 1])
  }

  /** The response at the head of quadrant `src` crosses to its link, or ages. */
  function MoveResponse(p: Params, x: Xbar, src: nat): Xbar
    requires Shape(p, x) && src < QUADS && x.quadResp[src] != [] && x.quadResp[src][0].link < p.links
  {
    var resp, rest := x.quadResp[src][0], x.quadResp[src][1..];
    var d := resp.link;
    if |x.linkResp[d]| < p.depth && x.linkBusy[d] <= 0 then
      var moved := resp.(exitTime := x.logicClk + resp.flits);
      x.(quadResp := x.quadResp[src := rest], quadAge := x.quadAge[src := AgeOf(rest)],
         linkBusy := x.linkBusy[d := resp.flits], linkResp := x.linkResp[d := x.linkResp[d] + [moved]],
         trace := x.trace + [Sent(moved, x.logicClk)])
    else x.(quadAge := x.quadAge[src := x.quadAge[src] + 1])
  }

  /** The response at the head of a link goes to the CPU when its time has come. */
  function ToCpu(p: Params, x: Xbar, link: nat): Xbar
    requires Shape(p, x) && link < p.links
  {
    var q := x.linkResp[link];
    if q != [] && q[0].exitTime <= x.logicClk
      then x.(linkResp := x.linkResp[link := q[1..]], called := x.called + [q[0]],
              trace := x.trace + [Delivered(q[0], x.logicClk)])
    else x
  }

  /** The crossbar works off two flits a cycle. */
  function Cool(busy: seq<int>): seq<int> {
    seq(|busy|, i requires 0 <= i < |busy| => if busy[i] > 0 then busy[i] - 2 else busy[i])
  }

  // ---- what always holds --------------------------------------------------------------------------------------

  function ReqAddr(r: Request): int {
    r.addr
  }

  function RespAddr(r: Response): int {
    r.addr
  }

  function RespId(r: Response): nat {
    r.id
  }

  /** An age counter is positive exactly while its queue is not empty. */
  ghost predicate AgesOk<T>(ages: seq<int>, queues: seq<seq<T>>) {
    |ages| == |queues| && forall i :: 0 <= i < |ages| ==> ages[i] >= 0 && (ages[i] > 0 <==> queues[i] != [])
  }

  ghost predicate ReqOk(p: Params, r: Request) {
    r.quad < QUADS && r.vault < p.vaults
  }

  /** A response answers the request it is numbered after, and is on its way back to that request's link. */
  ghost predicate RespOk(p: Params, inserted: seq<Request>, r: Response) {
    && r.link < p.links && r.quad < QUADS && r.id < |inserted|
    && r.addr == inserted[r.id].addr && r.isRead == inserted[r.id].readReply
    && r.link == inserted[r.id].link && r.quad == inserted[r.id].quad && r.flits == inserted[r.id].replyFlits
  }

  ghost predicate QueueOk(p: Params, queue: seq<Request>) {
    forall i :: 0 <= i < |queue| ==> ReqOk(p, queue[i])
  }

  ghost predicate AllFor(p: Params, inserted: seq<Request>, queue: seq<Response>) {
    forall i :: 0 <= i < |queue| ==> RespOk(p, inserted, queue[i])
  }

  /** Requests wait on the link that took them and in the quadrant they are for, and so do responses. */
  ghost predicate FromLink(queue: seq<Request>, link: nat) {
    forall i :: 0 <= i < |queue| ==> queue[i].link == link
  }

  ghost predicate ForQuad(queue: seq<Request>, quad: nat) {
    forall i :: 0 <= i < |queue| ==> queue[i].quad == quad
  }

  ghost predicate InQuad(queue: seq<Response>, quad: nat) {
    forall i :: 0 <= i < |queue| ==> queue[i].quad == quad
  }

  ghost predicate OnLink(queue: seq<Response>, link: nat) {
    forall i :: 0 <= i < |queue| ==> queue[i].link == link
  }

  /** Everything is where its route says, and the request queues and link queues never overflow. */
  ghost predicate Routed(p: Params, x: Xbar)
    requires Shape(p, x)
  {
    && (forall k :: 0 <= k < p.links ==>
      QueueOk(p, x.linkReq[k]) && FromLink(x.linkReq[k], k) && |x.linkReq[k]| <= p.depth)
    && (forall q :: 0 <= q < QUADS ==>
      QueueOk(p, x.quadReq[q]) && ForQuad(x.quadReq[q], q) && |x.quadReq[q]| <= p.depth)
    && (forall q :: 0 <= q < QUADS ==> AllFor(p, x.inserted, x.quadResp[q]) && InQuad(x.quadResp[q], q))
    && (forall k :: 0 <= k < p.links ==>
      AllFor(p, x.inserted, x.linkResp[k]) && OnLink(x.linkResp[k], k) && |x.linkResp[k]| <= p.depth)
    && AllFor(p, x.inserted, x.table) && AllFor(p, x.inserted, x.called)
  }

  /** Table entries = requests on links + requests in quadrants + requests at vaults, for every address. */
  ghost predicate Balanced(x: Xbar) {
    forall a: int ::
      Count(x.table, RespAddr, a) == CountAll(x.linkReq, ReqAddr, a) + CountAll(x.quadReq, ReqAddr, a) + x.atVaults[a]
  }

  ghost function Responses(x: Xbar, id: nat): nat {
    Count(x.table, RespId, id) + CountAll(x.quadResp, RespId, id) + CountAll(x.linkResp, RespId, id) +
      Count(x.called, RespId, id)
  }

  /** Each accepted request has exactly one response, in the table, on its way or at the CPU. */
  ghost predicate Answered(x: Xbar) {
    forall id: nat :: Responses(x, id) == if id < |x.inserted| then 1 else 0
  }

  ghost predicate XbarOk(p: Params, x: Xbar) {
    Shape(p, x) && AgesOk(x.linkAge, x.linkReq) && AgesOk(x.quadAge, x.quadResp) && Routed(p, x) && Balanced(x)
      && Answered(x)
  }

  lemma EmptyOk(p: Params)
    requires p.links > 0
    ensures XbarOk(p, Empty(p))
  {
    hide CountAll;
    var x := Empty(p);
    forall a: int ensures CountAll(x.linkReq, ReqAddr, a) == 0 && CountAll(x.quadReq, ReqAddr, a) == 0 {
      CountAllNone(p.links, ReqAddr, a);
      CountAllNone(QUADS, ReqAddr, a);
    }
    forall id: nat ensures Responses(x, id) == 0 {
      CountAllNone(p.links, RespId, id);
      CountAllNone(QUADS, RespId, id);
    }
  }

  // ---- a new request --------------------------------------------------------------------------------------------

  lemma MoreInserted(p: Params, inserted: seq<Request>, req: Request, queue: seq<Response>)
    requires AllFor(p, inserted, queue)
    ensures AllFor(p, inserted + [req], queue)
  {
  }

  lemma InsertRouted(p: Params, x: Xbar, req: Request, link: nat)
    requires Shape(p, x) && Routed(p, x) && link < p.links && |x.linkReq[link]| < p.depth && ReqOk(p, req)
    ensures Routed(p, InsertAt(p, x, req, link))
  {
    hide RespOk;
    var y, taken := InsertAt(p, x, req, link), req.(link := link);
    forall q | 0 <= q < QUADS ensures AllFor(p, y.inserted, y.quadResp[q]) {
      MoreInserted(p, x.inserted, taken, x.quadResp[q]);
    }
    forall k | 0 <= k < p.links ensures AllFor(p, y.inserted, y.linkResp[k]) {
      MoreInserted(p, x.inserted, taken, x.linkResp[k]);
    }
    MoreInserted(p, x.inserted, taken, x.table);
    MoreInserted(p, x.inserted, taken, x.called);
    NewResponseOk(p, x, req, link);
  }

  lemma NewResponseOk(p: Params, x: Xbar, req: Request, link: nat)
    requires Shape(p, x) && link < p.links && ReqOk(p, req)
    ensures var y := InsertAt(p, x, req, link); RespOk(p, y.inserted, y.table[|x.table|])
  {
  }

  lemma InsertAtOk(p: Params, x: Xbar, req: Request, link: nat)
    requires XbarOk(p, x) && link < p.links && |x.linkReq[link]| < p.depth && ReqOk(p, req)
    ensures XbarOk(p, InsertAt(p, x, req, link))
  {
    hide Count, CountAll, Routed;
    var y := InsertAt(p, x, req, link);
    InsertRouted(p, x, req, link);
    var resp := y.table[|x.table|];
    forall a: int
      ensures Count(y.table, RespAddr, a) ==
        CountAll(y.linkReq, ReqAddr, a) + CountAll(y.quadReq, ReqAddr, a) + y.atVaults[a]
    {
      CountSnoc(x.table, resp, RespAddr, a);
      CountAllUpdate(x.linkReq, link, y.linkReq[link], ReqAddr, a);
      CountSnoc(x.linkReq[link], req.(link := link), ReqAddr, a);
    }
    forall id: nat ensures Responses(y, id) == if id < |y.inserted| then 1 else 0 {
      CountSnoc(x.table, resp, RespId, id);
      assert Responses(x, id) == if id < |x.inserted| then 1 else 0;
    }
  }

  lemma InsertOk(p: Params, x: Xbar, req: Request)
    requires XbarOk(p, x) && ReqOk(p, req)
    ensures XbarOk(p, Insert(p, x, req))
  {
    hide Count, CountAll, Routed, InsertAt;
    match FirstRoom(p, x, 0)
    case None =>
    case Some(link) =>
      InsertAtOk(p, x, req, link);
      OkElsewhere(p, InsertAt(p, x, req, link), Insert(p, x, req));
  }

  // ---- moving on --------------------------------------------------------------------------------------------------

  lemma ToVaultOk(p: Params, x: Xbar, q: nat)
    requires XbarOk(p, x) && q < QUADS && x.quadReq[q] != []
    ensures XbarOk(p, ToVault(p, x, q))
  {
    hide Count, CountAll;
    var y := ToVault(p, x, q);
    forall a: int
      ensures Count(y.table, RespAddr, a) ==
        CountAll(y.linkReq, ReqAddr, a) + CountAll(y.quadReq, ReqAddr, a) + y.atVaults[a]
    {
      CountAllUpdate(x.quadReq, q, y.quadReq[q], ReqAddr, a);
      CountCons(x.quadReq[q], ReqAddr, a);
    }
    assert forall id: nat :: Responses(y, id) == Responses(x, id);
  }

  lemma {:induction false} FindFinds(table: seq<Response>, addr: int)
    ensures Find(table, addr).Some? <==> Count(table, RespAddr, addr) > 0
  {
    hide Count;
    if table == [] {
      CountEmpty(RespAddr, addr);
    } else {
      CountCons(table, RespAddr, addr);
      FindFinds(table[1..], addr);
    }
  }

  /** A vault's callback always finds its entry. */
  lemma ReplyFinds(p: Params, x: Xbar, addr: int)
    requires XbarOk(p, x) && x.atVaults[addr] > 0
    ensures var r := Find(x.table, addr); r.Some? && x.table[r.value].quad < QUADS
  {
    hide Count, CountAll;
    FindFinds(x.table, addr);
    assert RespOk(p, x.inserted, x.table[Find(x.table, addr).value]);
  }

  lemma ReplyRouted(p: Params, x: Xbar, addr: int)
    requires Shape(p, x) && Routed(p, x)
    ensures Routed(p, Reply(p, x, addr))
  {
    hide RespOk, ReqOk;
  }

  lemma ReplyOk(p: Params, x: Xbar, addr: int)
    requires XbarOk(p, x) && x.atVaults[addr] > 0
    ensures XbarOk(p, Reply(p, x, addr)) && Reply(p, x, addr).atVaults == x.atVaults - multiset{addr}
  {
    hide Count, CountAll, Routed;
    var y := Reply(p, x, addr);
    ReplyFinds(p, x, addr);
    ReplyRouted(p, x, addr);
    var i := Find(x.table, addr).value;
    var resp := x.table[i];
    forall a: int
      ensures Count(y.table, RespAddr, a) ==
        CountAll(y.linkReq, ReqAddr, a) + CountAll(y.quadReq, ReqAddr, a) + y.atVaults[a]
    {
      CountRemove(x.table, i, RespAddr, a);
    }
    forall id: nat ensures Responses(y, id) == Responses(x, id) {
      CountRemove(x.table, i, RespId, id);
      CountAllUpdate(x.quadResp, resp.quad, y.quadResp[resp.quad], RespId, id);
      CountSnoc(x.quadResp[resp.quad], resp, RespId, id);
    }
  }

  lemma MoveRequestRouted(p: Params, x: Xbar, src: nat)
    requires Shape(p, x) && Routed(p, x) && src < p.links && x.linkReq[src] != []
    ensures x.linkReq[src][0].quad < QUADS && Routed(p, MoveRequest(p, x, src))
  {
    hide AllFor, OnLink, InQuad;
    assert ReqOk(p, x.linkReq[src][0]);
  }

  lemma MoveRequestOk(p: Params, x: Xbar, src: nat)
    requires XbarOk(p, x) && src < p.links && x.linkReq[src] != []
    ensures x.linkReq[src][0].quad < QUADS && XbarOk(p, MoveRequest(p, x, src))
  {
    hide Count, CountAll, Routed;
    MoveRequestRouted(p, x, src);
    var y := MoveRequest(p, x, src);
    var req := x.linkReq[src][0];
    var d := req.quad;
    forall a: int
      ensures Count(y.table, RespAddr, a) ==
        CountAll(y.linkReq, ReqAddr, a) + CountAll(y.quadReq, ReqAddr, a) + y.atVaults[a]
    {
      CountAllUpdate(x.linkReq, src, y.linkReq[src], ReqAddr, a);
      CountCons(x.linkReq[src], ReqAddr, a);
      CountAllUpdate(x.quadReq, d, y.quadReq[d], ReqAddr, a);
      CountSnoc(x.quadReq[d], req.(exitTime := x.logicClk + req.flits), ReqAddr, a);
    }
    assert forall id: nat :: Responses(y, id) == Responses(x, id);
  }

  lemma MoveResponseRouted(p: Params, x: Xbar, src: nat)
    requires Shape(p, x) && Routed(p, x) && src < QUADS && x.quadResp[src] != []
    ensures x.quadResp[src][0].link < p.links && Routed(p, MoveResponse(p, x, src))
  {
    hide QueueOk, FromLink, ForQuad;
    assert RespOk(p, x.inserted, x.quadResp[src][0]);
  }

  lemma MoveResponseOk(p: Params, x: Xbar, src: nat)
    requires XbarOk(p, x) && src < QUADS && x.quadResp[src] != []
    ensures x.quadResp[src][0].link < p.links && XbarOk(p, MoveResponse(p, x, src))
  {
    hide Count, CountAll, Routed;
    MoveResponseRouted(p, x, src);
    var y := MoveResponse(p, x, src);
    var resp := x.quadResp[src][0];
    var d := resp.link;
    forall id: nat ensures Responses(y, id) == Responses(x, id) {
      CountAllUpdate(x.quadResp, src, y.quadResp[src], RespId, id);
      CountCons(x.quadResp[src], RespId, id);
      CountAllUpdate(x.linkResp, d, y.linkResp[d], RespId, id);
      CountSnoc(x.linkResp[d], resp.(exitTime := x.logicClk + resp.flits), RespId, id);
    }
  }

  lemma ToCpuOk(p: Params, x: Xbar, link: nat)
    requires XbarOk(p, x) && link < p.links
    ensures XbarOk(p, ToCpu(p, x, link))
  {
    hide Count, CountAll, RespOk, QueueOk;
    var y := ToCpu(p, x, link);
    if y != x {
      forall id: nat ensures Responses(y, id) == Responses(x, id) {
        CountAllUpdate(x.linkResp, link, y.linkResp[link], RespId, id);
        CountCons(x.linkResp[link], RespId, id);
        CountSnoc(x.called, x.linkResp[link][0], RespId, id);
      }
    }
  }

  /** Counters that say nothing about who is where. */
  lemma OkElsewhere(p: Params, x: Xbar, y: Xbar)
    requires XbarOk(p, x) && Shape(p, y)
    requires y == x.(logicClk := y.logicClk, nextLink := y.nextLink, linkBusy := y.linkBusy, quadBusy := y.quadBusy)
    ensures XbarOk(p, y)
  {
    hide Count, CountAll, RespOk, ReqOk;
    assert forall id: nat :: Responses(y, id) == Responses(x, id);
  }

  // ---- whose turn it is -----------------------------------------------------------------------------------------

  /** Put `pos` before the first entry below `age`. The entries are indices, not ages. */
  function AgeInsert(queue: seq<nat>, pos: nat, age: int): seq<nat> {
    if queue == [] then [pos]
    else if age > queue[0] then [pos] + queue
    else [queue[0]] + AgeInsert(queue[1..], pos, age)
  }

  function Turn(start: nat, i: nat, n: nat): (pos: nat)
    requires n > 0
    ensures pos < n
  {
    (i + start) % n
  }

  /** `BuildAgeQueue` after `i` of its rounds. */
  function AgeQueue(ages: seq<int>, start: nat, i: nat): seq<nat>
    requires |ages| > 0
  {
    if i == 0 then []
    else
      var pos := Turn(start, i - 1, |ages|);
      var queue := AgeQueue(ages, start, i - 1);
      if ages[pos] > 0 then AgeInsert(queue, pos, ages[pos]) else queue
  }

  ghost predicate Distinct(queue: seq<nat>) {
    forall i, j :: 0 <= i < j < |queue| ==> queue[i] != queue[j]
  }

  lemma {:induction false} AgeInsertAdds(queue: seq<nat>, pos: nat, age: int)
    requires Distinct(queue) && pos !in queue
    ensures Distinct(AgeInsert(queue, pos, age))
    ensures forall q: nat :: q in AgeInsert(queue, pos, age) <==> q in queue || q == pos
  {
    if queue == [] {
    } else if age > queue[0] {
    } else {
      AgeInsertAdds(queue[1..], pos, age);
      var rest := AgeInsert(queue[1..], pos, age);
      assert queue == [queue[0]] + queue[1..];
      assert queue[0] !in queue[1..];
      assert Distinct([queue[0]] + rest);
    }
  }

  /** The round in which position `pos` comes up. */
  function Round(start: nat, pos: nat, n: nat): nat
    requires start < n && pos < n
  {
    if pos >= start then pos - start else pos + n - start
  }

  lemma TurnRound(start: nat, i: nat, n: nat)
    requires start < n && i < n
    ensures Turn(start, i, n) == if i + start < n then i + start else i + start - n
    ensures Round(start, Turn(start, i, n), n) == i
  {
    WrapOnce(i + start, n);
  }

  /** The queue after `i` rounds holds exactly the positive positions that came up, each once. */
  lemma {:induction false} AgeQueueHolds(ages: seq<int>, start: nat, i: nat)
    requires start < |ages| && i <= |ages|
    ensures Distinct(AgeQueue(ages, start, i))
    ensures forall q: nat :: q in AgeQueue(ages, start, i) <==> q < |ages| && ages[q] > 0 && Round(start, q, |ages|) < i
  {
    hide AgeInsert, Turn;
    if i > 0 {
      AgeQueueHolds(ages, start, i - 1);
      TurnRound(start, i - 1, |ages|);
      var pos := Turn(start, i - 1, |ages|);
      forall q: nat | q < |ages| && Round(start, q, |ages|) == i - 1 ensures q == pos {
        RoundTurn(start, q, |ages|);
      }
      if ages[pos] > 0 {
        AgeInsertAdds(AgeQueue(ages, start, i - 1), pos, ages[pos]);
      }
    }
  }

  lemma RoundTurn(start: nat, pos: nat, n: nat)
    requires start < n && pos < n
    ensures Round(start, pos, n) < n && Turn(start, Round(start, pos, n), n) == pos
  {
    WrapOnce(Round(start, pos, n) + start, n);
  }

  /** Every link or quadrant with something to send is in the queue exactly once, and no other is. */
  lemma EveryoneInTurn(ages: seq<int>, start: nat)
    requires start < |ages|
    ensures var queue := AgeQueue(ages, start, |ages|);
      Distinct(queue) && forall q: nat :: q in queue <==> q < |ages| && ages[q] > 0
  {
    hide AgeQueue;
    AgeQueueHolds(ages, start, |ages|);
  }
}

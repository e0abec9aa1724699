/** `HMCMemorySystem`: the memory cube with its queues updated in place, on top of the vault controllers. Each
    operation is proved to do what the functions of `CubeSystem` say. */
module Hmc {
  import opened DramTypes
  import opened Counting
  import opened Division
  import opened BitFields
  import opened DramConfig
  import opened Scheduler
  import opened Turns
  import opened Runs
  import opened Outstanding
  import opened Controllers
  import opened DramSystem
  import opened Crossbar
  import opened Cube
  import opened CubeSystem

  // ---- inserting in the middle, one comparison at a time --------------------------------------------------

  lemma {:induction false} AgeInsertAt(queue: seq<nat>, pos: nat, age: int, j: nat)
    requires j <= |queue| && (forall m :: 0 <= m < j ==> age <= queue[m]) && (j < |queue| ==> age > queue[j])
    ensures AgeInsert(queue, pos, age) == queue[..j] + [pos] + queue[j..]
  {
    if j > 0 {
      AgeInsertAt(queue[1..], pos, age, j - 1);
      assert queue == [queue[0]] + queue[1..];
    }
  }

  class HMCMemorySystem {
    const p: Params
    const k: Clocks
    const dram: BaseDRAMSystem
    var logicClk: nat
    var logicPs: nat
    var dramPs: nat
    var nextLink: nat
    var table: seq<Response>
    var linkReq: seq<seq<Request>>
    var quadReq: seq<seq<Request>>
    var quadResp: seq<seq<Response>>
    var linkResp: seq<seq<Response>>
    var linkBusy: seq<int>
    var quadBusy: seq<int>
    var linkAge: seq<int>
    var quadAge: seq<int>
    /** Numbers the requests, for the record only. */
    var inserted: seq<Request>
    ghost var atVaults: multiset<int>
    ghost var called: seq<Response>
    ghost var trace: seq<Passage>

    ghost function View(): Xbar
      reads this`logicClk, this`nextLink, this`table, this`linkReq, this`quadReq, this`quadResp, this`linkResp
      reads this`linkBusy, this`quadBusy, this`linkAge, this`quadAge, this`inserted, this`atVaults, this`called
      reads this`trace
    {
      Xbar(logicClk, nextLink, table, linkReq, quadReq, quadResp, linkResp, linkBusy, quadBusy, linkAge, quadAge,
           inserted, atVaults, called, trace)
    }

    ghost predicate Wired()
      reads this, dram, dram.footprint
    {
      dram.Valid() && dram.Apart() && this !in dram.footprint && |dram.ctrls| == p.vaults && 0 < p.links && k.Valid()
        && dram.clk >= 0
    }

    ghost function State(): System
      requires Wired()
      reads this, dram, dram.footprint
    {
      System(View(), dram.States(), dram.clk, logicPs, dramPs)
    }

    ghost predicate Valid()
      reads this, dram, dram.footprint
    {
      Wired() && SystemOk(dram.c, p, State())
    }

    constructor (config: Config, links: nat, depth: nat, channels: nat, clocks: Clocks)
      requires config.Valid() && Pow2(config.layout.ch.width) <= channels && links > 0 && clocks.Valid()
      ensures Valid() && p == Params(links, depth, channels) && k == clocks && dram.c == config
      ensures State() == Start(config, p)
    {
      hide SystemOk, Initial, Pow2;
      p, k := Params(links, depth, channels), clocks;
      dram := new BaseDRAMSystem(config, channels);
      logicClk, logicPs, dramPs, nextLink := 0, 0, 0, 0;
      table, inserted, atVaults, called, trace := [], [], multiset{}, [], [];
      linkReq, linkResp := seq(links, _ => []), seq(links, _ => []);
      quadReq, quadResp := seq(QUADS, _ => []), seq(QUADS, _ => []);
      linkBusy, linkAge := seq(links, _ => 0), seq(links, _ => 0);
      quadBusy, quadAge := seq(QUADS, _ => 0), seq(QUADS, _ => 0);
      new;
      StartOk(config, p);
      assert dram.States() == Start(config, p).vs;
    }

    // ---- requests arriving ----------------------------------------------------------------------------------

    method IterateNextLink()
      requires p.links > 0
      modifies this`nextLink
      ensures nextLink == LinkAfter(p, old(nextLink))
    {
      nextLink := (nextLink + 1) % p.links;
    }

    method InsertReqToLink(req: Request, link: nat) returns (ok: bool)
      requires Shape(p, View()) && link < p.links
      modifies this`linkReq, this`table, this`linkAge, this`inserted
      ensures ok == (|old(linkReq)[link]| < p.depth)
      ensures View() == if ok then Crossbar.InsertAt(p, old(View()), req, link) else old(View())
    {
      if |linkReq[link]| < p.depth {
        var taken := req.(link := link);
        linkReq := linkReq[link := linkReq[link] + [taken]];
        table := table + [Response(req.addr, req.readReply, link, req.quad, req.replyFlits, 0, |inserted|)];
        linkAge := linkAge[link := 1];
        inserted := inserted + [taken];
        return true;
      } else {
        return false;
      }
    }

    /** The first link with room takes the request; it is refused only when every link is full. */
    method InsertHMCReq(req: Request) returns (ok: bool)
      requires Shape(p, View())
      modifies this`linkReq, this`table, this`linkAge, this`inserted, this`nextLink
      ensures ok == FirstRoom(p, old(View()), 0).Some? && View() == Insert(p, old(View()), req)
    {
      hide Crossbar.InsertAt, LinkAt, FirstRoom, LinkAfter;
      ghost var x := View();
      RoomStep(p, x, 0);
      NextTurn(p, x, 0);
      ok := InsertReqToLink(req, nextLink);
      if !ok {
        var startLink := nextLink;
        IterateNextLink();
        ghost var j := 1;
        while startLink != nextLink
          invariant 1 <= j <= p.links && nextLink == LinkAt(p, x, j) && startLink == x.nextLink
          invariant FirstRoom(p, x, j) == FirstRoom(p, x, 0) && View() == x.(nextLink := nextLink)
          decreases p.links - j
        {
          LinkOnlyOnce(p, x, j);
          NextTurn(p, x, j);
          RoomStep(p, x, j);
          InsertAtKeepsLink(p, x, req, nextLink, nextLink);
          ok := InsertReqToLink(req, nextLink);
          IterateNextLink();
          if ok {
            return true;
          }
          j := j + 1;
        }
        LinkOnlyOnce(p, x, j);
        NoRoomLeft(p, x);
        return false;
      } else {
        IterateNextLink();
        return true;
      }
    }

    /** Some link has room. */
    method WillAcceptTransaction() returns (insertable: bool)
      requires Shape(p, View())
      ensures insertable == FirstRoom(p, View(), 0).Some?
    {
      insertable := false;
      var i := 0;
      while i < p.links && !insertable
        invariant 0 <= i <= p.links
        invariant insertable ==> i < p.links && |linkReq[i]| < p.depth
        invariant !insertable ==> forall m :: 0 <= m < i ==> |linkReq[m]| >= p.depth
        decreases p.links - i, !insertable
      {
        if |linkReq[i]| < p.depth {
          insertable := true;
        } else {
          i := i + 1;
        }
      }
      if insertable {
        RoomIsFound(p, View(), i);
      }
    }

    // ---- turns ----------------------------------------------------------------------------------------------

    /** `BuildAgeQueue`: the positions with a positive counter. */
    method BuildAgeQueue(ages: seq<int>) returns (queue: seq<nat>)
      requires |ages| > 0
      ensures queue == AgeQueue(ages, logicClk % |ages|, |ages|)
    {
      hide AgeInsert;
      queue := [];
      var n := |ages|;
      var start := logicClk % n;
      var i := 0;
      while i < n
        invariant 0 <= i <= n && queue == AgeQueue(ages, start, i)
      {
        var pos := (i + start) % n;
        assert pos == Crossbar.Turn(start, i, n);
        if ages[pos] > 0 {
          var j := 0;
          while j < |queue| && ages[pos] <= queue[j]
            invariant 0 <= j <= |queue| && forall m :: 0 <= m < j ==> ages[pos] <= queue[m]
          {
            j := j + 1;
          }
          AgeInsertAt(queue, pos, ages[pos], j);
          queue := queue[..j] + [pos] + queue[j..];
        }
        i := i + 1;
      }
    }

    /** The crossbar works off what it is busy with. */
    method CoolAll(busy: seq<int>) returns (r: seq<int>)
      ensures r == Cool(busy)
    {
      r := busy;
      var i := 0;
      while i < |r|
        invariant 0 <= i <= |r| == |busy|
        invariant forall j :: 0 <= j < i ==> r[j] == Cool(busy)[j]
        invariant forall j :: i <= j < |r| ==> r[j] == busy[j]
      {
        if r[i] > 0 {
          r := r[i := r[i] - 2];
        }
        i := i + 1;
      }
    }

    // ---- requests crossing ----------------------------------------------------------------------------------

    method MoveRequestFrom(src: nat)
      requires Shape(p, View()) && src < p.links && linkReq[src] != [] && linkReq[src][0].quad < QUADS
      modifies this`linkReq, this`linkAge, this`quadReq, this`quadBusy, this`trace
      ensures View() == MoveRequest(p, old(View()), src)
    {
      var destQuad := linkReq[src][0].quad;
      if |quadReq[destQuad]| < p.depth && quadBusy[destQuad] <= 0 {
        var req := linkReq[src][0];
        linkReq := linkReq[src := linkReq[src][1..]];
        req := req.(exitTime := logicClk + req.flits);
        quadReq := quadReq[destQuad := quadReq[destQuad] + [req]];
        trace := trace + [Crossed(req, logicClk)];
        quadBusy := quadBusy[destQuad := req.flits];
        linkAge := linkAge[src := if linkReq[src] == [] then 0 else 1];
      } else {
        linkAge := linkAge[src := linkAge[src] + 1];
      }
    }

    method CrossRequests()
      requires XbarOk(p, View())
      modifies this`linkReq, this`linkAge, this`quadReq, this`quadBusy, this`trace
      ensures View() == Cube.CrossRequests(p, old(View()))
    {
      hide XbarOk, AgeQueue, MoveRequest, InTurn, Cool;
      OkShape(p, View());
      ghost var x0 := View();
      quadBusy := CoolAll(quadBusy);
      ghost var x := View();
      CoolShape(x0.quadBusy);
      OkElsewhere(p, x0, x);
      TurnsOk(linkAge, linkReq, logicClk);
      var ageQueue := BuildAgeQueue(linkAge);
      ghost var queue, i := ageQueue, 0;
      PrefixInTurn(linkReq, queue, 0);
      while ageQueue != []
        invariant 0 <= i <= |queue| && ageQueue == queue[i..] && InTurn(x.linkReq, queue)
        invariant InTurn(x.linkReq, queue[..i])
        invariant View() == MoveRequests(p, x, queue[..i])
      {
        var srcLink := ageQueue[0];
        PrefixInTurn(x.linkReq, queue, i + 1);
        OneMoreRequest(p, x, queue, i);
        MoveRequestFrom(srcLink);
        ageQueue, i := ageQueue[1..], i + 1;
      }
      assert queue[..i] == queue;
    }

    // ---- responses crossing ---------------------------------------------------------------------------------

    method MoveResponseFrom(src: nat)
      requires Shape(p, View()) && src < QUADS && quadResp[src] != [] && quadResp[src][0].link < p.links
      modifies this`quadResp, this`quadAge, this`linkResp, this`linkBusy, this`trace
      ensures View() == MoveResponse(p, old(View()), src)
    {
      var destLink := quadResp[src][0].link;
      if |linkResp[destLink]| < p.depth && linkBusy[destLink] <= 0 {
        var resp := quadResp[src][0];
        quadResp := quadResp[src := quadResp[src][1..]];
        resp := resp.(exitTime := logicClk + resp.flits);
        linkResp := linkResp[destLink := linkResp[destLink] + [resp]];
        trace := trace + [Sent(resp, logicClk)];
        linkBusy := linkBusy[destLink := resp.flits];
        quadAge := quadAge[src := if |quadResp[src]| == 0 then 0 else 1];
      } else {
        quadAge := quadAge[src := quadAge[src] + 1];
      }
    }

    /** The responses whose time has come go to the CPU, one per link. */
    method AnswerCpu()
      requires XbarOk(p, View())
      modifies this`linkResp, this`called, this`trace
      ensures View() == ToCpus(p, old(View()), p.links)
    {
      hide XbarOk;
      ghost var x := View();
      OkShape(p, x);
      var i := 0;
      while i < p.links
        invariant 0 <= i <= p.links && View() == ToCpus(p, x, i)
      {
        OkShape(p, View());
        if linkResp[i] != [] {
          var resp := linkResp[i][0];
          if resp.exitTime <= logicClk {
            called := called + [resp];
            trace := trace + [Delivered(resp, logicClk)];
            linkResp := linkResp[i := linkResp[i][1..]];
          }
        }
        i := i + 1;
      }
    }

    method CrossResponses(ghost x: Xbar)
      requires XbarOk(p, View()) && View() == x && InTurn(x.quadResp, AgeQueue(x.quadAge, x.logicClk % QUADS, QUADS))
      modifies this`quadResp, this`quadAge, this`linkResp, this`linkBusy, this`trace
      ensures View() == MoveResponses(p, x, AgeQueue(x.quadAge, x.logicClk % QUADS, QUADS))
    {
      hide XbarOk, AgeQueue, MoveResponse, InTurn;
      OkShape(p, View());
      var ageQueue := BuildAgeQueue(quadAge);
      ghost var queue, i := ageQueue, 0;
      PrefixInTurn(x.quadResp, queue, 0);
      while ageQueue != []
        invariant 0 <= i <= |queue| && ageQueue == queue[i..] && InTurn(x.quadResp, queue)
        invariant InTurn(x.quadResp, queue[..i])
        invariant View() == MoveResponses(p, x, queue[..i])
      {
        var srcQuad := ageQueue[0];
        PrefixInTurn(x.quadResp, queue, i + 1);
        OneMoreResponse(p, x, queue, i);
        MoveResponseFrom(srcQuad);
        ageQueue, i := ageQueue[1..], i + 1;
      }
      assert queue[..i] == queue;
    }

    method DrainResponses()
      requires XbarOk(p, View())
      modifies this`quadResp, this`quadAge, this`linkResp, this`linkBusy, this`called, this`trace
      ensures View() == Cube.DrainResponses(p, old(View()))
    {
      hide XbarOk, AgeQueue, ToCpus, MoveResponses, InTurn, Cool;
      OkShape(p, View());
      AnswerCpu();
      ghost var x1 := View();
      OkShape(p, x1);
      linkBusy := CoolAll(linkBusy);
      CoolShape(x1.linkBusy);
      ghost var x2 := View();
      OkElsewhere(p, x1, x2);
      TurnsOk(x2.quadAge, x2.quadResp, x2.logicClk);
      CrossResponses(x2);
    }

    // ---- to and from the vaults -----------------------------------------------------------------------------

    /** The head of quadrant `q` leaves. */
    method TakeHead(q: nat)
      requires Shape(p, View()) && q < QUADS && quadReq[q] != []
      modifies this`quadReq, this`atVaults, this`trace
      ensures View() == ToVault(p, old(View()), q)
    {
      var req := quadReq[q][0];
      quadReq := quadReq[q := quadReq[q][1..]];
      atVaults := atVaults + multiset{req.addr};
      trace := trace + [Handed(req, logicClk)];
    }

    /** The head of quadrant `q` goes to its vault if everything allows it. */
    method FeedFrom(q: nat)
      requires Valid() && q < QUADS
      modifies this`quadReq, this`atVaults, this`trace, dram.footprint
      ensures Wired() && dram.clk == old(dram.clk)
      ensures var x, vs := old(View()), old(dram.States());
        OkFed(dram.c, p, x, vs, q, View(), dram.States())
    {
      hide XbarOk, Good, Matched, Scheduler.AddTransaction, Scheduler.WillAcceptTransaction, Controller.State,
           Controller.Repr, ToVault;
      OkShape(p, View());
      ghost var vs := dram.States();
      if quadReq[q] != [] && |quadResp[q]| < p.depth {
        var req := quadReq[q][0];
        if req.exitTime <= logicClk {
          HeadRouted(p, View(), q);
          var ok := dram.InsertAt(req.vault, req.addr, req.isWrite, req.data);
          if ok {
            assert dram.States() == FeedVault(dram.c, vs, req);
            TakeHead(q);
          } else {
            assert dram.States() == vs;
          }
        }
      }
    }

    method FeedVaults()
      requires Valid()
      modifies this`quadReq, this`atVaults, this`trace, dram.footprint
      ensures Wired() && dram.clk == old(dram.clk)
      ensures (View(), dram.States()) == Feed(dram.c, p, old(View()), old(dram.States()), dram.clk, QUADS)
    {
      hide CubeOk, BaseDRAMSystem.Valid, CanFeed, OkFed;
      ghost var x, vs := View(), dram.States();
      var i := 0;
      while i < QUADS
        invariant 0 <= i <= QUADS && Wired() && dram.clk == old(dram.clk) && this.logicPs == old(logicPs)
        invariant this.dramPs == old(dramPs)
        invariant (View(), dram.States()) == Feed(dram.c, p, x, vs, dram.clk, i)
      {
        OneMoreFed(dram.c, p, x, vs, dram.clk, i);
        FeedFrom(i);
        i := i + 1;
      }
    }

    method DrainRequests()
      requires Valid()
      modifies this`linkReq, this`linkAge, this`quadReq, this`quadBusy, this`atVaults, this`trace, dram.footprint
      ensures Valid() && State() == Requesting(dram.c, p, old(State()))
    {
      hide XbarOk, Good, AllOwed, BaseDRAMSystem.Valid, Feed, Cube.CrossRequests;
      FeedVaults();
      CrossRequests();
    }

    /** `VaultCallback`: the finished address is in the table. */
    method VaultCallback(addr: int)
      requires Shape(p, View()) && var r := Find(table, addr); r.Some? && table[r.value].quad < QUADS
      modifies this`table, this`quadResp, this`quadAge, this`atVaults
      ensures View() == Reply(p, old(View()), addr)
    {
      hide Find, Remove;
      var it := Find(table, addr).value;
      var resp := table[it];
      table := Remove(table, it);
      quadResp := quadResp[resp.quad := quadResp[resp.quad] + [resp]];
      quadAge := quadAge[resp.quad := 1];
      atVaults := atVaults - multiset{addr};
    }

    /** Callback number `i` of `due`. */
    method AnswerOne(addr: int, ghost x: Xbar, ghost due: seq<Transaction>, ghost i: nat)
      requires Shape(p, x) && XbarOk(p, x) && Covered(x, due) && i < |due| && addr == due[i].addr
      requires View() == Replies(p, x, due[..i])
      modifies this`table, this`quadResp, this`quadAge, this`atVaults
      ensures View() == Replies(p, x, due[..i + 1])
    {
      hide XbarOk, Covered, Reply, Replies, Find;
      OneMoreReply(p, x, due, i);
      VaultCallback(addr);
    }

    /** The callbacks of one vault, each answered as it comes. */
    method CallBackVault(ctrl: Controller)
      requires ctrl.Valid() && this !in ctrl.Repr() && XbarOk(p, View()) && Covered(View(), Due(ctrl.returnQ, ctrl.clk))
      modifies ctrl`returnQ, ctrl`rec, this`table, this`quadResp, this`quadAge, this`atVaults
      ensures ctrl.Returned() && ctrl.State() == ReturnDone(old(ctrl.State()), ctrl.clk)
      ensures Shape(p, old(View())) && View() == Replies(p, old(View()), Due(old(ctrl.returnQ), ctrl.clk))
    {
      hide Good, ReturnDone, Due, XbarOk, Covered, Replies, Controller.Wired, Controller.Returned, Controller.Valid,
           Controller.State, Shape, View;
      ghost var s, x, due, i := ctrl.State(), View(), Due(ctrl.returnQ, ctrl.clk), 0;
      OkShape(p, x);
      ValidIsWired(ctrl);
      NoReplies(p, x, due);
      var r := ctrl.ReturnDoneTrans(ctrl.clk);
      while r.Some?
        invariant ctrl.Wired() && ReturnDone(ctrl.State(), ctrl.clk) == ReturnDone(s, ctrl.clk)
        invariant r.None? ==> ctrl.State() == ReturnDone(s, ctrl.clk) && i == |due|
        invariant i <= |due| && View() == Replies(p, x, due[..i])
        invariant r.Some? ==> due[i..] == [r.value] + Due(ctrl.returnQ, ctrl.clk)
        decreases |ctrl.returnQ|, r.Some?
      {
        assert due[i] == due[i..][0];
        AnswerOne(r.value.addr, x, due, i);
        assert due[i + 1..] == due[i..][1..];
        i := i + 1;
        r := ctrl.ReturnDoneTrans(ctrl.clk);
      }
      assert due[..i] == due;
      ReturnedWhenDone(ctrl, s);
    }

    /** The first `n` vaults have called back. */
    ghost predicate Midway(x: Xbar, vs: seq<Ctrl>, n: nat)
      reads this, dram, dram.footprint
    {
      && dram.Apart() && |vs| == |dram.ctrls| && n <= |vs| && this !in dram.footprint && Shape(p, x)
      && (forall v :: 0 <= v < |vs| ==> dram.ctrls[v].clk == dram.clk)
      && (forall v :: 0 <= v < n ==> dram.ctrls[v].Returned() && dram.ctrls[v].State() == ReturnDone(vs[v], dram.clk))
      && (forall v :: n <= v < |vs| ==> dram.ctrls[v].Valid() && dram.ctrls[v].State() == vs[v])
      && View() == RepliesAll(p, x, vs, dram.clk, n)
    }

    method CallBackNext(ctrl: Controller, ghost n: nat, ghost x: Xbar, ghost vs: seq<Ctrl>)
      requires Midway(x, vs, n) && n < |vs| && ctrl == dram.ctrls[n] && XbarOk(p, x) && Matched(x, vs)
      modifies ctrl`returnQ, ctrl`rec, this`table, this`quadResp, this`quadAge, this`atVaults
      ensures Midway(x, vs, n + 1)
    {
      hide XbarOk, Matched, ReturnDone, Due, Replies, RepliesAll, Covered, Controller.Valid, Controller.Returned,
           Controller.State, View, Shape;
      VaultsCovered(p, x, vs, dram.clk, n);
      QueueOf(ctrl);
      CallBackVault(ctrl);
    }

    method CallBackVaults()
      requires Valid()
      modifies this`table, this`quadResp, this`quadAge, this`atVaults, dram.footprint
      ensures Midway(old(View()), old(dram.States()), p.vaults) && dram.clk == old(dram.clk)
    {
      hide XbarOk, Matched, Replies, View, Shape, Pow2, SystemOk, Midway;
      ghost var x, vs := View(), dram.States();
      PartsOk(dram.c, p, State());
      OkShape(p, x);
      StartMidway();
      var i := 0;
      while i < |dram.ctrls|
        invariant 0 <= i <= |dram.ctrls| && dram.clk == old(dram.clk) && Midway(x, vs, i)
      {
        CallBackNext(dram.ctrls[i], i, x, vs);
        i := i + 1;
      }
    }

    lemma StartMidway()
      requires Valid()
      ensures Midway(View(), dram.States(), 0)
    {
      hide XbarOk, Matched, Controller.Valid, Controller.State, Pow2;
      OkShape(p, View());
    }

    method DRAMClockTick()
      requires Valid()
      modifies this`table, this`quadResp, this`quadAge, this`atVaults, dram.footprint
      ensures Valid() && State() == DramCycle(dram.c, p, old(State()))
    {
      hide XbarOk, Good, Matched, RepliesAll, ReturnDone, Tick, CycleOf, Ticked, Steppable, Controller.Valid,
           Controller.Returned, Controller.State;
      ghost var x, vs := View(), dram.States();
      forall v | 0 <= v < |vs|
        ensures forall s' :: Ticked(dram.c, ReturnDone(vs[v], dram.clk), s') ==> s' == CycleOf(dram.c, vs[v])
      {
        TickIsCycle(dram.c, vs[v]);
      }
      CallBackVaults();
      assert View() == RepliesAll(p, x, vs, dram.clk, |vs|);
      dram.TickAll();
      dram.clk := dram.clk + 1;
      assert dram.States() == Cycled(dram.c, vs);
      assert (View(), dram.States()) == MemoryCycle(dram.c, p, x, vs, old(dram.clk));
      assert Wired();
      assert State() == DramCycle(dram.c, p, old(State()));
    }

    // ---- the clocks -----------------------------------------------------------------------------------------

    method Respond()
      requires Valid()
      modifies this`quadResp, this`quadAge, this`linkResp, this`linkBusy, this`called, this`trace
      ensures Valid() && State() == Responding(dram.c, p, old(State()))
    {
      hide XbarOk, Good, AllOwed, Cube.DrainResponses, BaseDRAMSystem.Valid;
      DrainResponses();
    }

    method AdvanceLogic()
      requires Valid()
      modifies this`logicPs, this`logicClk
      ensures Valid() && State() == LogicAdvance(k, old(State()))
    {
      hide SystemOk, BaseDRAMSystem.Valid;
      AdvanceOk(dram.c, p, k, State());
      logicPs := logicPs + k.perLogic;
      logicClk := logicClk + 1;
    }

    /** The memory cycle, inside a logic cycle when the two clocks coincide. */
    method FirstCycle()
      requires Valid()
      modifies this, dram.footprint
      ensures Valid() && State() == CubeSystem.FirstCycle(dram.c, p, k, old(State()))
    {
      hide SystemOk, Responding, Requesting, DramCycle, BaseDRAMSystem.Valid, View;
      if dramPs == logicPs {
        Respond();
        DRAMClockTick();
        DrainRequests();
        AdvanceLogic();
      } else {
        DRAMClockTick();
      }
    }

    method LogicCycle()
      requires Valid()
      modifies this, dram.footprint
      ensures Valid() && State() == CubeSystem.LogicCycle(dram.c, p, k, old(State()))
    {
      hide SystemOk, Responding, Requesting, BaseDRAMSystem.Valid, View;
      Respond();
      DrainRequests();
      AdvanceLogic();
    }

    /** One memory cycle and as many logic cycles as fit. */
    method ClockTick()
      requires Valid()
      modifies this, dram.footprint
      ensures Valid() && State() == CubeSystem.ClockTick(dram.c, p, k, old(State()))
    {
      hide SystemOk, CubeSystem.FirstCycle, CubeSystem.LogicCycle, BaseDRAMSystem.Valid, View;
      FirstCycle();
      ghost var s := State();
      while logicPs < dramPs + k.perDram
        invariant Valid() && CatchUp(dram.c, p, k, State()) == CatchUp(dram.c, p, k, s)
        decreases dramPs + k.perDram - logicPs
      {
        LogicCycle();
      }
      ghost var r := State();
      TickEnds(dram.c, p, k, r);
      dramPs := dramPs + k.perDram;
    }

    /** A transaction of one block for the vault its address decodes to. Only block sizes with a packet type are
        possible. */
    method AddTransaction(hex: nat, isWrite: bool, blockSize: nat, data: int) returns (ok: Option<bool>)
      requires Valid()
      modifies this`linkReq, this`table, this`linkAge, this`inserted, this`nextLink
      ensures ok.None? <==> BlockRequest(blockSize, hex, dram.c.layout.Decode(hex).channel, isWrite, data).None?
      ensures ok.None? ==> State() == old(State())
      ensures ok.Some? ==> ok.value == FirstRoom(p, old(View()), 0).Some?
      ensures Valid()
      ensures ok.Some? ==>
        var req := BlockRequest(blockSize, hex, dram.c.layout.Decode(hex).channel, isWrite, data).value;
        State() == StepSystem(dram.c, p, k, old(State()), Arrive(req))
    {
      hide XbarOk, Good, AllOwed, Insert, FirstRoom, BaseDRAMSystem.Valid, Pow2;
      OkShape(p, View());
      DramRoom(dram);
      var vault := dram.GetChannel(hex);
      match BlockRequest(blockSize, hex, vault, isWrite, data)
      case None => return None;
      case Some(req) =>
        InsertOk(p, View(), req);
        InsertFrame(p, View(), req);
        var inserted := InsertHMCReq(req);
        return Some(inserted);
    }
  }

  /** The request packet for one block: data takes one flit for every 16 bytes and a header and tail together. */
  function BlockRequest(blockSize: nat, addr: nat, vault: nat, isWrite: bool, data: int): (r: Option<Request>)
    ensures r.Some? ==> r.value.quad < QUADS && r.value.vault == vault
    ensures r.Some? ==> r.value.addr == addr && r.value.readReply == !isWrite
    ensures r.Some? ==> r.value.isWrite == isWrite && r.value.data == data
    ensures r.Some? && blockSize > 0 ==>
      16 * (if isWrite then r.value.flits else r.value.replyFlits) == blockSize + 16
    ensures r.Some? && blockSize > 0 ==> (if isWrite then r.value.replyFlits else r.value.flits) == 1
  {
    if blockSize !in {0, 32, 64, 128, 256} then None
    else
      var short := if blockSize == 0 then 0 else 1;
      var long := if blockSize == 0 then 0 else blockSize / 16 + 1;
      Some(Request(addr, isWrite, 0, vault % QUADS, vault, if isWrite then long else short, !isWrite,
                   if isWrite then short else long, 0, data))
  }

  /** `SetClockRatio`: the logic layer handles a flit per cycle, and is never slower than the memory. Above a million
      megahertz its period comes out as 0, for which the loop of `ClockTick` would not end. */
  method SetClockRatio(linkWidth: nat, linkSpeed: nat) returns (k: Clocks)
    requires 0 < linkWidth <= 128 && 0 < linkSpeed / (128 / linkWidth)
    ensures k.perDram == 800 && k.perLogic <= 800
    ensures var speed := linkSpeed / (128 / linkWidth);
      && k.perLogic * speed <= 1000000 && (k.perLogic == 800 || (k.perLogic + 1) * speed > 1000000)
      && (k.Valid() <==> speed <= 1000000)
  {
    var cyclesPerFlit := 128 / linkWidth;
    var logicSpeed := linkSpeed / cyclesPerFlit;
    var perLogic := 1000000 / logicSpeed;
    PeriodFits(1000000, logicSpeed);
    if perLogic > 800 {
      MulMonotone(800, perLogic, logicSpeed);
      perLogic := 800;
    }
    k := Clocks(800, perLogic);
  }

  lemma PeriodFits(total: nat, speed: nat)
    requires 0 < speed
    ensures (total / speed) * speed <= total < (total / speed + 1) * speed
    ensures 0 < total / speed <==> speed <= total
  {
    assert total == speed * (total / speed) + total % speed;
    if total / speed > 0 {
      MulMonotone(1, total / speed, speed);
    }
  }

  lemma TickEnds(c: Config, p: Params, k: Clocks, r: System)
    requires SystemOk(c, p, r)
    ensures SystemOk(c, p, r.(dramPs := r.dramPs + k.perDram))
  {
    hide CubeOk;
  }

  lemma DramRoom(dram: BaseDRAMSystem)
    requires dram.Valid()
    ensures Pow2(dram.c.layout.ch.width) <= |dram.ctrls|
  {
    hide Controller.Valid;
  }

  lemma VaultsCovered(p: Params, x: Xbar, vs: seq<Ctrl>, clk: int, n: nat)
    requires Shape(p, x) && XbarOk(p, x) && Matched(x, vs) && n <= |vs|
    ensures RepliesAll(p, x, vs, clk, 0) == x
    ensures n < |vs| ==> var y := RepliesAll(p, x, vs, clk, n);
      && XbarOk(p, y) && Covered(y, Due(vs[n].returnQ, clk))
      && RepliesAll(p, x, vs, clk, n + 1) == Replies(p, y, Due(vs[n].returnQ, clk))
  {
    hide XbarOk, Matched, Replies, Due, Covered, Returned;
    if n < |vs| {
      RepliesAllOk(p, x, vs, clk, n);
      DueIsCovered(RepliesAll(p, x, vs, clk, n), vs, clk, n);
    }
  }

  lemma PartsOk(c: Config, p: Params, s: System)
    requires SystemOk(c, p, s)
    ensures XbarOk(p, s.x) && Matched(s.x, s.vs) && |s.vs| == p.vaults
  {
    hide XbarOk, Matched, AllGood;
  }

  lemma QueueOf(ctrl: Controller)
    ensures ctrl.State().returnQ == ctrl.returnQ && ctrl.State().clk == ctrl.clk
  {
  }

  lemma TickIsCycle(c: Config, s: Ctrl)
    requires Good(c, s)
    ensures forall s' :: Ticked(c, ReturnDone(s, s.clk), s') ==> s' == CycleOf(c, s)
  {
    hide Good, Tick, ReturnDone;
    GoodSteps(c, s);
  }

  lemma ValidIsWired(ctrl: Controller)
    requires ctrl.Valid()
    ensures ctrl.Wired() && Good(ctrl.c, ctrl.State()) && ctrl.State().clk == ctrl.clk
  {
    hide Good;
  }

  lemma ReturnedWhenDone(ctrl: Controller, s: Ctrl)
    requires ctrl.Wired() && Good(ctrl.c, s) && s.clk == ctrl.clk && ctrl.State() == ReturnDone(s, ctrl.clk)
    ensures ctrl.Returned()
  {
    hide Sound, ReturnDone;
    GoodReturns(ctrl.c, s);
  }

  lemma NoReplies(p: Params, x: Xbar, due: seq<Transaction>)
    requires Shape(p, x)
    ensures Replies(p, x, due[..0]) == x && due[0..] == due
  {
  }

  lemma CoveredTake(x: Xbar, due: seq<Transaction>, i: nat)
    requires Covered(x, due) && i <= |due|
    ensures Covered(x, due[..i])
  {
    forall a: int ensures Count(due[..i], AddrOf, a) <= x.atVaults[a] {
      CountAppend(due[..i], due[i..], AddrOf, a);
      assert due[..i] + due[i..] == due;
    }
  }

  /** The next callback finds its entry, and is the next of `Replies`. */
  lemma OneMoreReply(p: Params, x: Xbar, due: seq<Transaction>, i: nat)
    requires Shape(p, x) && XbarOk(p, x) && Covered(x, due) && i < |due|
    ensures var y := Replies(p, x, due[..i]); var r := Find(y.table, due[i].addr);
      && r.Some? && y.table[r.value].quad < QUADS
      && Replies(p, x, due[..i + 1]) == Reply(p, y, due[i].addr)
  {
    hide XbarOk, Reply, Covered, Count;
    var y := Replies(p, x, due[..i]);
    assert due[..i + 1][..i] == due[..i];
    CoveredTake(x, due, i + 1);
    CoveredPrefix(x, due[..i + 1]);
    RepliesOk(p, x, due[..i]);
    ReplyFinds(p, y, due[i].addr);
  }

  /** Quadrant `q` fed its vault, or could not. */
  ghost predicate OkFed(c: Config, p: Params, x: Xbar, vs: seq<Ctrl>, q: nat, y: Xbar, ws: seq<Ctrl>) {
    && Shape(p, x) && q < QUADS
    && (y, ws) == if CanFeed(c, p, x, vs, q) then (ToVault(p, x, q), FeedVault(c, vs, x.quadReq[q][0])) else (x, vs)
  }

  lemma HeadRouted(p: Params, x: Xbar, q: nat)
    requires XbarOk(p, x) && q < QUADS && x.quadReq[q] != []
    ensures x.quadReq[q][0].vault < p.vaults
  {
    hide Count, CountAll;
    assert ReqOk(p, x.quadReq[q][0]);
  }

  lemma OneMoreFed(c: Config, p: Params, x: Xbar, vs: seq<Ctrl>, clk: int, n: nat)
    requires CubeOk(c, p, x, vs, clk) && n < QUADS
    ensures var (y, ws) := Feed(c, p, x, vs, clk, n);
      forall y', ws' :: OkFed(c, p, y, ws, n, y', ws') ==> (y', ws') == Feed(c, p, x, vs, clk, n + 1)
  {
    hide CubeOk, CanFeed;
  }

  lemma CoolShape(busy: seq<int>)
    ensures |Cool(busy)| == |busy|
  {
  }

  lemma PrefixInTurn<T>(queues: seq<seq<T>>, queue: seq<nat>, i: nat)
    requires InTurn(queues, queue) && i <= |queue|
    ensures InTurn(queues, queue[..i])
  {
  }

  /** The next link in turn still has what it had, and its move is the next of `MoveRequests`. */
  lemma OneMoreRequest(p: Params, x: Xbar, queue: seq<nat>, i: nat)
    requires XbarOk(p, x) && InTurn(x.linkReq, queue) && i < |queue|
    requires InTurn(x.linkReq, queue[..i]) && InTurn(x.linkReq, queue[..i + 1])
    ensures var y := MoveRequests(p, x, queue[..i]);
      && Shape(p, y) && queue[i] < p.links && y.linkReq[queue[i]] != [] && y.linkReq[queue[i]][0].quad < QUADS
      && MoveRequests(p, x, queue[..i + 1]) == MoveRequest(p, y, queue[i])
  {
    hide XbarOk, MoveRequest;
    OkShape(p, x);
    var y := MoveRequests(p, x, queue[..i]);
    OkShape(p, y);
    assert queue[..i + 1][..i] == queue[..i];
    TurnsLeft(x.linkReq, queue[..i + 1]);
    MoveRequestOk(p, y, queue[i]);
  }

  lemma OneMoreResponse(p: Params, x: Xbar, queue: seq<nat>, i: nat)
    requires XbarOk(p, x) && InTurn(x.quadResp, queue) && i < |queue|
    requires InTurn(x.quadResp, queue[..i]) && InTurn(x.quadResp, queue[..i + 1])
    ensures var y := MoveResponses(p, x, queue[..i]);
      && Shape(p, y) && queue[i] < QUADS && y.quadResp[queue[i]] != [] && y.quadResp[queue[i]][0].link < p.links
      && MoveResponses(p, x, queue[..i + 1]) == MoveResponse(p, y, queue[i])
  {
    hide XbarOk, MoveResponse;
    OkShape(p, x);
    var y := MoveResponses(p, x, queue[..i]);
    OkShape(p, y);
    assert queue[..i + 1][..i] == queue[..i];
    TurnsLeft(x.quadResp, queue[..i + 1]);
    MoveResponseOk(p, y, queue[i]);
  }

  // ---- round robin -----------------------------------------------------------------------------------------------

  lemma RoomStep(p: Params, x: Xbar, j: nat)
    requires Shape(p, x) && j < p.links
    ensures FirstRoom(p, x, j) ==
      if |x.linkReq[LinkAt(p, x, j)]| < p.depth then Some(LinkAt(p, x, j)) else FirstRoom(p, x, j + 1)
  {
  }

  lemma NoRoomLeft(p: Params, x: Xbar)
    requires Shape(p, x)
    ensures FirstRoom(p, x, p.links).None?
  {
  }

  lemma NextTurn(p: Params, x: Xbar, j: nat)
    requires p.links > 0 && x.nextLink < p.links && j < p.links
    ensures LinkAfter(p, LinkAt(p, x, j)) == LinkAt(p, x, j + 1) && LinkAt(p, x, 0) == x.nextLink
  {
    WrapOnce(x.nextLink, p.links);
    WrapOnce(x.nextLink + j, p.links);
    WrapOnce(LinkAt(p, x, j) + 1, p.links);
    if x.nextLink + j + 1 < p.links + p.links {
      WrapOnce(x.nextLink + j + 1, p.links);
    }
  }

  lemma LinkOnlyOnce(p: Params, x: Xbar, j: nat)
    requires p.links > 0 && x.nextLink < p.links && 1 <= j <= p.links
    ensures LinkAt(p, x, j) == x.nextLink <==> j == p.links
  {
    WrapOnce(x.nextLink + j, p.links);
  }

  lemma InsertAtKeepsLink(p: Params, x: Xbar, req: Request, link: nat, next: nat)
    requires Shape(p, x) && link < p.links && next < p.links
    ensures Crossbar.InsertAt(p, x.(nextLink := next), req, link) ==
      Crossbar.InsertAt(p, x, req, link).(nextLink := next)
  {
  }

  /** Round robin finds room wherever it is. */
  lemma {:induction false} RoomIsFound(p: Params, x: Xbar, i: nat)
    requires Shape(p, x) && i < p.links && |x.linkReq[i]| < p.depth
    ensures FirstRoom(p, x, 0).Some?
  {
    RoundTurn(x.nextLink, i, p.links);
    RoomFrom(p, x, 0, Round(x.nextLink, i, p.links));
  }

  lemma {:induction false} RoomFrom(p: Params, x: Xbar, j: nat, m: nat)
    requires Shape(p, x) && j <= m < p.links && |x.linkReq[LinkAt(p, x, m)]| < p.depth
    ensures FirstRoom(p, x, j).Some?
    decreases m - j
  {
    if j < m {
      RoomFrom(p, x, j + 1, m);
    }
  }
}

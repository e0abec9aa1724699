/** The memory cube and its two clocks: what holds of every run. */
module CubeSystem {
  import opened DramTypes
  import opened Counting
  import opened Division
  import opened DramConfig
  import opened Scheduler
  import opened Turns
  import opened Runs
  import opened Outstanding
  import opened Crossbar
  import opened Cube

  /** Picoseconds per cycle. */
  datatype Clocks = Clocks(perDram: nat, perLogic: nat) {
    predicate Valid() {
      0 < perLogic <= perDram
    }
  }

  datatype System = System(x: Xbar, vs: seq<Ctrl>, clk: nat, logicPs: nat, dramPs: nat)

  ghost predicate SystemOk(c: Config, p: Params, s: System) {
    CubeOk(c, p, s.x, s.vs, s.clk)
  }

  /** The logic layer does one cycle and its clock moves on. */
  function LogicAdvance(k: Clocks, s: System): System {
    s.(x := s.x.(logicClk := s.x.logicClk + 1), logicPs := s.logicPs + k.perLogic)
  }

  lemma AdvanceOk(c: Config, p: Params, k: Clocks, s: System)
    requires SystemOk(c, p, s)
    ensures SystemOk(c, p, LogicAdvance(k, s))
  {
    hide XbarOk, Good, AllOwed;
    OkShape(p, s.x);
    OkElsewhere(p, s.x, LogicAdvance(k, s).x);
  }

  ghost function Responding(c: Config, p: Params, s: System): (r: System)
    requires SystemOk(c, p, s)
    ensures SystemOk(c, p, r) && r == s.(x := r.x) && SameButCalled(s.x, r.x)
  {
    hide XbarOk, Good, AllOwed, DrainResponses;
    s.(x := DrainResponses(p, s.x))
  }

  ghost function Requesting(c: Config, p: Params, s: System): (r: System)
    requires SystemOk(c, p, s)
    ensures SystemOk(c, p, r) && r == s.(x := r.x, vs := r.vs) && SameRecord(s.x, r.x)
  {
    hide XbarOk, Good, AllOwed, DrainRequests;
    var (x, vs) := DrainRequests(c, p, s.x, s.vs, s.clk);
    s.(x := x, vs := vs)
  }

  ghost function DramCycle(c: Config, p: Params, s: System): (r: System)
    requires SystemOk(c, p, s)
    ensures SystemOk(c, p, r) && r == s.(x := r.x, vs := r.vs, clk := s.clk + 1) && SameRecord(s.x, r.x)
  {
    hide XbarOk, Good, AllOwed, MemoryCycle;
    var (x, vs) := MemoryCycle(c, p, s.x, s.vs, s.clk);
    s.(x := x, vs := vs, clk := s.clk + 1)
  }

  /** A logic cycle without a memory cycle in it. */
  ghost function LogicCycle(c: Config, p: Params, k: Clocks, s: System): (r: System)
    requires SystemOk(c, p, s)
    ensures SystemOk(c, p, r) && r.clk == s.clk && r.dramPs == s.dramPs && r.logicPs == s.logicPs + k.perLogic
    ensures r.x.logicClk == s.x.logicClk + 1 && r.x.inserted == s.x.inserted && s.x.called <= r.x.called
  {
    hide SystemOk, Responding, Requesting;
    var r := Requesting(c, p, Responding(c, p, s));
    AdvanceOk(c, p, k, r);
    LogicAdvance(k, r)
  }

  /** The memory cycle, inside a logic cycle when the two clocks coincide. */
  ghost function FirstCycle(c: Config, p: Params, k: Clocks, s: System): (r: System)
    requires SystemOk(c, p, s)
    ensures SystemOk(c, p, r) && r.clk == s.clk + 1 && r.dramPs == s.dramPs
    ensures var n := if s.dramPs == s.logicPs then 1 else 0;
      r.logicPs == s.logicPs + n * k.perLogic && r.x.logicClk == s.x.logicClk + n
    ensures r.x.inserted == s.x.inserted && s.x.called <= r.x.called
  {
    hide SystemOk, Responding, Requesting, DramCycle;
    if s.dramPs == s.logicPs then
      var r := Requesting(c, p, DramCycle(c, p, Responding(c, p, s)));
      AdvanceOk(c, p, k, r);
      LogicAdvance(k, r)
    else DramCycle(c, p, s)
  }

  /** Logic cycles until the logic clock is past the memory cycle. */
  ghost function CatchUp(c: Config, p: Params, k: Clocks, s: System): (r: System)
    requires k.Valid() && SystemOk(c, p, s)
    ensures SystemOk(c, p, r) && r.clk == s.clk && r.dramPs == s.dramPs
    ensures r.x.inserted == s.x.inserted && s.x.called <= r.x.called
    decreases s.dramPs + k.perDram - s.logicPs
  {
    hide SystemOk, LogicCycle;
    if s.logicPs < s.dramPs + k.perDram then CatchUp(c, p, k, LogicCycle(c, p, k, s)) else s
  }

  /** `ClockTick` */
  ghost function ClockTick(c: Config, p: Params, k: Clocks, s: System): (r: System)
    requires k.Valid() && SystemOk(c, p, s)
    ensures SystemOk(c, p, r) && r.clk == s.clk + 1 && r.x.inserted == s.x.inserted && s.x.called <= r.x.called
  {
    hide XbarOk, Good, AllOwed, CatchUp, FirstCycle;
    var r := CatchUp(c, p, k, FirstCycle(c, p, k, s));
    r.(dramPs := r.dramPs + k.perDram)
  }

  // ---- the clocks ---------------------------------------------------------------------------------------------

  /** The logic clock stands at the first logic cycle not before the memory clock. */
  ghost predicate InPhase(k: Clocks, s: System) {
    && s.dramPs == s.clk * k.perDram && s.logicPs == s.x.logicClk * k.perLogic
    && s.dramPs <= s.logicPs < s.dramPs + k.perLogic
  }

  lemma {:induction false} CatchUpInPhase(c: Config, p: Params, k: Clocks, s: System)
    requires k.Valid() && SystemOk(c, p, s) && s.logicPs == s.x.logicClk * k.perLogic
    requires s.logicPs < s.dramPs + k.perDram + k.perLogic
    ensures var r := CatchUp(c, p, k, s);
      && r.logicPs == r.x.logicClk * k.perLogic
      && s.dramPs + k.perDram <= r.logicPs < s.dramPs + k.perDram + k.perLogic
    decreases s.dramPs + k.perDram - s.logicPs
  {
    hide SystemOk, LogicCycle;
    if s.logicPs < s.dramPs + k.perDram {
      CatchUpInPhase(c, p, k, LogicCycle(c, p, k, s));
    }
  }

  lemma TickInPhase(c: Config, p: Params, k: Clocks, s: System)
    requires k.Valid() && SystemOk(c, p, s) && InPhase(k, s)
    ensures InPhase(k, ClockTick(c, p, k, s))
  {
    hide SystemOk, FirstCycle, CatchUp;
    CatchUpInPhase(c, p, k, FirstCycle(c, p, k, s));
  }

  // ---- runs ------------------------------------------------------------------------------------------------------

  datatype Event = Arrive(req: Request) | Advance

  ghost function StepSystem(c: Config, p: Params, k: Clocks, s: System, e: Event): (r: System)
    requires k.Valid() && SystemOk(c, p, s)
    ensures SystemOk(c, p, r)
  {
    hide XbarOk, Good, AllOwed, ClockTick, Insert;
    match e
    case Arrive(req) =>
      if ReqOk(p, req) then
        OkShape(p, s.x);
        InsertOk(p, s.x, req);
        InsertFrame(p, s.x, req);
        s.(x := Insert(p, s.x, req))
      else s
    case Advance => ClockTick(c, p, k, s)
  }

  lemma InsertFrame(p: Params, x: Xbar, req: Request)
    requires Shape(p, x)
    ensures Insert(p, x, req).atVaults == x.atVaults && Insert(p, x, req).logicClk == x.logicClk
  {
  }

  function Start(c: Config, p: Params): System {
    System(Empty(p), seq(p.vaults, _ => Initial(c)), 0, 0, 0)
  }

  lemma {:induction false} NothingOwed(c: Config, n: nat, a: int)
    ensures AllOwed(seq(n, _ => Initial(c)), a) == 0
  {
    hide Owed;
    if n > 0 {
      NothingOwed(c, n - 1, a);
      var vs := seq(n, _ => Initial(c));
      assert vs[..n - 1] == seq(n - 1, _ => Initial(c));
      OwedInitially(c, a);
    }
  }

  lemma StartOk(c: Config, p: Params)
    requires c.Valid() && p.links > 0
    ensures SystemOk(c, p, Start(c, p))
  {
    hide XbarOk, Good, AllOwed;
    EmptyOk(p);
    GoodInitial(c);
    forall a: int ensures AllOwed(Start(c, p).vs, a) == 0 {
      NothingOwed(c, p.vaults, a);
    }
  }

  /** The number of calls of `ClockTick` in a run. */
  ghost function Ticks(es: seq<Event>): nat {
    if es == [] then 0 else Ticks(es[..|es| - 1]) + if es[|es| - 1].Advance? then 1 else 0
  }

  /** The state after a run. */
  ghost function After(c: Config, p: Params, k: Clocks, es: seq<Event>): (r: System)
    requires c.Valid() && p.links > 0 && k.Valid()
    ensures SystemOk(c, p, r)
  {
    hide SystemOk, StepSystem;
    if es == [] then
      StartOk(c, p);
      Start(c, p)
    else StepSystem(c, p, k, After(c, p, k, es[..|es| - 1]), es[|es| - 1])
  }

  /** After `n` ticks the logic clock shows the least multiple of its period not below the memory clock. */
  lemma {:induction false} AlwaysInPhase(c: Config, p: Params, k: Clocks, es: seq<Event>)
    requires c.Valid() && p.links > 0 && k.Valid()
    ensures InPhase(k, After(c, p, k, es)) && After(c, p, k, es).clk == Ticks(es)
  {
    hide SystemOk, ClockTick, Insert;
    if es != [] {
      var s := After(c, p, k, es[..|es| - 1]);
      AlwaysInPhase(c, p, k, es[..|es| - 1]);
      match es[|es| - 1]
      case Arrive(req) =>
        ShapeOf(c, p, s);
        InsertFrame(p, s.x, req);
      case Advance => TickInPhase(c, p, k, s);
    }
  }

  lemma ShapeOf(c: Config, p: Params, s: System)
    requires SystemOk(c, p, s)
    ensures Shape(p, s.x)
  {
    hide XbarOk;
    OkShape(p, s.x);
  }

  /** Exactly the least whole number of logic cycles that covers `n` memory cycles has run. */
  lemma LogicCycles(c: Config, p: Params, k: Clocks, es: seq<Event>)
    requires c.Valid() && p.links > 0 && k.Valid()
    ensures After(c, p, k, es).x.logicClk == (Ticks(es) * k.perDram + k.perLogic - 1) / k.perLogic
  {
    hide After, Ticks;
    AlwaysInPhase(c, p, k, es);
    var s := After(c, p, k, es);
    DivideUnique(Ticks(es) * k.perDram + k.perLogic - 1, k.perLogic, s.x.logicClk);
  }

  /** For every address, table entries are exactly the requests on links, in quadrants and owed by vaults. */
  lemma TableBalance(c: Config, p: Params, k: Clocks, es: seq<Event>, a: int)
    requires c.Valid() && p.links > 0 && k.Valid()
    ensures var s := After(c, p, k, es);
      Count(s.x.table, RespAddr, a) ==
        CountAll(s.x.linkReq, ReqAddr, a) + CountAll(s.x.quadReq, ReqAddr, a) + AllOwed(s.vs, a)
  {
    hide After, Count, CountAll, AllOwed, Good, Routed, AgesOk, Shape;
    var s := After(c, p, k, es);
    assert SystemOk(c, p, s);
    assert Balanced(s.x) && Matched(s.x, s.vs);
  }

  /** Every accepted request has exactly one response, so it is called back at most once, with its own address
      and on its own link. */
  lemma OneCallbackEach(c: Config, p: Params, k: Clocks, es: seq<Event>, id: nat)
    requires c.Valid() && p.links > 0 && k.Valid()
    ensures var x := After(c, p, k, es).x;
      Count(x.called, RespId, id) <= if id < |x.inserted| then 1 else 0
    ensures var x := After(c, p, k, es).x;
      Count(x.table, RespId, id) + CountAll(x.quadResp, RespId, id) + CountAll(x.linkResp, RespId, id) +
        Count(x.called, RespId, id)
      == if id < |x.inserted| then 1 else 0
    ensures var x := After(c, p, k, es).x; AllFor(p, x.inserted, x.called)
  {
    hide After, Count, CountAll, AllOwed, Good, AgesOk, Shape, RespOk;
    var s := After(c, p, k, es);
    assert SystemOk(c, p, s);
    assert Responses(s.x, id) == if id < |s.x.inserted| then 1 else 0;
  }

  /** Whatever a vault calls back has an entry in the table, so the look-up never fails. */
  lemma CallbacksFind(c: Config, p: Params, k: Clocks, es: seq<Event>, a: int)
    requires c.Valid() && p.links > 0 && k.Valid() && AllOwed(After(c, p, k, es).vs, a) > 0
    ensures Find(After(c, p, k, es).x.table, a).Some?
  {
    hide After, XbarOk, AllOwed, Good;
    var s := After(c, p, k, es);
    assert SystemOk(c, p, s);
    ReplyFinds(p, s.x, a);
  }

  /** An age counter is positive exactly when its queue has a front. */
  lemma AgesTell(c: Config, p: Params, k: Clocks, es: seq<Event>)
    requires c.Valid() && p.links > 0 && k.Valid()
    ensures var x := After(c, p, k, es).x; AgesOk(x.linkAge, x.linkReq) && AgesOk(x.quadAge, x.quadResp)
  {
    hide After, XbarOk, AllOwed, Good;
    assert SystemOk(c, p, After(c, p, k, es));
    OkShape(p, After(c, p, k, es).x);
  }
}

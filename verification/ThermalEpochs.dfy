/** How the number of steps per epoch is chosen, and what it buys: epochs of any number keep temperatures in range. */
module ThermalEpochs {
  import opened ThermalMatrix
  import opened ThermalAssembly
  import opened ThermalStep

  /** The step is no longer than any diagonal entry allows. */
  ghost predicate Allowed(v: Env, cells: nat, dt: real)
    requires v.Fits(cells)
  {
    forall k :: 0 <= k < |v.entries| && v.entries[k].row == v.entries[k].col ==> DiagonalAllows(v, cells, k, dt)
  }

  ghost predicate DiagonalAllows(v: Env, cells: nat, k: nat, dt: real)
    requires v.Fits(cells) && k < |v.entries|
  {
    assert v.EntryFits(v.entries[k], cells);
    v.entries[k].val > 0.0 && dt <= v.cap[v.entries[k].row / v.plane] / v.entries[k].val
  }

  /** Capacity over diagonal entry `k` is `dt`. */
  ghost predicate DiagonalGives(v: Env, cells: nat, k: nat, dt: real)
    requires v.Fits(cells)
  {
    && k < |v.entries| && v.entries[k].row == v.entries[k].col && v.entries[k].val > 0.0
    && assert v.EntryFits(v.entries[k], cells);
       dt == v.cap[v.entries[k].row / v.plane] / v.entries[k].val
  }

  lemma QuotientPositive(c: real, g: real)
    requires c > 0.0 && g > 0.0
    ensures c / g > 0.0
  {
  }

  /** The first loop of `calculate_time_step`: the least capacity over conductance, at most 100 seconds. */
  method MaximumStep(v: Env, ghost cells: nat) returns (dt: real)
    requires v.Fits(cells)
    requires forall k :: 0 <= k < |v.entries| && v.entries[k].row == v.entries[k].col ==> v.entries[k].val > 0.0
    ensures 0.0 < dt <= 100.0 && Allowed(v, cells, dt)
    ensures dt == 100.0 || exists k: nat :: DiagonalGives(v, cells, k, dt)
  {
    dt := 100.0;
    var j := 0;
    while j < |v.entries|
      invariant 0 <= j <= |v.entries| && 0.0 < dt <= 100.0
      invariant forall k :: 0 <= k < j && v.entries[k].row == v.entries[k].col ==> DiagonalAllows(v, cells, k, dt)
      invariant dt == 100.0 || exists k: nat :: DiagonalGives(v, cells, k, dt)
    {
      var e := v.entries[j];
      assert v.EntryFits(e, cells);
      if e.row == e.col {
        var c := v.cap[e.row / v.plane];
        QuotientPositive(c, e.val);
        if c / e.val < dt {
          dt := c / e.val;
          assert DiagonalGives(v, cells, j, dt);
        }
      }
      j := j + 1;
    }
  }

  /** The second loop: steps per epoch, from ten upwards, until one is short enough. */
  method StepsPerEpoch(epoch: real, dt: real) returns (iter: nat)
    requires epoch >= 0.0 && dt > 0.0
    ensures iter >= 10 && epoch / (iter as real) < dt
    ensures iter > 10 ==> epoch / ((iter - 1) as real) >= dt
  {
    iter := 10;
    ghost var enough := (epoch / dt).Floor + 1;
    while epoch / (iter as real) >= dt
      invariant iter >= 10 && (iter > 10 ==> epoch / ((iter - 1) as real) >= dt)
      decreases enough - iter
    {
      NotEnough(epoch, dt, iter as real);
      iter := iter + 1;
    }
  }

  lemma NotEnough(epoch: real, dt: real, n: real)
    requires dt > 0.0 && n > 0.0 && epoch / n >= dt
    ensures n <= epoch / dt
  {
    assert (epoch / n) * n == epoch;
    Scaled(n, dt, epoch / n);
    assert dt * n <= epoch;
    assert (epoch / dt) * dt == epoch;
    if n > epoch / dt {
      ScaledStrictly(dt, epoch / dt, n);
    }
  }

  lemma ScaledStrictly(g: real, x: real, y: real)
    requires g > 0.0 && x < y
    ensures x * g < y * g
  {
    assert (y - x) * g > 0.0;
  }

  lemma {:induction false} ConductanceAtLeast(links: seq<Link>)
    requires forall k :: 0 <= k < |links| ==> links[k].g > 0.0
    ensures Conductance(links) >= 0.0 && (links != [] ==> Conductance(links) > 0.0)
  {
    if links != [] {
      ConductanceAtLeast(links[..|links| - 1]);
    }
  }

  /** Every cell loses heat to something, so every diagonal entry is positive. */
  lemma DiagonalPositive(s: Stack, n: Node)
    requires s.Valid() && s.Has(n)
    ensures Diagonal(s, n).val > 0.0
  {
    forall k | 0 <= k < |Links(s, n)| ensures Links(s, n)[k].g > 0.0 {
      LinksPositive(s, n, k);
    }
    ConductanceAtLeast(Links(s, n));
    OnePositive(s.ramb);
    SomeLink(s, n);
  }

  lemma SomeLink(s: Stack, n: Node)
    requires s.Valid()
    ensures n.l > 0 ==> Links(s, n) != []
  {
  }

  lemma DiagonalsPositive(s: Stack, e: Entry)
    requires s.Valid() && e in Matrix(s) && e.row == e.col
    ensures e.val > 0.0
  {
    hide Stack.Index, Links, RowsBefore, Row, Diagonal;
    var n := EntryHasRow(s, Node(s.layers, 0, 0), e);
    var link := EntryLink(s, n, e);
    DiagonalPositive(s, n);
    if e != Diagonal(s, n) {
      OtherCell(s, n, link);
    }
  }

  lemma AllowedProduct(dt: real, c: real, g: real)
    requires g > 0.0 && dt <= c / g
    ensures Times(g, dt) <= c
  {
    assert (c / g) * g == c;
    Scaled(g, dt, c / g);
  }

  lemma TimesMonotone(g: real, x: real, y: real)
    requires g > 0.0 && x <= y
    ensures Times(g, x) <= Times(g, y)
  {
    Scaled(g, x, y);
  }

  /** A step the diagonal allows is short enough for every cell. */
  lemma AllowedIsStable(s: Stack, v: Env, cells: nat, dt: real)
    requires IsStack(s, v, cells) && v.Fits(cells) && Allowed(v, cells, dt) && 0.0 <= v.dt <= dt
    ensures Stable(s, v)
  {
    hide Stack.Index, Stack.Plane, Stack.Cells, Links, RowsBefore, Row, Conductance, Sink, Times, Env.EntryFits,
         Env.Fits;
    forall n | s.Has(n) ensures Times(Conductance(Links(s, n)) + Sink(s, n), v.dt) <= v.cap[n.l] {
      var d := Diagonal(s, n);
      DiagonalInRow(s, n);
      RowIsThere(s, n, Node(s.layers, 0, 0), d);
      var k :| 0 <= k < |v.entries| && v.entries[k] == d;
      assert DiagonalAllows(v, cells, k, dt);
      LayerOf(s, n);
      AllowedProduct(dt, v.cap[n.l], d.val);
      TimesMonotone(d.val, v.dt, dt);
    }
  }

  lemma DiagonalInRow(s: Stack, n: Node)
    requires s.Valid()
    ensures Diagonal(s, n) in Row(s, n)
  {
    hide LinksBelow, LinksAbove, Diagonal;
    assert Row(s, n)[|LinksBelow(s, n)|] == Diagonal(s, n);
  }

  // ---- epochs -----------------------------------------------------------------------------------------------------

  /** Into every cell flows the ambient term of the heat sink and, if `up`, any power more; otherwise, no more. */
  ghost predicate Flows(s: Stack, power: seq<real>, up: bool, amb: real)
    requires s.Valid()
  {
    forall n :: s.Has(n) && s.Index(n) < |power| ==> Side(up, power[s.Index(n)], Times(Sink(s, n), amb))
  }

  /** No power but the ambient term of the heat sink. */
  ghost predicate Idle(s: Stack, power: seq<real>, amb: real)
    requires s.Valid()
  {
    forall n :: s.Has(n) && s.Index(n) < |power| ==> power[s.Index(n)] == Times(Sink(s, n), amb)
  }

  lemma IdleFlows(s: Stack, power: seq<real>, up: bool, amb: real)
    requires s.Valid() && Idle(s, power, amb)
    ensures Flows(s, power, up, amb)
  {
    hide Times, Stack.Index, Sink;
  }

  lemma FlowsIsPowered(s: Stack, v: Env, up: bool, amb: real)
    requires s.Valid() && Flows(s, v.power, up, amb)
    ensures Powered(s, v, up, amb)
  {
    hide Times, Stack.Index, Sink;
  }

  ghost predicate Between(t: seq<real>, lo: real, hi: real) {
    forall r :: 0 <= r < |t| ==> lo <= t[r] <= hi
  }

  /** Any number of steps of an allowed length keeps temperatures on their side of a bound. */
  lemma StaysBeyond(s: Stack, v: Env, t: seq<real>, n: nat, dt: real, up: bool, bound: real, amb: real)
    requires IsStack(s, v, |t|) && v.Fits(|t|) && Allowed(v, |t|, dt) && 0.0 <= v.dt <= dt
    requires Flows(s, v.power, up, amb) && Beyond(up, t, bound) && Side(up, amb, bound)
    ensures Beyond(up, Iterated(v, t, n), bound)
  {
    hide IsStack, Env.Fits, Allowed, Flows, Stable, Powered, Iterated, Beyond;
    StackIsValid(s, v, |t|);
    AllowedIsStable(s, v, |t|, dt);
    FlowsIsPowered(s, v, up, amb);
    MaximumPrinciple(s, v, t, n, up, bound, amb);
  }

  /** Without power they stay between two bounds that hold the ambient one. */
  lemma StaysBetween(s: Stack, v: Env, t: seq<real>, n: nat, dt: real, lo: real, hi: real, amb: real)
    requires IsStack(s, v, |t|) && v.Fits(|t|) && Allowed(v, |t|, dt) && 0.0 <= v.dt <= dt && Idle(s, v.power, amb)
    requires Between(t, lo, hi) && lo <= amb <= hi
    ensures Between(Iterated(v, t, n), lo, hi)
  {
    hide IsStack, Env.Fits, Allowed, Idle, Flows, Iterated;
    StackIsValid(s, v, |t|);
    IdleFlows(s, v.power, true, amb);
    IdleFlows(s, v.power, false, amb);
    StaysBeyond(s, v, t, n, dt, true, lo, amb);
    StaysBeyond(s, v, t, n, dt, false, hi, amb);
    var u := Iterated(v, t, n);
    forall r | 0 <= r < |u| ensures lo <= u[r] <= hi {
      assert Side(true, u[r], lo) && Side(false, u[r], hi);
    }
  }

  lemma StackIsValid(s: Stack, v: Env, cells: nat)
    requires IsStack(s, v, cells)
    ensures s.Valid() && |v.cap| == s.layers
  {
  }

  /** The stack's matrix and a step its diagonal allows. */
  ghost predicate Prepared(s: Stack, v: Env, cells: nat, dt: real) {
    IsStack(s, v, cells) && v.Fits(cells) && Allowed(v, cells, dt) && 0.0 <= v.dt <= dt
  }

  /** The constructor's part: assemble the matrix and choose the steps of an epoch. */
  method Prepare(s: Stack, cap: seq<real>, epoch: real) returns (v: Env, iter: nat, ghost dt: real)
    requires s.Valid() && |cap| == s.layers && epoch >= 0.0 && forall l :: 0 <= l < |cap| ==> cap[l] > 0.0
    ensures Prepared(s, v, s.Cells(), dt) && v.cap == cap && iter >= 10 && v.dt == epoch / (iter as real)
  {
    hide Allowed, Matrix, Stack.Cells, Env.Fits, Times, DiagonalGives;
    var midx := CalculateMidx(s);
    var entries := midx[..];
    var none := seq(s.Cells(), _ => 0.0);
    v := Env(entries, cap, s.Plane(), none, 0.0);
    StackFits(s, v, s.Cells());
    forall k | 0 <= k < |entries| && entries[k].row == entries[k].col ensures entries[k].val > 0.0 {
      DiagonalsPositive(s, entries[k]);
    }
    var longest := MaximumStep(v, s.Cells());
    iter := StepsPerEpoch(epoch, longest);
    dt := longest;
    v := v.(dt := epoch / (iter as real));
    StackFits(s, v, s.Cells());
    SameAllowed(v.(dt := 0.0), v, s.Cells(), dt);
    NotNegative(epoch, iter as real);
  }

  /** The power map of an epoch is given to the solver; nothing else changes. */
  lemma GivenPower(s: Stack, v: Env, cells: nat, dt: real, power: seq<real>)
    requires Prepared(s, v, cells, dt) && |power| == cells
    ensures Prepared(s, v.(power := power), cells, dt)
  {
    hide Matrix, Stack.Cells, Allowed, Env.Fits;
    var w := v.(power := power);
    StackFits(s, w, cells);
    SameAllowed(v, w, cells, dt);
  }

  /** Any number of epochs, each with its own power. With power in every epoch at least the ambient term of the heat
      sink, temperatures never fall below a bound that holds the initial and the ambient ones from below; with power at
      most that term, they never rise above one that holds them from above. */
  method RunEpochs(s: Stack, cap: seq<real>, powers: seq<seq<real>>, start: array<real>, epoch: real,
                   ghost up: bool, ghost bound: real, ghost amb: real) returns (temps: array<real>)
    requires s.Valid() && |cap| == s.layers && start.Length == s.Cells() && epoch >= 0.0
    requires forall l :: 0 <= l < |cap| ==> cap[l] > 0.0
    requires forall k :: 0 <= k < |powers| ==> |powers[k]| == s.Cells() && Flows(s, powers[k], up, amb)
    requires Beyond(up, start[..], bound) && Side(up, amb, bound)
    modifies start
    ensures temps.Length == start.Length && Beyond(up, temps[..], bound)
  {
    hide Flows, Allowed, Iterated, IsStack, Stack.Cells, Env.Fits, Beyond, Side;
    var v, iter;
    ghost var dt;
    v, iter, dt := Prepare(s, cap, epoch);
    temps := start;
    var i := 0;
    while i < |powers|
      invariant 0 <= i <= |powers| && temps.Length == start.Length && (fresh(temps) || temps == start)
      invariant Beyond(up, temps[..], bound)
    {
      GivenPower(s, v, s.Cells(), dt, powers[i]);
      StaysBeyond(s, v.(power := powers[i]), temps[..], iter, dt, up, bound, amb);
      temps := Transient(v.(power := powers[i]), temps, iter);
      i := i + 1;
    }
  }

  /** Any number of epochs without power. */
  method RunIdle(s: Stack, cap: seq<real>, power: seq<real>, start: array<real>, epoch: real, epochs: nat,
                 ghost lo: real, ghost hi: real, ghost amb: real) returns (temps: array<real>)
    requires s.Valid() && |cap| == s.layers && start.Length == |power| == s.Cells() && epoch >= 0.0
    requires forall l :: 0 <= l < |cap| ==> cap[l] > 0.0
    requires Idle(s, power, amb) && Between(start[..], lo, hi) && lo <= amb <= hi
    modifies start
    ensures temps.Length == start.Length && Between(temps[..], lo, hi)
  {
    hide Idle, Allowed, Iterated, IsStack, Stack.Cells, Env.Fits;
    var v, iter;
    ghost var dt;
    v, iter, dt := Prepare(s, cap, epoch);
    GivenPower(s, v, s.Cells(), dt, power);
    v := v.(power := power);
    temps := start;
    var i := 0;
    while i < epochs
      invariant 0 <= i <= epochs && temps.Length == start.Length && (fresh(temps) || temps == start)
      invariant Between(temps[..], lo, hi)
    {
      StaysBetween(s, v, temps[..], iter, dt, lo, hi, amb);
      temps := Transient(v, temps, iter);
      i := i + 1;
    }
  }

  lemma NotNegative(a: real, b: real)
    requires a >= 0.0 && b > 0.0
    ensures a / b >= 0.0
  {
  }

  lemma SameAllowed(v: Env, w: Env, cells: nat, dt: real)
    requires v.Fits(cells) && w.Fits(cells) && Allowed(v, cells, dt) && w == v.(dt := w.dt, power := w.power)
    ensures Allowed(w, cells, dt)
  {
    forall k | 0 <= k < |w.entries| && w.entries[k].row == w.entries[k].col ensures DiagonalAllows(w, cells, k, dt) {
      assert DiagonalAllows(v, cells, k, dt);
    }
  }
}

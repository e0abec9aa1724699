/** The explicit Euler steps on the conductance matrix, over exact reals: the blocked update is the textbook one,
    and with the step count the program chooses temperatures never leave the range they start in. */
module ThermalStep {
  import opened Division
  import opened ThermalMatrix
  import opened ThermalAssembly

  /** The matrix, the capacity of a cell in each layer, the cells per layer, the power into each cell and the length
      of a step. */
  datatype Env = Env(entries: seq<Entry>, cap: seq<real>, plane: nat, power: seq<real>, dt: real) {
    /** Every entry speaks of cells and layers that exist. */
    ghost predicate Fits(cells: nat) {
      && plane > 0 && |power| == cells && (forall l :: 0 <= l < |cap| ==> cap[l] > 0.0)
      && (forall k :: 0 <= k < |entries| ==> EntryFits(entries[k], cells))
    }

    ghost predicate EntryFits(e: Entry, cells: nat)
      requires plane > 0
    {
      0 <= e.row < cells && 0 <= e.col < cells && e.row / plane < |cap|
    }
  }

  /** What one entry adds to the new temperature of its row. */
  function Share(v: Env, e: Entry, t: seq<real>): real
    requires v.plane > 0 && 0 <= e.row < |v.power| && 0 <= e.col < |t| && e.row / v.plane < |v.cap|
    requires v.cap[e.row / v.plane] != 0.0
  {
    var c := v.cap[e.row / v.plane];
    if e.row == e.col then (1.0 - e.val * v.dt / c) * t[e.col] + v.power[e.row] * v.dt / c
    else -(e.val * t[e.col] * v.dt / c)
  }

  /** What the first `k` entries add to cell `r`. */
  ghost function Shares(v: Env, t: seq<real>, k: nat, r: nat): real
    requires v.Fits(|t|) && k <= |v.entries|
  {
    if k == 0 then 0.0
    else
      assert v.EntryFits(v.entries[k - 1], |t|);
      Shares(v, t, k - 1, r) + if v.entries[k - 1].row == r then Share(v, v.entries[k - 1], t) else 0.0
  }

  /** The temperatures one step later. */
  ghost function Stepped(v: Env, t: seq<real>): (u: seq<real>)
    requires v.Fits(|t|)
    ensures |u| == |t| && forall r :: 0 <= r < |t| ==> u[r] == Shares(v, t, |v.entries|, r)
  {
    seq(|t|, r requires 0 <= r < |t| => Shares(v, t, |v.entries|, r))
  }

  ghost function Iterated(v: Env, t: seq<real>, n: nat): (u: seq<real>)
    requires v.Fits(|t|)
    ensures |u| == |t|
  {
    if n == 0 then t else Stepped(v, Iterated(v, t, n - 1))
  }

  // ---- the loops ------------------------------------------------------------------------------------------------

  /** One entry after another, in blocks of eight. */
  method Update(v: Env, t: array<real>, tp: array<real>)
    requires t != tp && t.Length == tp.Length && v.Fits(tp.Length)
    requires forall r :: 0 <= r < t.Length ==> t[r] == 0.0
    modifies t
    ensures t[..] == Stepped(v, tp[..])
  {
    hide Share;
    ghost var now := tp[..];
    var size := |v.entries|;
    var j := 0;
    while j < size
      invariant 0 <= j && tp[..] == now
      invariant forall r :: 0 <= r < t.Length ==> t[r] == Shares(v, now, if j < size then j else size, r)
    {
      var bound := if j + 8 < size then j + 8 else size;
      var b := j;
      while b < bound
        invariant j <= b <= bound <= size && tp[..] == now
        invariant forall r :: 0 <= r < t.Length ==> t[r] == Shares(v, now, b, r)
      {
        var e := v.entries[b];
        assert v.EntryFits(e, tp.Length);
        var share := ShareOf(v, e, tp);
        t[e.row] := t[e.row] + share;
        b := b + 1;
      }
      j := j + 8;
    }
  }

  method ShareOf(v: Env, e: Entry, tp: array<real>) returns (share: real)
    requires v.Fits(tp.Length) && v.EntryFits(e, tp.Length)
    ensures share == Share(v, e, tp[..])
  {
    var c := v.cap[e.row / v.plane];
    if e.row == e.col {
      var a := 1.0 - e.val * v.dt / c;
      share := a * tp[e.col] + v.power[e.row] * v.dt / c;
    } else {
      share := -(e.val * tp[e.col] * v.dt / c);
    }
  }

  method Clear(t: array<real>)
    modifies t
    ensures forall r :: 0 <= r < t.Length ==> t[r] == 0.0
  {
    var i := 0;
    while i < t.Length
      invariant 0 <= i <= t.Length && forall r :: 0 <= r < i ==> t[r] == 0.0
    {
      t[i] := 0.0;
      i := i + 1;
    }
  }

  /** The update loop of `transient_thermal_solver`: two buffers that change places. */
  method Transient(v: Env, start: array<real>, iter: nat) returns (temps: array<real>)
    requires v.Fits(start.Length)
    modifies start
    ensures temps.Length == start.Length && (fresh(temps) || temps == start)
    ensures temps[..] == Iterated(v, old(start[..]), iter)
  {
    hide Shares;
    ghost var t0 := start[..];
    temps := start;
    var t := new real[start.Length];
    Clear(t);
    var i := 0;
    while i < iter
      invariant 0 <= i <= iter && t != temps && t.Length == temps.Length == start.Length
      invariant (fresh(t) || t == start) && (fresh(temps) || temps == start)
      invariant temps[..] == Iterated(v, t0, i) && forall r :: 0 <= r < t.Length ==> t[r] == 0.0
    {
      Update(v, t, temps);
      temps, t := t, temps;
      ghost var u := temps[..];
      Clear(t);
      assert temps[..] == u;
      i := i + 1;
    }
  }

  // ---- the update is the textbook one ---------------------------------------------------------------------------

  /** The environment of a stack: its matrix, and one capacity per layer. */
  ghost predicate IsStack(s: Stack, v: Env, cells: nat) {
    && s.Valid() && v.entries == Matrix(s) && v.plane == s.Plane() && |v.cap| == s.layers && cells == s.Cells()
    && |v.power| == cells && forall l :: 0 <= l < |v.cap| ==> v.cap[l] > 0.0
  }

  lemma {:induction false} IndexGrows(s: Stack, m: Node, n: Node)
    requires s.Valid() && s.Has(m) && Before(m, n)
    ensures s.Index(m) < s.Index(n)
    decreases n.l, n.j, n.i
  {
    hide Stack.Index;
    if n.i > 0 {
      var prior := n.(i := n.i - 1);
      Steps(s, prior);
      if m != prior {
        IndexGrows(s, m, prior);
      }
    } else if n.j > 0 {
      IndexGrows(s, m, Node(n.l, n.j - 1, s.x));
      Wraps(s, n.l, n.j - 1);
    } else {
      IndexGrows(s, m, Node(n.l - 1, s.z, 0));
      Wraps(s, n.l - 1, 0);
    }
  }

  /** The number of a cell tells its layer. */
  lemma LayerOf(s: Stack, n: Node)
    requires s.Valid() && s.Has(n)
    ensures s.Plane() > 0 && s.Index(n) / s.Plane() == n.l && s.Index(n) < s.Cells()
  {
    var rest := n.j * s.x + n.i;
    MulAtLeast(s.x, s.z, n.j + 1);
    assert n.j * s.x == s.x * n.j;
    Distribute(n.j, 1, s.x);
    assert 0 <= rest < s.Plane();
    DivideUnique(s.Index(n), s.Plane(), n.l);
    IndexGrows(s, n, Node(s.layers, 0, 0));
  }

  lemma StackFits(s: Stack, v: Env, cells: nat)
    requires IsStack(s, v, cells)
    ensures v.Fits(cells)
  {
    hide Stack.Index, Row, RowsBefore, Stack.Plane, Stack.Cells, Links;
    LayerOf(s, Node(0, 0, 0));
    forall k | 0 <= k < |v.entries| ensures v.EntryFits(v.entries[k], cells) {
      var e := v.entries[k];
      var n := EntryHasRow(s, Node(s.layers, 0, 0), e);
      RowFits(s, v, n, e);
    }
  }

  lemma RowFits(s: Stack, v: Env, n: Node, e: Entry)
    requires s.Valid() && s.Has(n) && e in Row(s, n) && v.plane == s.Plane() && |v.cap| == s.layers
    ensures v.plane > 0 && v.EntryFits(e, s.Cells())
  {
    hide Stack.Index, Row, Links, Stack.Plane, Stack.Cells;
    LayerOf(s, n);
    var link := EntryLink(s, n, e);
    if e == Diagonal(s, n) {
      DiagonalColumn(s, n);
    } else {
      LinkBack(s, n, link);
      LayerOf(s, link.to);
    }
  }

  /** What a list of entries adds to cell `r`. */
  ghost function SharesIn(v: Env, es: seq<Entry>, t: seq<real>, r: nat): real
    requires v.Fits(|t|) && forall k :: 0 <= k < |es| ==> v.EntryFits(es[k], |t|)
  {
    if es == [] then 0.0
    else
      assert v.EntryFits(es[|es| - 1], |t|);
      SharesIn(v, es[..|es| - 1], t, r) + if es[|es| - 1].row == r then Share(v, es[|es| - 1], t) else 0.0
  }

  lemma {:induction false} SharesAre(v: Env, t: seq<real>, k: nat, r: nat)
    requires v.Fits(|t|) && k <= |v.entries|
    ensures SharesIn(v, v.entries[..k], t, r) == Shares(v, t, k, r)
  {
    hide Share;
    if k > 0 {
      SharesAre(v, t, k - 1, r);
      assert v.entries[..k][..k - 1] == v.entries[..k - 1];
    }
  }

  lemma {:induction false} SharesAppend(v: Env, a: seq<Entry>, b: seq<Entry>, t: seq<real>, r: nat)
    requires v.Fits(|t|) && (forall k :: 0 <= k < |a| ==> v.EntryFits(a[k], |t|))
    requires (forall k :: 0 <= k < |b| ==> v.EntryFits(b[k], |t|))
    ensures (forall k :: 0 <= k < |a + b| ==> v.EntryFits((a + b)[k], |t|))
    ensures SharesIn(v, a + b, t, r) == SharesIn(v, a, t, r) + SharesIn(v, b, t, r)
  {
    hide Share, Env.EntryFits;
    if b == [] {
      assert a + b == a;
    } else {
      var n := |b| - 1;
      SharesAppend(v, a, b[..n], t, r);
      assert (a + b)[..|a + b| - 1] == a + b[..n];
    }
  }

  lemma {:induction false} NoShares(v: Env, es: seq<Entry>, t: seq<real>, r: nat)
    requires v.Fits(|t|) && (forall k :: 0 <= k < |es| ==> v.EntryFits(es[k], |t|))
    requires (forall k :: 0 <= k < |es| ==> es[k].row != r)
    ensures SharesIn(v, es, t, r) == 0.0
  {
    hide Share, Env.EntryFits;
    if es != [] {
      NoShares(v, es[..|es| - 1], t, r);
    }
  }

  lemma RowFitsAll(s: Stack, v: Env, n: Node)
    requires s.Valid() && s.Has(n) && v.plane == s.Plane() && |v.cap| == s.layers
    ensures v.plane > 0 && forall k :: 0 <= k < |Row(s, n)| ==> v.EntryFits(Row(s, n)[k], s.Cells())
  {
    hide Row, Env.EntryFits, Stack.Plane, Stack.Cells, Stack.Index;
    LayerOf(s, n);
    forall k | 0 <= k < |Row(s, n)| ensures v.EntryFits(Row(s, n)[k], s.Cells()) {
      RowFits(s, v, n, Row(s, n)[k]);
    }
  }

  /** Cells before `m` are in range. */
  ghost predicate Within(s: Stack, m: Node) {
    m.j <= s.z && m.i <= s.x && m.l <= s.layers && (m.l == s.layers ==> m.j == m.i == 0) && (m.j == s.z ==> m.i == 0)
  }

  lemma RowsFit(s: Stack, v: Env, m: Node, cells: nat)
    requires IsStack(s, v, cells) && Within(s, m)
    ensures v.Fits(cells) && forall k :: 0 <= k < |RowsBefore(s, m)| ==> v.EntryFits(RowsBefore(s, m)[k], cells)
  {
    hide Row, Env.EntryFits, Stack.Plane, Stack.Cells, Stack.Index, RowsBefore;
    StackFits(s, v, cells);
    forall k | 0 <= k < |RowsBefore(s, m)| ensures v.EntryFits(RowsBefore(s, m)[k], cells) {
      var n := EntryHasRow(s, m, RowsBefore(s, m)[k]);
      RowFits(s, v, n, RowsBefore(s, m)[k]);
    }
  }

  /** Only its own row adds to a cell. */
  lemma {:induction false} SharesOfRows(s: Stack, v: Env, t: seq<real>, n: Node, m: Node)
    requires IsStack(s, v, |t|) && s.Has(n) && Within(s, m)
    ensures v.Fits(|t|)
    ensures forall k :: 0 <= k < |RowsBefore(s, m)| ==> v.EntryFits(RowsBefore(s, m)[k], |t|)
    ensures forall k :: 0 <= k < |Row(s, n)| ==> v.EntryFits(Row(s, n)[k], |t|)
    ensures SharesIn(v, RowsBefore(s, m), t, s.Index(n)) ==
      if Before(n, m) then SharesIn(v, Row(s, n), t, s.Index(n)) else 0.0
    decreases m.l, m.j, m.i
  {
    hide Row, Env.EntryFits, Env.Fits, Stack.Plane, Stack.Cells, Stack.Index, SharesIn, IsStack;
    RowsFit(s, v, m, |t|);
    PlaneOf(s, v, |t|);
    RowFitsAll(s, v, n);
    if m.i > 0 {
      var prior := m.(i := m.i - 1);
      SharesOfRows(s, v, t, n, prior);
      RowFitsAll(s, v, prior);
      SharesAppend(v, RowsBefore(s, prior), Row(s, prior), t, s.Index(n));
      if n != prior {
        OtherRow(s, v, t, n, prior);
      }
    } else if m.j > 0 {
      SharesOfRows(s, v, t, n, Node(m.l, m.j - 1, s.x));
    } else if m.l > 0 {
      SharesOfRows(s, v, t, n, Node(m.l - 1, s.z, 0));
    } else {
      NothingFilled(s);
      NoShares(v, [], t, s.Index(n));
    }
  }

  lemma PlaneOf(s: Stack, v: Env, cells: nat)
    requires IsStack(s, v, cells)
    ensures s.Valid() && v.plane == s.Plane() && |v.cap| == s.layers && cells == s.Cells()
  {
  }

  lemma OtherRow(s: Stack, v: Env, t: seq<real>, n: Node, m: Node)
    requires IsStack(s, v, |t|) && s.Has(n) && s.Has(m) && n != m
    requires v.Fits(|t|) && forall k :: 0 <= k < |Row(s, m)| ==> v.EntryFits(Row(s, m)[k], |t|)
    ensures SharesIn(v, Row(s, m), t, s.Index(n)) == 0.0
  {
    hide Row, Env.EntryFits, Env.Fits, Stack.Plane, Stack.Cells, Stack.Index, SharesIn;
    RowIsRow(s, m);
    if Before(n, m) {
      IndexGrows(s, n, m);
    } else {
      IndexGrows(s, m, n);
    }
    NoShares(v, Row(s, m), t, s.Index(n));
  }

  /** What neighbours at temperatures `t` send along `links`. */
  ghost function Heat(s: Stack, links: seq<Link>, t: seq<real>): real
    requires forall k :: 0 <= k < |links| ==> s.Index(links[k].to) < |t|
  {
    if links == [] then 0.0 else Heat(s, links[..|links| - 1], t) + LinkHeat(s, links[|links| - 1], t)
  }

  ghost function LinkHeat(s: Stack, link: Link, t: seq<real>): real
    requires s.Index(link.to) < |t|
  {
    link.g * t[s.Index(link.to)]
  }

  lemma {:induction false} HeatAppend(s: Stack, a: seq<Link>, b: seq<Link>, t: seq<real>)
    requires (forall k :: 0 <= k < |a| ==> s.Index(a[k].to) < |t|)
    requires (forall k :: 0 <= k < |b| ==> s.Index(b[k].to) < |t|)
    ensures forall k :: 0 <= k < |a + b| ==> s.Index((a + b)[k].to) < |t|
    ensures Heat(s, a + b, t) == Heat(s, a, t) + Heat(s, b, t)
  {
    hide Stack.Index, LinkHeat;
    if b == [] {
      assert a + b == a;
    } else {
      var n := |b| - 1;
      HeatAppend(s, a, b[..n], t);
      assert (a + b)[..|a + b| - 1] == a + b[..n];
    }
  }

  lemma MulDiv(a: real, b: real, c: real)
    requires c != 0.0
    ensures a * b / c == a * (b / c)
  {
  }

  lemma OffShare(v: Env, e: Entry, t: seq<real>, g: real)
    requires v.Fits(|t|) && v.EntryFits(e, |t|) && e.row != e.col && e.val == -g
    ensures Share(v, e, t) == v.dt / v.cap[e.row / v.plane] * (g * t[e.col])
  {
    var c, x := v.cap[e.row / v.plane], t[e.col];
    MulDiv(e.val * x, v.dt, c);
    assert -(e.val * x) == g * x;
    OffScaled(e.val * x, g * x, v.dt / c);
  }

  lemma OffScaled(a: real, b: real, q: real)
    requires -a == b
    ensures -(a * q) == q * b
  {
  }

  lemma DiagonalShare(v: Env, e: Entry, t: seq<real>)
    requires v.Fits(|t|) && v.EntryFits(e, |t|) && e.row == e.col
    ensures var q := v.dt / v.cap[e.row / v.plane];
      Share(v, e, t) == (1.0 - e.val * q) * t[e.col] + v.power[e.row] * q
  {
    var c := v.cap[e.row / v.plane];
    MulDiv(e.val, v.dt, c);
    MulDiv(v.power[e.row], v.dt, c);
  }

  ghost predicate LinksFit(s: Stack, v: Env, n: Node, links: seq<Link>, cells: nat)
    requires v.plane > 0
  {
    forall k :: 0 <= k < |links| ==>
      s.Index(links[k].to) < cells && s.Index(links[k].to) != s.Index(n)
        && v.EntryFits(Entry(s.Index(n), s.Index(links[k].to), -links[k].g), cells)
  }

  lemma {:induction false} LinkShares(s: Stack, v: Env, t: seq<real>, n: Node, links: seq<Link>)
    requires v.plane > 0 && v.Fits(|t|) && LinksFit(s, v, n, links, |t|) && 0 <= s.Index(n) / v.plane < |v.cap|
    ensures forall k :: 0 <= k < |links| ==> v.EntryFits(Entries(s, n, links)[k], |t|)
    ensures SharesIn(v, Entries(s, n, links), t, s.Index(n)) == v.dt / v.cap[s.Index(n) / v.plane] * Heat(s, links, t)
  {
    hide Stack.Index, Share, Env.EntryFits, Env.Fits;
    CapPositive(v, |t|, s.Index(n) / v.plane);
    if links == [] {
    } else {
      var m := |links| - 1;
      var es := Entries(s, n, links);
      LinkShares(s, v, t, n, links[..m]);
      assert es[..m] == Entries(s, n, links[..m]);
      OffShare(v, es[m], t, links[m].g);
      var q := v.dt / v.cap[s.Index(n) / v.plane];
      DistributeReal(q, Heat(s, links[..m], t), LinkHeat(s, links[m], t));
    }
  }

  lemma CapPositive(v: Env, cells: nat, l: nat)
    requires v.Fits(cells) && l < |v.cap|
    ensures v.cap[l] > 0.0
  {
  }

  lemma DistributeReal(q: real, a: real, b: real)
    ensures q * (a + b) == q * a + q * b
  {
  }

  /** Every link leads to another cell of the stack. */
  lemma {:induction false} LinksLead(s: Stack, v: Env, n: Node, links: seq<Link>, cells: nat)
    requires s.Valid() && s.Has(n) && v.plane == s.Plane() > 0 && |v.cap| == s.layers && cells == s.Cells()
    requires forall k :: 0 <= k < |links| ==> links[k] in Links(s, n)
    ensures LinksFit(s, v, n, links, cells)
  {
    hide Stack.Index, Stack.Plane, Stack.Cells, Links;
    LayerOf(s, n);
    forall k | 0 <= k < |links|
      ensures s.Index(links[k].to) < cells && s.Index(links[k].to) != s.Index(n)
      ensures v.EntryFits(Entry(s.Index(n), s.Index(links[k].to), -links[k].g), cells)
    {
      LinkBack(s, n, links[k]);
      LayerOf(s, links[k].to);
      OtherCell(s, n, links[k]);
    }
  }

  lemma OtherCell(s: Stack, n: Node, link: Link)
    requires s.Valid() && s.Has(n) && link in Links(s, n)
    ensures s.Index(link.to) != s.Index(n)
  {
    hide Stack.Index, LinksBelow, LinksAbove;
    if link in LinksBelow(s, n) {
      var k :| 0 <= k < |LinksBelow(s, n)| && LinksBelow(s, n)[k] == link;
      BelowColumns(s, n, k);
    } else {
      var k :| 0 <= k < |LinksAbove(s, n)| && LinksAbove(s, n)[k] == link;
      AboveColumns(s, n, k);
    }
  }

  /** What the row of a cell adds up to. */
  lemma RowShares(s: Stack, v: Env, t: seq<real>, n: Node)
    requires IsStack(s, v, |t|) && s.Has(n) && v.Fits(|t|)
    requires forall k :: 0 <= k < |Row(s, n)| ==> v.EntryFits(Row(s, n)[k], |t|)
    ensures v.plane > 0 && LinksFit(s, v, n, Links(s, n), |t|) && s.Index(n) < |t| && v.cap[n.l] > 0.0
    ensures var r, q := s.Index(n), v.dt / v.cap[n.l];
      SharesIn(v, Row(s, n), t, r)
      == q * Heat(s, Links(s, n), t) + (1.0 - (Conductance(Links(s, n)) + Sink(s, n)) * q) * t[r] + v.power[r] * q
  {
    hide Stack.Index, Stack.Plane, Stack.Cells, LinksBelow, LinksAbove, Share, SharesIn, Heat, Env.EntryFits,
         Conductance, Sink, Entries;
    LayerOf(s, n);
    var below, above, r := LinksBelow(s, n), LinksAbove(s, n), s.Index(n);
    LinksLead(s, v, n, Links(s, n), |t|);
    LinksLead(s, v, n, below, |t|);
    LinksLead(s, v, n, above, |t|);
    LinkShares(s, v, t, n, below);
    LinkShares(s, v, t, n, above);
    HeatAppend(s, below, above, t);
    var d := Diagonal(s, n);
    assert Row(s, n)[|below|] == d;
    SharesAppend(v, Entries(s, n, below), [d], t, r);
    SharesAppend(v, Entries(s, n, below) + [d], Entries(s, n, above), t, r);
    OneShare(v, d, t);
    DiagonalShare(v, d, t);
    DistributeReal(v.dt / v.cap[n.l], Heat(s, below, t), Heat(s, above, t));
  }

  lemma OneShare(v: Env, e: Entry, t: seq<real>)
    requires v.Fits(|t|) && v.EntryFits(e, |t|) && e.row >= 0
    ensures SharesIn(v, [e], t, e.row) == Share(v, e, t)
  {
    hide Share;
    assert [e][..0] == [];
  }

  /** One explicit Euler step of a cell at `x`: `q` is the step over the capacity, `g` and `k` the conductances to the
      neighbours and to ambient, `heat` and `p` what flows in. */
  ghost function EulerCell(q: real, g: real, k: real, heat: real, x: real, p: real): real {
    x + q * (p + heat - (g + k) * x)
  }

  /** The blocked update gives each cell the textbook explicit Euler step: its temperature plus the step over the
      capacity times what flows in. */
  lemma CellStep(s: Stack, v: Env, t: seq<real>, n: Node)
    requires IsStack(s, v, |t|) && s.Has(n)
    ensures v.Fits(|t|) && v.plane > 0 && LinksFit(s, v, n, Links(s, n), |t|) && s.Index(n) < |t| && v.cap[n.l] > 0.0
    ensures var r, q := s.Index(n), v.dt / v.cap[n.l];
      Stepped(v, t)[r] == EulerCell(q, Conductance(Links(s, n)), Sink(s, n), Heat(s, Links(s, n), t), t[r], v.power[r])
  {
    hide Stack.Index, Stack.Plane, Stack.Cells, Share, SharesIn, Heat, Env.EntryFits, Conductance, Sink, Row, Links,
         RowsBefore;
    var end := Node(s.layers, 0, 0);
    SharesOfRows(s, v, t, n, end);
    RowShares(s, v, t, n);
    SharesAre(v, t, |v.entries|, s.Index(n));
    assert v.entries[..|v.entries|] == RowsBefore(s, end);
    Rearranged(v.dt / v.cap[n.l], Conductance(Links(s, n)), Sink(s, n), Heat(s, Links(s, n), t), t[s.Index(n)],
               v.power[s.Index(n)]);
  }

  lemma Rearranged(q: real, g: real, k: real, heat: real, x: real, p: real)
    ensures q * heat + (1.0 - (g + k) * q) * x + p * q == EulerCell(q, g, k, heat, x, p)
  {
  }

  // ---- the maximum principle --------------------------------------------------------------------------------------

  /** Every number below that of `m` is the number of a cell. */
  lemma {:induction false} CellOf(s: Stack, r: nat, m: Node) returns (n: Node)
    requires s.Valid() && Within(s, m) && r < s.Index(m)
    ensures s.Has(n) && s.Index(n) == r
    decreases m.l, m.j, m.i
  {
    hide Stack.Index;
    if m.i > 0 {
      var prior := m.(i := m.i - 1);
      Steps(s, prior);
      if s.Index(prior) == r {
        n := prior;
      } else {
        n := CellOf(s, r, prior);
      }
    } else if m.j > 0 {
      Wraps(s, m.l, m.j - 1);
      n := CellOf(s, r, Node(m.l, m.j - 1, s.x));
    } else if m.l > 0 {
      Wraps(s, m.l - 1, 0);
      n := CellOf(s, r, Node(m.l - 1, s.z, 0));
    } else {
      Origin(s);
      n := m;
    }
  }

  lemma OnePositive(x: real)
    requires x > 0.0
    ensures 1.0 / x > 0.0
  {
  }

  lemma LinksPositive(s: Stack, n: Node, k: nat)
    requires s.Valid() && k < |Links(s, n)|
    ensures Links(s, n)[k].g > 0.0
  {
    OnePositive(s.rx(n.l));
    OnePositive(s.rz(n.l));
    OnePositive(s.rvert(n.i, n.j, n.l) / 2.0 + s.rvert(n.i, n.j, n.l + 1) / 2.0);
    if n.l > 0 {
      OnePositive(s.rvert(n.i, n.j, n.l - 1) / 2.0 + s.rvert(n.i, n.j, n.l) / 2.0);
    }
  }

  /** `a` on one side of `b`: above it if `up`, below it otherwise. */
  predicate Side(up: bool, a: real, b: real) {
    if up then a >= b else a <= b
  }

  /** Kept apart so that only the lemmas that need it see a product. */
  function Times(a: real, b: real): real {
    a * b
  }

  ghost predicate Beyond(up: bool, t: seq<real>, bound: real) {
    forall r :: 0 <= r < |t| ==> Side(up, t[r], bound)
  }

  lemma {:induction false} HeatBound(s: Stack, links: seq<Link>, t: seq<real>, up: bool, bound: real)
    requires forall k :: 0 <= k < |links| ==> s.Index(links[k].to) < |t|
    requires (forall k :: 0 <= k < |links| ==> links[k].g > 0.0) && Beyond(up, t, bound)
    ensures Side(up, Heat(s, links, t), Times(bound, Conductance(links)))
  {
    hide Stack.Index, LinkHeat, Beyond;
    if links == [] {
      assert bound * 0.0 == 0.0;
    } else {
      var m := |links| - 1;
      HeatBound(s, links[..m], t, up, bound);
      LinkBound(s, links[m], t, up, bound);
      DistributeReal(bound, Conductance(links[..m]), links[m].g);
    }
  }

  lemma LinkBound(s: Stack, link: Link, t: seq<real>, up: bool, bound: real)
    requires s.Index(link.to) < |t| && link.g > 0.0 && Beyond(up, t, bound)
    ensures up ==> LinkHeat(s, link, t) >= bound * link.g
    ensures !up ==> LinkHeat(s, link, t) <= bound * link.g
  {
    hide Stack.Index;
    Scaled(link.g, t[s.Index(link.to)], bound);
  }

  lemma Scaled(g: real, x: real, y: real)
    requires g >= 0.0
    ensures x <= y ==> g * x <= y * g
    ensures x >= y ==> g * x >= y * g
  {
  }

  /** A convex combination stays below what all its parts are below. */
  lemma ConvexBelow(q: real, g: real, k: real, heat: real, x: real, p: real, hi: real, amb: real)
    requires q >= 0.0 && q * (g + k) <= 1.0 && k >= 0.0 && heat <= hi * g && p <= k * amb && amb <= hi && x <= hi
    ensures EulerCell(q, g, k, heat, x, p) <= hi
  {
    Scaled(k, amb, hi);
    DistributeReal(hi, g, k);
    assert p + heat <= hi * (g + k);
    assert hi * (g + k) - (g + k) * x == (g + k) * (hi - x);
    Scaled(q, p + heat - (g + k) * x, (g + k) * (hi - x));
    assert (g + k) * (hi - x) * q == (q * (g + k)) * (hi - x);
    Scaled(hi - x, q * (g + k), 1.0);
  }

  lemma ConvexAbove(q: real, g: real, k: real, heat: real, x: real, p: real, lo: real, amb: real)
    requires q >= 0.0 && q * (g + k) <= 1.0 && k >= 0.0 && heat >= lo * g && p >= k * amb && amb >= lo && x >= lo
    ensures EulerCell(q, g, k, heat, x, p) >= lo
  {
    ConvexBelow(q, g, k, -heat, -x, -p, -lo, -amb);
    assert EulerCell(q, g, k, -heat, -x, -p) == -EulerCell(q, g, k, heat, x, p);
  }

  /** The step is short enough for every cell. */
  ghost predicate Stable(s: Stack, v: Env)
    requires s.Valid() && |v.cap| == s.layers
  {
    v.dt >= 0.0 && forall n :: s.Has(n) ==> Times(Conductance(Links(s, n)) + Sink(s, n), v.dt) <= v.cap[n.l]
  }

  /** Into the cells flows the ambient term of the heat sink and, if `up`, more; otherwise, no more. */
  ghost predicate Powered(s: Stack, v: Env, up: bool, amb: real)
    requires s.Valid()
  {
    forall n :: s.Has(n) && s.Index(n) < |v.power| ==>
      Side(up, v.power[s.Index(n)], Times(Sink(s, n), amb))
  }

  lemma MulStrict(x: real, c: real)
    requires x > 1.0 && c > 0.0
    ensures x * c > c
  {
    assert (x - 1.0) * c > 0.0;
  }

  lemma RateBound(d: real, dt: real, c: real)
    requires c > 0.0 && dt >= 0.0 && Times(d, dt) <= c
    ensures dt / c >= 0.0 && Times(dt / c, d) <= 1.0
  {
    assert (dt / c) * c == dt;
    assert (dt / c) * d * c == d * dt;
    if (dt / c) * d > 1.0 {
      MulStrict((dt / c) * d, c);
    }
  }

  lemma Convex(up: bool, q: real, g: real, k: real, heat: real, x: real, p: real, bound: real, amb: real)
    requires q >= 0.0 && Times(q, g + k) <= 1.0 && k >= 0.0
    requires Side(up, heat, Times(bound, g)) && Side(up, p, Times(k, amb)) && Side(up, amb, bound) && Side(up, x, bound)
    ensures Side(up, EulerCell(q, g, k, heat, x, p), bound)
  {
    if up {
      ConvexAbove(q, g, k, heat, x, p, bound, amb);
    } else {
      ConvexBelow(q, g, k, heat, x, p, bound, amb);
    }
  }

  lemma SinkPositive(s: Stack, n: Node)
    requires s.Valid()
    ensures Sink(s, n) >= 0.0
  {
    OnePositive(s.ramb);
  }

  lemma CellStays(s: Stack, v: Env, t: seq<real>, n: Node, up: bool, bound: real, amb: real)
    requires IsStack(s, v, |t|) && v.Fits(|t|) && s.Has(n) && Stable(s, v) && Powered(s, v, up, amb)
    requires Beyond(up, t, bound)
    requires Side(up, amb, bound)
    ensures s.Index(n) < |t| && Side(up, Stepped(v, t)[s.Index(n)], bound)
  {
    hide Stack.Index, Stack.Plane, Stack.Cells, Stepped, Heat, Env.EntryFits, Conductance, Links, Sink, Matrix,
         EulerCell, Times, Side;
    CellStep(s, v, t, n);
    var links, r, c := Links(s, n), s.Index(n), v.cap[n.l];
    forall k | 0 <= k < |links| ensures links[k].g > 0.0 {
      LinksPositive(s, n, k);
    }
    HeatBound(s, links, t, up, bound);
    SinkPositive(s, n);
    RateBound(Conductance(links) + Sink(s, n), v.dt, c);
    Convex(up, v.dt / c, Conductance(links), Sink(s, n), Heat(s, links, t), t[r], v.power[r], bound, amb);
  }

  lemma StepStays(s: Stack, v: Env, t: seq<real>, up: bool, bound: real, amb: real)
    requires IsStack(s, v, |t|) && v.Fits(|t|) && Stable(s, v) && Powered(s, v, up, amb) && Beyond(up, t, bound)
    requires Side(up, amb, bound)
    ensures Beyond(up, Stepped(v, t), bound)
  {
    hide Stack.Index, Stack.Plane, Shares, Env.EntryFits, Matrix, Stable, Powered, Side;
    forall r | 0 <= r < |t| ensures Side(up, Stepped(v, t)[r], bound) {
      LastCell(s);
      var n := CellOf(s, r, Node(s.layers, 0, 0));
      CellStays(s, v, t, n, up, bound, amb);
    }
  }

  lemma LastCell(s: Stack)
    ensures s.Index(Node(s.layers, 0, 0)) == s.Cells()
  {
  }

  /** With power at least the ambient term of the heat sink, temperatures never fall below a bound they start above,
      and with at most that term they never rise above one, for any number of steps: `up` chooses which. */
  lemma {:induction false} MaximumPrinciple(s: Stack, v: Env, t: seq<real>, n: nat, up: bool, bound: real, amb: real)
    requires IsStack(s, v, |t|) && v.Fits(|t|) && Stable(s, v) && Powered(s, v, up, amb) && Beyond(up, t, bound)
    requires Side(up, amb, bound)
    ensures Beyond(up, Iterated(v, t, n), bound)
  {
    hide IsStack, Env.Fits, Stable, Powered, Beyond, Stepped;
    if n > 0 {
      MaximumPrinciple(s, v, t, n - 1, up, bound, amb);
      StepStays(s, v, Iterated(v, t, n - 1), up, bound, amb);
    }
  }
}

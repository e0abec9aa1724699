/** The loops that count, fill and compress the conductance matrix. */
module ThermalAssembly {
  import opened Sums
  import opened ThermalMatrix

  /** Neighbours are counted along `j` first, cells added at the end. */
  method CountEntries(s: Stack) returns (count: nat)
    requires s.Valid()
    ensures count == |Matrix(s)|
  {
    hide Matrix, Stack.Plane;
    var n: int := 0;
    var l := 0;
    while l < s.layers
      invariant 0 <= l <= s.layers && n == LayersByRows(s, l)
    {
      n := CountLayer(s, l, n);
      l := l + 1;
    }
    MatrixLength(s);
    assert s.Cells() == s.Plane() * s.layers;
    count := n + s.Plane() * s.layers;
  }

  method CountLayer(s: Stack, l: nat, before: int) returns (n: int)
    ensures n == before + ByRows(DegreeIn(s, l), s.x, s.z)
  {
    n := before;
    var i := 0;
    while i < s.x
      invariant 0 <= i <= s.x && n == before + ByRows(DegreeIn(s, l), i, s.z)
    {
      var j := 0;
      while j < s.z
        invariant 0 <= j <= s.z && n == before + ByRows(DegreeIn(s, l), i, s.z) + RowSum(DegreeIn(s, l), i, j)
      {
        if i - 1 >= 0 { n := n + 1; }
        if i + 1 < s.x { n := n + 1; }
        if j - 1 >= 0 { n := n + 1; }
        if j + 1 < s.z { n := n + 1; }
        if l + 1 < s.layers { n := n + 1; }
        if l > 0 { n := n + 1; }
        j := j + 1;
      }
      i := i + 1;
    }
  }

  // ---- one row ----------------------------------------------------------------------------------------------

  method Put(midx: array<Entry>, at: nat, e: Entry)
    requires at < midx.Length
    modifies midx
    ensures midx[..at + 1] == old(midx[..at]) + [e]
    ensures forall k :: 0 <= k < midx.Length && k != at ==> midx[k] == old(midx[k])
  {
    midx[at] := e;
  }

  lemma EntriesMore(s: Stack, n: Node, links: seq<Link>, link: Link)
    ensures Entries(s, n, links + [link]) == Entries(s, n, links) + [Entry(s.Index(n), s.Index(link.to), -link.g)]
  {
  }

  /** One more entry of a row, if the neighbour is there. */
  method PutLink(s: Stack, n: Node, piece: seq<Link>, midx: array<Entry>, at: nat, ghost base: seq<Entry>,
                 ghost links: seq<Link>)
    returns (next: nat)
    requires |piece| <= 1 && at + |piece| <= midx.Length && midx[..at] == base + Entries(s, n, links)
    modifies midx
    ensures next == at + |piece| && midx[..next] == base + Entries(s, n, links + piece)
    ensures forall k :: next <= k < midx.Length ==> midx[k] == old(midx[k])
  {
    hide Entries, Stack.Index;
    next := at;
    if piece == [] {
      assert links + piece == links;
    } else {
      EntriesMore(s, n, links, piece[0]);
      assert piece == [piece[0]];
      Put(midx, at, Entry(s.Index(n), s.Index(piece[0].to), -piece[0].g));
      next := at + 1;
    }
  }

  method PutBelow(s: Stack, n: Node, midx: array<Entry>, idx: nat, ghost base: seq<Entry>) returns (next: nat)
    requires s.Valid() && idx + |LinksBelow(s, n)| <= midx.Length && midx[..idx] == base
    modifies midx
    ensures next == idx + |LinksBelow(s, n)| && midx[..next] == base + Entries(s, n, LinksBelow(s, n))
    ensures forall k :: next <= k < midx.Length ==> midx[k] == old(midx[k])
  {
    hide Entries, Down, Back, Left;
    NoEntries(s, n);
    assert base + Entries(s, n, []) == base;
    next := PutLink(s, n, Down(s, n), midx, idx, base, []);
    assert [] + Down(s, n) == Down(s, n);
    next := PutLink(s, n, Back(s, n), midx, next, base, Down(s, n));
    next := PutLink(s, n, Left(s, n), midx, next, base, Down(s, n) + Back(s, n));
  }

  method PutAbove(s: Stack, n: Node, midx: array<Entry>, at: nat, ghost base: seq<Entry>, ghost links: seq<Link>)
    returns (next: nat)
    requires s.Valid() && at + |LinksAbove(s, n)| <= midx.Length && midx[..at] == base + Entries(s, n, links)
    modifies midx
    ensures next == at + |LinksAbove(s, n)| && midx[..next] == base + Entries(s, n, links + LinksAbove(s, n))
    ensures forall k :: next <= k < midx.Length ==> midx[k] == old(midx[k])
  {
    hide Entries, Right, Front, Up;
    next := PutLink(s, n, Right(s, n), midx, at, base, links);
    next := PutLink(s, n, Front(s, n), midx, next, base, links + Right(s, n));
    next := PutLink(s, n, Up(s, n), midx, next, base, links + Right(s, n) + Front(s, n));
    assert links + Right(s, n) + Front(s, n) + Up(s, n) == links + LinksAbove(s, n);
  }

  /** The off-diagonal entries of a row, in the order the neighbours are looked at. */
  method PutLinks(s: Stack, n: Node, midx: array<Entry>, idx: nat) returns (next: nat)
    requires s.Valid() && idx + |Links(s, n)| <= midx.Length
    modifies midx
    ensures next == idx + |Links(s, n)| && midx[..next] == old(midx[..idx]) + Entries(s, n, Links(s, n))
    ensures forall k :: next <= k < midx.Length ==> midx[k] == old(midx[k])
  {
    hide Entries, LinksBelow, LinksAbove;
    ghost var base := midx[..idx];
    next := PutBelow(s, n, midx, idx, base);
    next := PutAbove(s, n, midx, next, base, LinksBelow(s, n));
  }

  lemma NoEntries(s: Stack, n: Node)
    ensures Entries(s, n, []) == []
  {
  }

  /** The heat sink is the first layer. */
  lemma SinkNumbers(s: Stack, n: Node)
    requires s.Valid() && s.Has(n)
    ensures s.Index(n) < s.Plane() <==> n.l == 0
  {
    if n.l == 0 {
      MulAtLeast(s.x, s.z, n.j + 1);
      assert n.j * s.x == s.x * n.j;
      Distribute(n.j, 1, s.x);
    } else {
      MulAtLeast(s.Plane(), n.l, 1);
      assert n.l * s.Plane() == s.Plane() * n.l;
    }
  }

  /** The diagonal entry: minus what is in the row so far, and the way to ambient. */
  method PutDiagonal(s: Stack, n: Node, midx: array<Entry>, idx: nat, at: nat)
    requires s.Valid() && s.Has(n) && idx <= at < midx.Length && midx[at].val == 0.0
    requires midx[idx..at] == Entries(s, n, Links(s, n))
    modifies midx
    ensures midx[at] == Diagonal(s, n)
    ensures forall k :: 0 <= k < midx.Length && k != at ==> midx[k] == old(midx[k])
  {
    hide Entries, Links, Stack.Index, Stack.Plane, Total;
    EntriesTotal(s, n, Links(s, n));
    SinkNumbers(s, n);
    NoTotal();
    midx[at] := Entry(s.Index(n), s.Index(n), midx[at].val);
    ghost var row := Entries(s, n, Links(s, n));
    var k := idx;
    while k < at
      invariant idx <= k <= at && midx[at] == Entry(s.Index(n), s.Index(n), -Total(row[..k - idx]))
      invariant forall q :: 0 <= q < midx.Length && q != at ==> midx[q] == old(midx[q])
    {
      assert midx[k] == old(midx[idx..at])[k - idx];
      TotalNext(row, k - idx);
      midx[at] := midx[at].(val := midx[at].val - midx[k].val);
      k := k + 1;
    }
    assert row[..at - idx] == row;
    if midx[at].row < s.Plane() {
      midx[at] := midx[at].(val := midx[at].val + 1.0 / s.ramb);
    }
  }

  lemma NoTotal()
    ensures forall row: seq<Entry> :: Total(row[..0]) == 0.0
  {
  }

  lemma TotalNext(row: seq<Entry>, k: nat)
    requires k < |row|
    ensures Total(row[..k + 1]) == Total(row[..k]) + row[k].val
  {
    assert row[..k + 1][..k] == row[..k];
  }

  /** The row with its last entry moved to place `m`. */
  ghost function Sifted(off: seq<Entry>, last: Entry, m: nat): seq<Entry>
    requires m <= |off|
  {
    off[..m] + [last] + off[m..]
  }

  /** One swap moves the last entry one place down. */
  lemma SiftStep(off: seq<Entry>, last: Entry, m: nat)
    requires 0 < m <= |off|
    ensures var row := Sifted(off, last, m);
      && |row| == |off| + 1 && row[m - 1] == off[m - 1] && row[m] == last
      && row[m - 1 := last][m := off[m - 1]] == Sifted(off, last, m - 1)
  {
  }

  lemma SiftedLast(off: seq<Entry>, last: Entry)
    ensures Sifted(off, last, |off|) == off + [last]
  {
  }

  /** The swaps that bring the diagonal entry to its place. */
  method SortRow(midx: array<Entry>, idx: nat, end: nat, ghost off: seq<Entry>, ghost diag: Entry)
    returns (ghost m: nat)
    requires idx < end <= midx.Length && |off| == end - idx - 1 && midx[idx..end] == Sifted(off, diag, |off|)
    modifies midx
    ensures m <= |off| && midx[idx..end] == Sifted(off, diag, m)
    ensures m > 0 ==> off[m - 1].col <= diag.col
    ensures forall q :: m <= q < |off| ==> off[q].col > diag.col
    ensures forall k :: 0 <= k < midx.Length && !(idx <= k < end) ==> midx[k] == old(midx[k])
  {
    hide Sifted;
    m := |off|;
    var k := end - 2;
    while k >= idx
      invariant idx - 1 <= k && m == k + 1 - idx && m <= |off| && midx[idx..end] == Sifted(off, diag, m)
      invariant forall q :: m <= q < |off| ==> off[q].col > diag.col
      invariant forall q :: 0 <= q < midx.Length && !(idx <= q < end) ==> midx[q] == old(midx[q])
      decreases k
    {
      ghost var row := midx[idx..end];
      SiftStep(off, diag, m);
      assert midx[k] == row[m - 1] && midx[k + 1] == row[m];
      if midx[k].col > midx[k + 1].col {
        midx[k], midx[k + 1] := midx[k + 1], midx[k];
        assert midx[idx..end] == row[m - 1 := diag][m := off[m - 1]];
        m := m - 1;
        k := k - 1;
      } else {
        break;
      }
    }
  }

  lemma BelowEntry(s: Stack, n: Node, k: nat)
    requires s.Valid() && s.Has(n) && k < |LinksBelow(s, n)|
    ensures Entries(s, n, Links(s, n))[k].col < s.Index(n)
  {
    hide LinksBelow, LinksAbove, Stack.Index;
    BelowColumns(s, n, k);
  }

  lemma AboveEntry(s: Stack, n: Node, k: nat)
    requires s.Valid() && s.Has(n) && |LinksBelow(s, n)| <= k < |Links(s, n)|
    ensures Entries(s, n, Links(s, n))[k].col > s.Index(n)
  {
    hide LinksBelow, LinksAbove, Stack.Index;
    AboveColumns(s, n, k - |LinksBelow(s, n)|);
  }

  /** The place found is the one between the lower and the upper neighbours. */
  lemma SortedIsRow(s: Stack, n: Node, m: nat)
    requires s.Valid() && s.Has(n) && var off := Entries(s, n, Links(s, n));
      && m <= |off| && (m > 0 ==> off[m - 1].col <= s.Index(n))
      && (forall q :: m <= q < |off| ==> off[q].col > s.Index(n))
    ensures Sifted(Entries(s, n, Links(s, n)), Diagonal(s, n), m) == Row(s, n)
  {
    hide LinksBelow, LinksAbove, Diagonal, Stack.Index;
    var off, b := Entries(s, n, Links(s, n)), |LinksBelow(s, n)|;
    if m < b {
      BelowEntry(s, n, m);
    } else if m > b {
      AboveEntry(s, n, m - 1);
    }
    assert off[..b] == Entries(s, n, LinksBelow(s, n));
    assert off[b..] == Entries(s, n, LinksAbove(s, n));
  }

  /** One row of the matrix. */
  method FillRow(s: Stack, n: Node, midx: array<Entry>, idx: nat) returns (next: nat)
    requires s.Valid() && s.Has(n) && idx + |Row(s, n)| <= midx.Length
    requires forall k :: idx <= k < midx.Length ==> midx[k].val == 0.0
    modifies midx
    ensures next == idx + |Row(s, n)| && midx[..next] == old(midx[..idx]) + Row(s, n)
    ensures forall k :: next <= k < midx.Length ==> midx[k] == old(midx[k])
  {
    hide Entries, Links, Stack.Index, Row, Diagonal;
    RowParts(s, n);
    ghost var base, off, diag := midx[..idx], Entries(s, n, Links(s, n)), Diagonal(s, n);
    var at := PutLinks(s, n, midx, idx);
    assert midx[idx..at] == midx[..at][idx..] == off;
    PutDiagonal(s, n, midx, idx, at);
    next := at + 1;
    assert midx[idx..at] == off;
    assert midx[idx..next] == midx[idx..at] + [midx[at]];
    SiftedLast(off, diag);
    assert midx[..idx] == base;
    ghost var m := SortRow(midx, idx, next, off, diag);
    DiagonalColumn(s, n);
    SortedIsRow(s, n, m);
    assert midx[..next] == midx[..idx] + midx[idx..next];
    assert midx[..idx] == base;
  }

  lemma RowParts(s: Stack, n: Node)
    requires s.Valid()
    ensures |Row(s, n)| == |Links(s, n)| + 1
  {
    hide LinksBelow, LinksAbove, Diagonal;
  }

  // ---- the whole matrix -------------------------------------------------------------------------------------

  /** The rows up to and with that of `m` are the beginning of those before any later cell. */
  lemma {:induction false} RowsGrow(s: Stack, m: Node, n: Node)
    requires s.Valid() && s.Has(m) && Before(m, n)
    ensures RowsBefore(s, m) + Row(s, m) <= RowsBefore(s, n)
    decreases n.l, n.j, n.i
  {
    hide Row, Stack.Index;
    if n.i > 0 {
      var prior := n.(i := n.i - 1);
      if m != prior {
        RowsGrow(s, m, prior);
      }
    } else if n.j > 0 {
      RowsGrow(s, m, Node(n.l, n.j - 1, s.x));
    } else {
      RowsGrow(s, m, Node(n.l - 1, s.z, 0));
    }
  }

  /** Where the filling stands: the rows before `n` are in place and the rest is untouched. */
  ghost predicate Filled(s: Stack, midx: array<Entry>, idx: nat, n: Node)
    requires s.Valid()
    reads midx
  {
    && midx.Length == |Matrix(s)| && idx == |RowsBefore(s, n)| && idx <= midx.Length && midx[..idx] == RowsBefore(s, n)
    && forall k :: idx <= k < midx.Length ==> midx[k].val == 0.0
  }

  lemma NextAlong(s: Stack, n: Node)
    requires s.Valid() && s.Has(n)
    ensures RowsBefore(s, n.(i := n.i + 1)) == RowsBefore(s, n) + Row(s, n)
    ensures |RowsBefore(s, n)| + |Row(s, n)| <= |Matrix(s)|
  {
    hide Row;
    RowsGrow(s, n, Node(s.layers, 0, 0));
  }

  lemma NextAcross(s: Stack, l: nat, j: nat)
    requires s.Valid()
    ensures RowsBefore(s, Node(l, j + 1, 0)) == RowsBefore(s, Node(l, j, s.x))
    ensures RowsBefore(s, Node(l + 1, 0, 0)) == RowsBefore(s, Node(l, s.z, 0))
  {
    hide Row;
  }

  method FillLayer(s: Stack, l: nat, midx: array<Entry>, idx: nat) returns (next: nat)
    requires s.Valid() && l < s.layers && Filled(s, midx, idx, Node(l, 0, 0))
    modifies midx
    ensures Filled(s, midx, next, Node(l + 1, 0, 0))
  {
    hide Row, RowsBefore, Matrix;
    next := idx;
    var j := 0;
    while j < s.z
      invariant 0 <= j <= s.z && Filled(s, midx, next, Node(l, j, 0))
    {
      var i := 0;
      while i < s.x
        invariant 0 <= i <= s.x && Filled(s, midx, next, Node(l, j, i))
      {
        NextAlong(s, Node(l, j, i));
        next := FillRow(s, Node(l, j, i), midx, next);
        i := i + 1;
      }
      NextAcross(s, l, j);
      j := j + 1;
    }
    NextAcross(s, l, 0);
  }

  /** `calculate_Midx_array`: count, allocate exactly that many, fill every one. */
  method CalculateMidx(s: Stack) returns (midx: array<Entry>)
    requires s.Valid()
    ensures fresh(midx) && midx[..] == Matrix(s)
  {
    hide RowsBefore, Row;
    var count := CountEntries(s);
    midx := new Entry[count](_ => Entry(0, 0, 0.0));
    NothingFilled(s);
    var idx: nat := 0;
    var l := 0;
    while l < s.layers
      invariant 0 <= l <= s.layers && fresh(midx) && Filled(s, midx, idx, Node(l, 0, 0))
    {
      idx := FillLayer(s, l, midx, idx);
      l := l + 1;
    }
    assert midx[..idx] == midx[..];
  }

  lemma NothingFilled(s: Stack)
    requires s.Valid()
    ensures RowsBefore(s, Node(0, 0, 0)) == []
  {
  }

  // ---- compressed form ----------------------------------------------------------------------------------------

  /** Row `r` occupies exactly the places from `xa[r]` up to `xa[r + 1]`. */
  ghost predicate Spans(entries: seq<Entry>, xa: seq<int>, r: nat)
    requires r + 1 < |xa|
  {
    && 0 <= xa[r] < xa[r + 1] <= |entries|
    && forall k :: 0 <= k < |entries| ==> (entries[k].row == r <==> xa[r] <= k < xa[r + 1])
  }

  ghost predicate Compressed(entries: seq<Entry>, n: nat, xa: seq<int>) {
    |xa| == n + 1 && xa[n] == |entries| && forall r :: 0 <= r < n ==> Spans(entries, xa, r)
  }

  lemma {:induction false} RowsMonotone(entries: seq<Entry>, n: nat, k: nat, m: nat)
    requires InOrder(entries, n) && k <= m < |entries|
    ensures entries[k].row <= entries[m].row
    decreases m - k
  {
    if k < m {
      RowsMonotone(entries, n, k, m - 1);
      assert Follows(entries[m - 1], entries[m]);
    }
  }

  lemma RowsBounded(entries: seq<Entry>, n: nat, k: nat)
    requires InOrder(entries, n) && k < |entries|
    ensures 0 <= entries[k].row < n
  {
    RowsMonotone(entries, n, 0, k);
    RowsMonotone(entries, n, k, |entries| - 1);
  }

  /** The starts of the rows met in the first `i` entries. */
  ghost predicate Starts(entries: seq<Entry>, i: nat, row: int, xa: seq<int>)
    requires i <= |entries|
  {
    && -1 <= row < |xa| - 1 && row == (if i == 0 then -1 else entries[i - 1].row)
    && forall r :: 0 <= r <= row ==>
      0 <= xa[r] < i && entries[xa[r]].row == r && (xa[r] > 0 ==> entries[xa[r] - 1].row == r - 1)
  }

  lemma StartsFit(entries: seq<Entry>, n: nat, xa: seq<int>, r: nat, k: nat)
    requires InOrder(entries, n) && n > 0 && |xa| == n + 1 && Starts(entries, |entries|, n - 1, xa)
    requires xa[n] == |entries|
    requires r < n && k < |entries|
    ensures 0 <= xa[r] < xa[r + 1] <= |entries| && (entries[k].row == r <==> xa[r] <= k < xa[r + 1])
  {
    if r + 1 < n && xa[r + 1] <= xa[r] {
      RowsMonotone(entries, n, xa[r + 1], xa[r]);
    }
    if k < xa[r] {
      RowsMonotone(entries, n, k, xa[r] - 1);
    } else {
      RowsMonotone(entries, n, xa[r], k);
    }
    if r + 1 < n {
      if k < xa[r + 1] {
        RowsMonotone(entries, n, k, xa[r + 1] - 1);
      } else {
        RowsMonotone(entries, n, xa[r + 1], k);
      }
    } else {
      RowsBounded(entries, n, k);
    }
  }

  lemma RowSpans(entries: seq<Entry>, n: nat, xa: seq<int>, r: nat)
    requires InOrder(entries, n) && n > 0 && |xa| == n + 1 && Starts(entries, |entries|, n - 1, xa)
    requires xa[n] == |entries| && r < n
    ensures Spans(entries, xa, r)
  {
    hide InOrder;
    StartsFit(entries, n, xa, r, xa[r]);
    forall k | 0 <= k < |entries| ensures entries[k].row == r <==> xa[r] <= k < xa[r + 1] {
      StartsFit(entries, n, xa, r, k);
    }
  }

  lemma StartsNext(entries: seq<Entry>, n: nat, i: nat, row: int, xa: seq<int>)
    requires InOrder(entries, n) && i < |entries| && |xa| == n + 1 && Starts(entries, i, row, xa)
    ensures row <= entries[i].row < n
    ensures entries[i].row == row ==> Starts(entries, i + 1, row, xa)
    ensures entries[i].row > row ==> Starts(entries, i + 1, entries[i].row, xa[entries[i].row := i])
  {
    RowsBounded(entries, n, i);
    assert i > 0 ==> Follows(entries[i - 1], entries[i]);
  }

  lemma StartsBegin(entries: seq<Entry>, xa: seq<int>)
    requires |xa| > 0
    ensures Starts(entries, 0, -1, xa)
  {
  }

  lemma StartsEnd(entries: seq<Entry>, n: nat, row: int, xa: seq<int>)
    requires InOrder(entries, n) && n > 0 && |xa| == n + 1 && Starts(entries, |entries|, row, xa)
    ensures row == n - 1 && Compressed(entries, n, xa[n := |entries|])
  {
    var ys := xa[n := |entries|];
    forall r | 0 <= r < n ensures Spans(entries, ys, r) {
      RowSpans(entries, n, ys, r);
    }
  }

  /** The arrays handed to the linear solver. */
  method Compress(midx: array<Entry>, n: nat) returns (a: array<real>, asub: array<int>, xa: array<int>)
    requires n > 0 && InOrder(midx[..], n)
    ensures a.Length == asub.Length == midx.Length && Compressed(midx[..], n, xa[..])
    ensures forall k :: 0 <= k < midx.Length ==> a[k] == midx[k].val && asub[k] == midx[k].col
  {
    hide InOrder, Starts, Compressed;
    var count := midx.Length;
    ghost var entries := midx[..];
    a, asub, xa := new real[count], new int[count], new int[n + 1];
    var row := -1;
    StartsBegin(entries, xa[..]);
    var i := 0;
    while i < count
      invariant 0 <= i <= count && midx[..] == entries && Starts(entries, i, row, xa[..])
      invariant forall k :: 0 <= k < i ==> a[k] == midx[k].val && asub[k] == midx[k].col
    {
      StartsNext(entries, n, i, row, xa[..]);
      assert midx[i] == entries[i] && -1 <= row by { RowAtLeast(entries, i, row, xa[..]); }
      if midx[i].row > row {
        row := midx[i].row;
        xa[row] := i;
      }
      a[i] := midx[i].val;
      asub[i] := midx[i].col;
      i := i + 1;
    }
    StartsEnd(entries, n, row, xa[..]);
    xa[row + 1] := count;
  }

  lemma RowAtLeast(entries: seq<Entry>, i: nat, row: int, xa: seq<int>)
    requires i <= |entries| && Starts(entries, i, row, xa)
    ensures -1 <= row
  {
  }

  /** The compressed arrays hold `v` at place `c` of line `r`. */
  ghost predicate Stores(entries: seq<Entry>, xa: seq<int>, r: nat, c: int, v: real)
    requires r + 1 < |xa|
  {
    exists k :: 0 <= k < |entries| && xa[r] <= k < xa[r + 1] && entries[k].col == c && entries[k].val == v
  }

  lemma StoresEntry(entries: seq<Entry>, xa: seq<int>, r: nat, c: int, v: real)
    requires r + 1 < |xa| && Spans(entries, xa, r)
    ensures Stores(entries, xa, r, c, v) <==> Entry(r, c, v) in entries
  {
    if Entry(r, c, v) in entries {
      var k :| 0 <= k < |entries| && entries[k] == Entry(r, c, v);
    }
  }

  /** Reading the compressed rows as columns gives the same matrix. */
  lemma RowsAreColumns(s: Stack, xa: seq<int>, r: nat, c: nat, v: real)
    requires s.Valid() && Compressed(Matrix(s), s.Cells(), xa) && r < s.Cells() && c < s.Cells()
    ensures Stores(Matrix(s), xa, r, c, v) <==> Stores(Matrix(s), xa, c, r, v)
  {
    hide Matrix, Spans, Stores, Stack.Cells;
    StoresEntry(Matrix(s), xa, r, c, v);
    StoresEntry(Matrix(s), xa, c, r, v);
    if Entry(r, c, v) in Matrix(s) {
      Symmetric(s, Entry(r, c, v));
    }
    if Entry(c, r, v) in Matrix(s) {
      Symmetric(s, Entry(c, r, v));
    }
  }
}

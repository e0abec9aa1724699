/** Which cells the matrix joins, and by how much: exactly the neighbours of the grid, each by the inverse of the
    resistance between them. */
module ThermalEntries {
  import opened ThermalMatrix
  import opened ThermalStep

  predicate Next(a: nat, b: nat) {
    a == b + 1 || b == a + 1
  }

  /** Half a cell up and half a cell down. */
  function Between(s: Stack, n: Node, m: Node): real {
    s.rvert(n.i, n.j, n.l) / 2.0 + s.rvert(m.i, m.j, m.l) / 2.0
  }

  /** Conductance `g` and resistance `r`. */
  predicate Inverts(g: real, r: real) {
    g * r == 1.0
  }

  /** Cells `n` and `m` lie next to each other and `g` is the conductance between them. */
  predicate Joined(s: Stack, n: Node, m: Node, g: real) {
    || (Next(n.l, m.l) && n.j == m.j && n.i == m.i && Inverts(g, Between(s, n, m)))
    || (n.l == m.l && n.j == m.j && Next(n.i, m.i) && Inverts(g, s.rx(n.l)))
    || (n.l == m.l && Next(n.j, m.j) && n.i == m.i && Inverts(g, s.rz(n.l)))
  }

  lemma Inverse(g: real, r: real)
    requires r > 0.0
    ensures g == 1.0 / r <==> Inverts(g, r)
  {
    if g * r == 1.0 {
      assert g == (g * r) / r;
    }
  }

  lemma SameCell(s: Stack, n: Node, m: Node)
    requires s.Valid() && s.Has(n) && s.Has(m) && s.Index(n) == s.Index(m)
    ensures n == m
  {
    hide Stack.Index;
    if Before(n, m) {
      IndexGrows(s, n, m);
    } else if Before(m, n) {
      IndexGrows(s, m, n);
    }
  }

  /** The links of a cell are the joined cells. */
  lemma LinkIsJoined(s: Stack, n: Node, link: Link)
    requires s.Valid() && s.Has(n) && link in Links(s, n)
    ensures Joined(s, n, link.to, link.g)
  {
    hide Inverts, Vertical;
    var m, g := link.to, link.g;
    if link in Down(s, n) || link in Up(s, n) {
      VerticalIs(s, n, m, g);
    } else if link in Left(s, n) || link in Right(s, n) {
      Inverse(g, s.rx(n.l));
    } else {
      assert link in Back(s, n) || link in Front(s, n);
      Inverse(g, s.rz(n.l));
    }
  }

  lemma VerticalIs(s: Stack, n: Node, m: Node, g: real)
    requires s.Valid() && Next(n.l, m.l) && n.j == m.j && n.i == m.i
    ensures g == Vertical(s, n.j, n.i, if n.l < m.l then n.l else m.l) <==> Inverts(g, Between(s, n, m))
  {
    hide Inverts;
    Inverse(g, Between(s, n, m));
  }

  lemma JoinedIsLink(s: Stack, n: Node, m: Node, g: real)
    requires s.Valid() && s.Has(n) && s.Has(m) && Joined(s, n, m, g)
    ensures Link(m, g) in Links(s, n)
  {
    hide Inverts, Vertical;
    if Next(n.l, m.l) && n.j == m.j && n.i == m.i {
      VerticalIs(s, n, m, g);
    }
    Inverse(g, s.rx(n.l));
    Inverse(g, s.rz(n.l));
    var below, above := LinksBelow(s, n), LinksAbove(s, n);
    assert Link(m, g) in below || Link(m, g) in above;
  }

  /** Off the diagonal the matrix has exactly one kind of entry: minus the conductance between neighbours. */
  lemma OffDiagonal(s: Stack, n: Node, m: Node, g: real)
    requires s.Valid() && s.Has(n) && s.Has(m) && n != m
    ensures Entry(s.Index(n), s.Index(m), -g) in Matrix(s) <==> Joined(s, n, m, g)
  {
    hide Row, RowsBefore, Links, Joined, Stack.Index;
    var end := Node(s.layers, 0, 0);
    var e := Entry(s.Index(n), s.Index(m), -g);
    if Joined(s, n, m, g) {
      JoinedIsLink(s, n, m, g);
      LinkEntry(s, n, Link(m, g));
      RowIsThere(s, n, end, e);
    }
    if e in Matrix(s) {
      EntryIsJoined(s, n, m, g);
    }
  }

  lemma EntryIsJoined(s: Stack, n: Node, m: Node, g: real)
    requires s.Valid() && s.Has(n) && s.Has(m) && n != m && Entry(s.Index(n), s.Index(m), -g) in Matrix(s)
    ensures Joined(s, n, m, g)
  {
    hide Row, RowsBefore, Links, Joined, Stack.Index;
    var e := Entry(s.Index(n), s.Index(m), -g);
    var k := EntryHasRow(s, Node(s.layers, 0, 0), e);
    var link := EntryLink(s, k, e);
    RowOf(s, k, e);
    SameCell(s, k, n);
    if e == Diagonal(s, n) {
      SameCell(s, n, m);
    } else {
      LinkBack(s, n, link);
      SameCell(s, link.to, m);
      LinkIsJoined(s, n, link);
    }
  }

  lemma RowOf(s: Stack, k: Node, e: Entry)
    requires s.Valid() && e in Row(s, k)
    ensures e.row == s.Index(k)
  {
    hide LinksBelow, LinksAbove, Stack.Index;
  }

  /** And on the diagonal, one entry per cell: what flows out to all neighbours and, from the heat sink, to ambient. */
  lemma OnDiagonal(s: Stack, n: Node, v: real)
    requires s.Valid() && s.Has(n)
    ensures Entry(s.Index(n), s.Index(n), v) in Matrix(s) <==>
      v == Conductance(Links(s, n)) + if n.l == 0 then 1.0 / s.ramb else 0.0
  {
    hide Row, RowsBefore, Links, Stack.Index, Conductance;
    var end := Node(s.layers, 0, 0);
    var e := Entry(s.Index(n), s.Index(n), v);
    if e == Diagonal(s, n) {
      DiagonalThere(s, n);
      RowIsThere(s, n, end, e);
    }
    if e in Matrix(s) {
      var k := EntryHasRow(s, end, e);
      var link := EntryLink(s, k, e);
      RowOf(s, k, e);
      SameCell(s, k, n);
      if e != Diagonal(s, n) {
        LinkBack(s, n, link);
        OtherCell(s, n, link);
      }
    }
  }

  lemma DiagonalThere(s: Stack, n: Node)
    requires s.Valid()
    ensures Diagonal(s, n) in Row(s, n)
  {
    hide LinksBelow, LinksAbove, Diagonal;
    assert Row(s, n)[|LinksBelow(s, n)|] == Diagonal(s, n);
  }
}

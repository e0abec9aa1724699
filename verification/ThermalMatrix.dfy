/** The conductance matrix of a stack of layers, as a list of entries in the order of its rows: what the assembly
    has to produce, and why it is symmetric with known row sums. */
module ThermalMatrix {
  import opened Sums

  /** The number of cells in both directions and of layers, the first being the heat sink, and the resistances:
      vertical ones per cell, horizontal ones per layer, and the one to ambient. */
  datatype Stack = Stack(x: nat, z: nat, layers: nat, rvert: (nat, nat, nat) -> real, rx: nat -> real,
                         rz: nat -> real, ramb: real)
  {
    ghost predicate Valid() {
      && x > 0 && z > 0 && layers > 0 && ramb > 0.0
      && (forall i, j, l :: rvert(i, j, l) > 0.0) && (forall l :: rx(l) > 0.0 && rz(l) > 0.0)
    }

    predicate Has(n: Node) {
      n.l < layers && n.j < z && n.i < x
    }

    function Plane(): nat {
      x * z
    }

    /** The number of cells. */
    function Cells(): nat {
      layers * Plane()
    }

    /** The number of a cell. */
    function Index(n: Node): nat {
      n.l * Plane() + n.j * x + n.i
    }
  }

  datatype Node = Node(l: nat, j: nat, i: nat)

  datatype Entry = Entry(row: int, col: int, val: real)

  // ---- one row ----------------------------------------------------------------------------------------------

  /** Conductance between layers `l` and `l + 1`. */
  function Vertical(s: Stack, j: nat, i: nat, l: nat): real
    requires s.rvert(i, j, l) / 2.0 + s.rvert(i, j, l + 1) / 2.0 != 0.0
  {
    1.0 / (s.rvert(i, j, l) / 2.0 + s.rvert(i, j, l + 1) / 2.0)
  }

  /** A neighbour and the conductance to it. */
  datatype Link = Link(to: Node, g: real)

  // The six neighbours, each if it is there.

  function Down(s: Stack, n: Node): (r: seq<Link>)
    requires s.Valid()
    ensures |r| <= 1
  {
    if n.l > 0 then [Link(n.(l := n.l - 1), Vertical(s, n.j, n.i, n.l - 1))] else []
  }

  function Back(s: Stack, n: Node): (r: seq<Link>)
    requires s.Valid()
    ensures |r| <= 1
  {
    if n.j > 0 then [Link(n.(j := n.j - 1), 1.0 / s.rz(n.l))] else []
  }

  function Left(s: Stack, n: Node): (r: seq<Link>)
    requires s.Valid()
    ensures |r| <= 1
  {
    if n.i > 0 then [Link(n.(i := n.i - 1), 1.0 / s.rx(n.l))] else []
  }

  function Right(s: Stack, n: Node): (r: seq<Link>)
    requires s.Valid()
    ensures |r| <= 1
  {
    if n.i + 1 < s.x then [Link(n.(i := n.i + 1), 1.0 / s.rx(n.l))] else []
  }

  function Front(s: Stack, n: Node): (r: seq<Link>)
    requires s.Valid()
    ensures |r| <= 1
  {
    if n.j + 1 < s.z then [Link(n.(j := n.j + 1), 1.0 / s.rz(n.l))] else []
  }

  function Up(s: Stack, n: Node): (r: seq<Link>)
    requires s.Valid()
    ensures |r| <= 1
  {
    if n.l + 1 < s.layers then [Link(n.(l := n.l + 1), Vertical(s, n.j, n.i, n.l))] else []
  }

  ghost function LinksBelow(s: Stack, n: Node): seq<Link>
    requires s.Valid()
  {
    Down(s, n) + Back(s, n) + Left(s, n)
  }

  ghost function LinksAbove(s: Stack, n: Node): seq<Link>
    requires s.Valid()
  {
    Right(s, n) + Front(s, n) + Up(s, n)
  }

  ghost function Links(s: Stack, n: Node): seq<Link>
    requires s.Valid()
  {
    LinksBelow(s, n) + LinksAbove(s, n)
  }

  ghost function Conductance(links: seq<Link>): real {
    if links == [] then 0.0 else Conductance(links[..|links| - 1]) + links[|links| - 1].g
  }

  /** To ambient: only the heat sink has it. */
  ghost function Sink(s: Stack, n: Node): real
    requires s.Valid()
  {
    if n.l == 0 then 1.0 / s.ramb else 0.0
  }

  ghost function Entries(s: Stack, n: Node, links: seq<Link>): (r: seq<Entry>)
    ensures |r| == |links|
    ensures forall k :: 0 <= k < |links| ==> r[k] == Entry(s.Index(n), s.Index(links[k].to), -links[k].g)
  {
    seq(|links|, k requires 0 <= k < |links| => Entry(s.Index(n), s.Index(links[k].to), -links[k].g))
  }

  ghost function Diagonal(s: Stack, n: Node): Entry
    requires s.Valid()
  {
    Entry(s.Index(n), s.Index(n), Conductance(Links(s, n)) + Sink(s, n))
  }

  ghost function Row(s: Stack, n: Node): seq<Entry>
    requires s.Valid()
  {
    Entries(s, n, LinksBelow(s, n)) + [Diagonal(s, n)] + Entries(s, n, LinksAbove(s, n))
  }

  // ---- numbering -------------------------------------------------------------------------------------------------

  lemma Distribute(a: int, b: int, c: int)
    ensures (a + b) * c == a * c + b * c
  {
  }

  lemma MulAtLeast(a: nat, b: nat, k: nat)
    requires b >= k
    ensures a * b >= a * k
  {
  }

  /** The numbers of the neighbours. */
  lemma Steps(s: Stack, n: Node)
    ensures s.Index(n.(i := n.i + 1)) == s.Index(n) + 1
    ensures s.Index(n.(j := n.j + 1)) == s.Index(n) + s.x
    ensures s.Index(n.(l := n.l + 1)) == s.Index(n) + s.Plane()
  {
    Distribute(n.j, 1, s.x);
    Distribute(n.l, 1, s.Plane());
  }

  lemma BelowColumns(s: Stack, n: Node, k: nat)
    requires s.Valid() && s.Has(n) && k < |LinksBelow(s, n)|
    ensures s.Index(LinksBelow(s, n)[k].to) < s.Index(n)
    ensures k > 0 ==> s.Index(LinksBelow(s, n)[k - 1].to) < s.Index(LinksBelow(s, n)[k].to)
  {
    hide Vertical, Stack.Index;
    if n.l > 0 {
      Steps(s, n.(l := n.l - 1));
    }
    if n.j > 0 {
      Steps(s, n.(j := n.j - 1));
      MulAtLeast(s.x, s.z, 2);
    }
    if n.i > 0 {
      Steps(s, n.(i := n.i - 1));
    }
    MulAtLeast(s.x, s.z, 1);
  }

  lemma AboveColumns(s: Stack, n: Node, k: nat)
    requires s.Valid() && s.Has(n) && k < |LinksAbove(s, n)|
    ensures s.Index(n) < s.Index(LinksAbove(s, n)[k].to)
    ensures k > 0 ==> s.Index(LinksAbove(s, n)[k - 1].to) < s.Index(LinksAbove(s, n)[k].to)
  {
    hide Vertical, Stack.Index;
    Steps(s, n);
    if n.j + 1 < s.z {
      MulAtLeast(s.x, s.z, 2);
    }
    MulAtLeast(s.x, s.z, 1);
  }

  ghost predicate StrictlySorted(row: seq<Entry>) {
    forall k :: 0 < k < |row| ==> row[k - 1].col < row[k].col
  }

  /** Within a row the columns increase strictly. */
  lemma RowSorted(s: Stack, n: Node)
    requires s.Valid() && s.Has(n)
    ensures StrictlySorted(Row(s, n))
  {
    hide LinksBelow, LinksAbove, Diagonal, Stack.Index;
    var row, m := Row(s, n), |LinksBelow(s, n)|;
    forall k | 0 < k < |row| ensures row[k - 1].col < row[k].col {
      if k <= m {
        BelowColumns(s, n, if k < m then k else k - 1);
      } else {
        AboveColumns(s, n, k - m - 1);
      }
      assert row[m] == Diagonal(s, n);
      DiagonalColumn(s, n);
    }
  }

  lemma DiagonalColumn(s: Stack, n: Node)
    requires s.Valid()
    ensures Diagonal(s, n).col == s.Index(n) && Diagonal(s, n).row == s.Index(n)
  {
  }

  // ---- row sums -------------------------------------------------------------------------------------------------

  ghost function Total(entries: seq<Entry>): real {
    if entries == [] then 0.0 else Total(entries[..|entries| - 1]) + entries[|entries| - 1].val
  }

  lemma {:induction false} TotalAppend(a: seq<Entry>, b: seq<Entry>)
    ensures Total(a + b) == Total(a) + Total(b)
  {
    if b == [] {
      assert a + b == a;
    } else {
      var n := |b| - 1;
      TotalAppend(a, b[..n]);
      assert (a + b)[..|a + b| - 1] == a + b[..n];
    }
  }

  lemma {:induction false} ConductanceAppend(a: seq<Link>, b: seq<Link>)
    ensures Conductance(a + b) == Conductance(a) + Conductance(b)
  {
    if b == [] {
      assert a + b == a;
    } else {
      var n := |b| - 1;
      ConductanceAppend(a, b[..n]);
      assert (a + b)[..|a + b| - 1] == a + b[..n];
    }
  }

  lemma {:induction false} EntriesTotal(s: Stack, n: Node, links: seq<Link>)
    ensures Total(Entries(s, n, links)) == -Conductance(links)
  {
    hide Stack.Index;
    if links != [] {
      var k := |links| - 1;
      EntriesTotal(s, n, links[..k]);
      assert Entries(s, n, links)[..k] == Entries(s, n, links[..k]);
    }
  }

  /** What flows out of a cell flows into its neighbours, or to ambient from the heat sink. */
  lemma RowTotal(s: Stack, n: Node)
    requires s.Valid()
    ensures Total(Row(s, n)) == if n.l == 0 then 1.0 / s.ramb else 0.0
  {
    hide LinksBelow, LinksAbove, Entries, Stack.Index;
    var below, above := Entries(s, n, LinksBelow(s, n)), Entries(s, n, LinksAbove(s, n));
    TotalAppend(below + [Diagonal(s, n)], above);
    TotalAppend(below, [Diagonal(s, n)]);
    assert [Diagonal(s, n)][..0] == [];
    EntriesTotal(s, n, LinksBelow(s, n));
    EntriesTotal(s, n, LinksAbove(s, n));
    ConductanceAppend(LinksBelow(s, n), LinksAbove(s, n));
  }

  // ---- symmetry -------------------------------------------------------------------------------------------------

  lemma BelowBack(s: Stack, n: Node, link: Link)
    requires s.Valid() && s.Has(n) && link in LinksBelow(s, n)
    ensures s.Has(link.to) && Link(n, link.g) in LinksAbove(s, link.to)
  {
    hide Vertical;
  }

  lemma AboveBack(s: Stack, n: Node, link: Link)
    requires s.Valid() && s.Has(n) && link in LinksAbove(s, n)
    ensures s.Has(link.to) && Link(n, link.g) in LinksBelow(s, link.to)
  {
    hide Vertical;
  }

  /** A link is a link both ways. */
  lemma LinkBack(s: Stack, n: Node, link: Link)
    requires s.Valid() && s.Has(n) && link in Links(s, n)
    ensures s.Has(link.to) && Link(n, link.g) in Links(s, link.to)
  {
    hide LinksBelow, LinksAbove;
    if link in LinksBelow(s, n) {
      BelowBack(s, n, link);
    } else {
      AboveBack(s, n, link);
    }
  }

  lemma LinkEntry(s: Stack, n: Node, link: Link)
    requires s.Valid() && link in Links(s, n)
    ensures Entry(s.Index(n), s.Index(link.to), -link.g) in Row(s, n)
  {
    hide LinksBelow, LinksAbove, Diagonal, Stack.Index;
    var below, above := LinksBelow(s, n), LinksAbove(s, n);
    if link in below {
      var k :| 0 <= k < |below| && below[k] == link;
      assert Row(s, n)[k] == Entries(s, n, below)[k];
    } else {
      var k :| 0 <= k < |above| && above[k] == link;
      assert Row(s, n)[|below| + 1 + k] == Entries(s, n, above)[k];
    }
  }

  /** An entry is on the diagonal or comes from a link. */
  lemma EntryLink(s: Stack, n: Node, e: Entry) returns (link: Link)
    requires s.Valid() && e in Row(s, n)
    ensures e == Diagonal(s, n) || (link in Links(s, n) && e == Entry(s.Index(n), s.Index(link.to), -link.g))
  {
    hide LinksBelow, LinksAbove, Diagonal, Stack.Index;
    var below, above := LinksBelow(s, n), LinksAbove(s, n);
    link := Link(n, 0.0);
    var k :| 0 <= k < |Row(s, n)| && Row(s, n)[k] == e;
    if k < |below| {
      link := below[k];
      assert Links(s, n)[k] == link;
    } else if k > |below| {
      link := above[k - |below| - 1];
      assert Links(s, n)[k - 1] == link;
    }
  }

  // ---- all rows --------------------------------------------------------------------------------------------------

  /** The rows of all cells before `n`, in order: by layer, then by `j`, then by `i`. */
  ghost function RowsBefore(s: Stack, n: Node): seq<Entry>
    requires s.Valid()
    decreases n.l, n.j, n.i
  {
    if n.i > 0 then RowsBefore(s, n.(i := n.i - 1)) + Row(s, n.(i := n.i - 1))
    else if n.j > 0 then RowsBefore(s, Node(n.l, n.j - 1, s.x))
    else if n.l > 0 then RowsBefore(s, Node(n.l - 1, s.z, 0))
    else []
  }

  /** The whole matrix. */
  ghost function Matrix(s: Stack): seq<Entry>
    requires s.Valid()
  {
    RowsBefore(s, Node(s.layers, 0, 0))
  }

  predicate Before(m: Node, n: Node) {
    m.l < n.l || (m.l == n.l && (m.j < n.j || (m.j == n.j && m.i < n.i)))
  }

  /** Wrapping around does not change the number. */
  lemma Wraps(s: Stack, l: nat, j: nat)
    ensures s.Index(Node(l, j + 1, 0)) == s.Index(Node(l, j, s.x))
    ensures s.Index(Node(l + 1, 0, 0)) == s.Index(Node(l, s.z, 0))
  {
    Distribute(j, 1, s.x);
    Distribute(l, 1, s.Plane());
  }

  /** Every row of a cell before `n` is there. */
  lemma {:induction false} RowIsThere(s: Stack, m: Node, n: Node, e: Entry)
    requires s.Valid() && s.Has(m) && Before(m, n) && e in Row(s, m)
    ensures e in RowsBefore(s, n)
    decreases n.l, n.j, n.i
  {
    hide Row, Stack.Index;
    if n.i > 0 {
      if m != n.(i := n.i - 1) {
        RowIsThere(s, m, n.(i := n.i - 1), e);
      }
    } else if n.j > 0 {
      RowIsThere(s, m, Node(n.l, n.j - 1, s.x), e);
    } else {
      RowIsThere(s, m, Node(n.l - 1, s.z, 0), e);
    }
  }

  /** Every entry before `n` is in the row of a cell before `n`. */
  lemma {:induction false} EntryHasRow(s: Stack, n: Node, e: Entry) returns (m: Node)
    requires s.Valid() && n.j <= s.z && n.i <= s.x && n.l <= s.layers && (n.l == s.layers ==> n.j == n.i == 0)
    requires (n.j == s.z ==> n.i == 0) && e in RowsBefore(s, n)
    ensures s.Has(m) && Before(m, n) && e in Row(s, m)
    decreases n.l, n.j, n.i
  {
    hide Row, Stack.Index;
    if n.i > 0 {
      var prior := n.(i := n.i - 1);
      if e in Row(s, prior) {
        m := prior;
      } else {
        m := EntryHasRow(s, prior, e);
      }
    } else if n.j > 0 {
      m := EntryHasRow(s, Node(n.l, n.j - 1, s.x), e);
    } else {
      m := EntryHasRow(s, Node(n.l - 1, s.z, 0), e);
    }
  }

  /** The matrix is symmetric: this is what lets its rows be handed over as columns. */
  lemma Symmetric(s: Stack, e: Entry)
    requires s.Valid() && e in Matrix(s)
    ensures Entry(e.col, e.row, e.val) in Matrix(s)
  {
    hide Row, RowsBefore, Links, Stack.Index;
    var end := Node(s.layers, 0, 0);
    var n := EntryHasRow(s, end, e);
    var link := EntryLink(s, n, e);
    if e == Diagonal(s, n) {
      assert Entry(e.col, e.row, e.val) == e;
    } else {
      LinkBack(s, n, link);
      LinkEntry(s, link.to, Link(n, link.g));
      RowIsThere(s, link.to, end, Entry(e.col, e.row, e.val));
    }
  }

  // ---- how many, and in which order ------------------------------------------------------------------------------

  /** Neighbours of a cell. */
  function Degree(s: Stack, n: Node): int {
    (if n.i > 0 then 1 else 0) + (if n.i + 1 < s.x then 1 else 0) + (if n.j > 0 then 1 else 0) +
      (if n.j + 1 < s.z then 1 else 0) +
    (if n.l + 1 < s.layers then 1 else 0) + (if n.l > 0 then 1 else 0)
  }

  ghost function DegreeIn(s: Stack, l: nat): (nat, nat) -> int {
    (i: nat, j: nat) => Degree(s, Node(l, j, i))
  }

  lemma LinksLength(s: Stack, n: Node)
    requires s.Valid()
    ensures |LinksBelow(s, n)| + |LinksAbove(s, n)| == Degree(s, n)
  {
    hide Vertical, Stack.Index;
  }

  lemma RowLength(s: Stack, n: Node)
    requires s.Valid()
    ensures |Row(s, n)| == Degree(s, n) + 1
  {
    hide LinksBelow, LinksAbove, Degree, Diagonal, Stack.Index;
    LinksLength(s, n);
  }

  /** Neighbours in the layers before `l`, counted along `j` first or along `i` first. */
  ghost function LayersByColumns(s: Stack, l: nat): int {
    if l == 0 then 0 else LayersByColumns(s, l - 1) + ByColumns(DegreeIn(s, l - 1), s.x, s.z)
  }

  ghost function LayersByRows(s: Stack, l: nat): int {
    if l == 0 then 0 else LayersByRows(s, l - 1) + ByRows(DegreeIn(s, l - 1), s.x, s.z)
  }

  lemma {:induction false} SameLayers(s: Stack, l: nat)
    ensures LayersByColumns(s, l) == LayersByRows(s, l)
  {
    if l > 0 {
      SameLayers(s, l - 1);
      Exchange(DegreeIn(s, l - 1), s.x, s.z);
    }
  }

  /** Entries before a cell: the neighbours of the cells before it, and those cells themselves. */
  ghost predicate LengthOk(s: Stack, n: Node)
    requires s.Valid()
  {
    |RowsBefore(s, n)| ==
      LayersByColumns(s, n.l) + ByColumns(DegreeIn(s, n.l), s.x, n.j) + ColSum(DegreeIn(s, n.l), n.j, n.i) + s.Index(n)
  }

  lemma LengthAlong(s: Stack, n: Node)
    requires s.Valid() && n.i > 0 && LengthOk(s, n.(i := n.i - 1))
    ensures LengthOk(s, n)
  {
    hide Row, Stack.Index, Degree, LayersByColumns, ByColumns;
    var prior := n.(i := n.i - 1);
    RowLength(s, prior);
    Steps(s, prior);
    assert DegreeIn(s, n.l)(n.i - 1, n.j) == Degree(s, prior);
  }

  lemma LengthAcross(s: Stack, l: nat, j: nat)
    requires s.Valid() && LengthOk(s, Node(l, j, s.x))
    ensures LengthOk(s, Node(l, j + 1, 0))
  {
    hide Row, Stack.Index, Degree, LayersByColumns, DegreeIn;
    Wraps(s, l, j);
    assert RowsBefore(s, Node(l, j + 1, 0)) == RowsBefore(s, Node(l, j, s.x));
    assert ByColumns(DegreeIn(s, l), s.x, j + 1) == ByColumns(DegreeIn(s, l), s.x, j) + ColSum(DegreeIn(s, l), j, s.x);
  }

  lemma LengthUp(s: Stack, l: nat)
    requires s.Valid() && LengthOk(s, Node(l, s.z, 0))
    ensures LengthOk(s, Node(l + 1, 0, 0))
  {
    hide Row, Stack.Index, Degree, DegreeIn;
    Wraps(s, l, 0);
    assert RowsBefore(s, Node(l + 1, 0, 0)) == RowsBefore(s, Node(l, s.z, 0));
  }

  lemma {:induction false} RowsLength(s: Stack, n: Node)
    requires s.Valid()
    ensures LengthOk(s, n)
    decreases n.l, n.j, n.i
  {
    hide LengthOk;
    if n.i > 0 {
      RowsLength(s, n.(i := n.i - 1));
      LengthAlong(s, n);
    } else if n.j > 0 {
      RowsLength(s, Node(n.l, n.j - 1, s.x));
      LengthAcross(s, n.l, n.j - 1);
    } else if n.l > 0 {
      RowsLength(s, Node(n.l - 1, s.z, 0));
      LengthUp(s, n.l - 1);
    } else {
      LengthAtOrigin(s);
    }
  }

  lemma LengthAtOrigin(s: Stack)
    requires s.Valid()
    ensures LengthOk(s, Node(0, 0, 0))
  {
    hide Row, Degree;
  }

  lemma Origin(s: Stack)
    ensures s.Index(Node(0, 0, 0)) == 0
  {
  }

  /** The matrix has one entry for every neighbour of every cell and one for every cell. */
  lemma MatrixLength(s: Stack)
    requires s.Valid()
    ensures |Matrix(s)| == LayersByRows(s, s.layers) + s.Cells()
  {
    hide RowsBefore, DegreeIn;
    RowsLength(s, Node(s.layers, 0, 0));
    SameLayers(s, s.layers);
  }

  /** Rows `0` to `n - 1`, each with some entry, one after the other, and in each row the columns increase. */
  ghost predicate InOrder(entries: seq<Entry>, n: nat) {
    && (n == 0 ==> entries == [])
    && (n > 0 ==> entries != [] && entries[0].row == 0 && entries[|entries| - 1].row == n - 1)
    && (forall k :: 0 < k < |entries| ==> Follows(entries[k - 1], entries[k]))
  }

  predicate Follows(a: Entry, b: Entry) {
    b.row == a.row + 1 || (b.row == a.row && a.col < b.col)
  }

  ghost predicate IsRow(row: seq<Entry>, r: nat) {
    row != [] && StrictlySorted(row) && forall k :: 0 <= k < |row| ==> row[k].row == r
  }

  lemma NextRow(entries: seq<Entry>, n: nat, row: seq<Entry>)
    requires InOrder(entries, n) && IsRow(row, n)
    ensures InOrder(entries + row, n + 1)
  {
    var all := entries + row;
    forall k | 0 < k < |all| ensures Follows(all[k - 1], all[k]) {
      if k > |entries| {
        assert row[k - |entries| - 1].col < row[k - |entries|].col;
      }
    }
  }

  lemma RowIsRow(s: Stack, n: Node)
    requires s.Valid() && s.Has(n)
    ensures IsRow(Row(s, n), s.Index(n))
  {
    hide LinksBelow, LinksAbove, Stack.Index;
    RowSorted(s, n);
  }

  lemma {:induction false} RowsInOrder(s: Stack, n: Node)
    requires s.Valid() && n.j <= s.z && n.i <= s.x && n.l <= s.layers && (n.l == s.layers ==> n.j == n.i == 0)
    requires (n.j == s.z ==> n.i == 0)
    ensures InOrder(RowsBefore(s, n), s.Index(n))
    decreases n.l, n.j, n.i
  {
    hide Row, Stack.Index, InOrder, IsRow;
    if n.i > 0 {
      var prior := n.(i := n.i - 1);
      RowsInOrder(s, prior);
      RowIsRow(s, prior);
      Steps(s, prior);
      NextRow(RowsBefore(s, prior), s.Index(prior), Row(s, prior));
    } else if n.j > 0 {
      RowsInOrder(s, Node(n.l, n.j - 1, s.x));
      Wraps(s, n.l, n.j - 1);
    } else if n.l > 0 {
      RowsInOrder(s, Node(n.l - 1, s.z, 0));
      Wraps(s, n.l - 1, 0);
    } else {
      Origin(s);
      NoEntries();
    }
  }

  lemma NoEntries()
    ensures InOrder([], 0)
  {
  }

  /** The matrix lists its rows in order, each strictly sorted by column, so no position occurs twice. */
  lemma MatrixInOrder(s: Stack)
    requires s.Valid()
    ensures InOrder(Matrix(s), s.Cells())
  {
    hide RowsBefore, InOrder;
    RowsInOrder(s, Node(s.layers, 0, 0));
  }
}

/** `Config::SetAddressMapping` and `Config::AddressMapping`: how a physical address is cut into
    channel, rank, bankgroup, bank, row and column by a twelve-character mapping string. */
module AddressMap {
  import opened DramTypes
  import opened BitFields
  import opened Division

  datatype Field = Ch | Ra | Bg | Ba | Ro | Co

  const ALL_FIELDS: set<Field> := {Ch, Ra, Bg, Ba, Ro, Co}

  datatype Shape = Shape(channels: int, ranks: int, bankgroups: int, banksPerGroup: int, rows: int,
                         columns: int, busWidth: nat, burstLength: nat, lp5: bool)
  {
    /** `request_size_bytes`, `shift_bits` */
    function Shift(): nat {
      Log2(busWidth / 8 * burstLength)
    }

    function ColumnBits(): int {
      if lp5 then Log2(columns) else Log2(columns) - Log2(burstLength)
    }

    function Width(f: Field): nat
      requires ColumnBits() >= 0
    {
      match f
      case Ch => Log2(channels)
      case Ra => Log2(ranks)
      case Bg => Log2(bankgroups)
      case Ba => Log2(banksPerGroup)
      case Ro => Log2(rows)
      case Co => ColumnBits()
    }

    /** How many values field `f` may take in this structure. */
    function Size(f: Field): int {
      match f
      case Ch => channels
      case Ra => ranks
      case Bg => bankgroups
      case Ba => banksPerGroup
      case Ro => rows
      case Co => columns
    }

    predicate Positive() {
      channels >= 1 && ranks >= 1 && bankgroups >= 1 && banksPerGroup >= 1 && rows >= 1 && columns >= 1
    }
  }

  /** A field's shift and its mask `2^width - 1`. */
  datatype BitRange = BitRange(pos: nat, width: nat)

  datatype Layout = Layout(shift: nat, ch: BitRange, ra: BitRange, bg: BitRange, ba: BitRange,
                           ro: BitRange, co: BitRange)
  {
    function Range(f: Field): BitRange {
      match f
      case Ch => ch
      case Ra => ra
      case Bg => bg
      case Ba => ba
      case Ro => ro
      case Co => co
    }

    function Extract(f: Field, hex: nat): nat {
      Slice(Shr(hex, shift), Range(f).pos, Range(f).width)
    }

    /** `Config::AddressMapping` */
    function Decode(hex: nat): Address {
      Address(Extract(Ch, hex), Extract(Ra, hex), Extract(Bg, hex), Extract(Ba, hex),
              Extract(Ro, hex), Extract(Co, hex))
    }

    /** `BaseDRAMSystem::GetChannel` repeats the channel part of the decoding. */
    function GetChannel(hex: nat): (r: nat)
      ensures r == Decode(hex).channel
    {
      Slice(Shr(hex, shift), ch.pos, ch.width)
    }
  }

  function FieldOf(a: Address, f: Field): int {
    match f
    case Ch => a.channel
    case Ra => a.rank
    case Bg => a.group
    case Ba => a.bank
    case Ro => a.row
    case Co => a.column
  }

  function ParseField(token: string): Option<Field> {
    if token == "ch" then Some(Ch)
    else if token == "ra" then Some(Ra)
    else if token == "bg" then Some(Bg)
    else if token == "ba" then Some(Ba)
    else if token == "ro" then Some(Ro)
    else if token == "co" then Some(Co)
    else None
  }

  /** A mapping string cut into tokens of two characters. */
  function Tokens(mapping: string): seq<string>
  {
    seq(|mapping| / 2, t requires 0 <= t < |mapping| / 2 => mapping[2 * t..2 * t + 2])
  }

  /** The tokens name the fields in `order`, least significant (last token) first. */
  ghost predicate Spells(tokens: seq<string>, order: seq<Field>) {
    && |tokens| == |order|
    && forall m :: 0 <= m < |order| ==> ParseField(tokens[|tokens| - 1 - m]) == Some(order[m])
  }

  /** Every field occurs exactly once. */
  ghost predicate Permutation(order: seq<Field>) {
    multiset(order) == multiset(ALL_FIELDS)
  }

  function Widths(s: Shape, order: seq<Field>): (ws: seq<nat>)
    requires s.ColumnBits() >= 0
    ensures |ws| == |order|
    ensures forall i :: 0 <= i < |ws| ==> ws[i] == s.Width(order[i])
  {
    if order == [] then [] else [s.Width(order[0])] + Widths(s, order[1..])
  }

  /** Each field sits directly above the fields before it in `order`. */
  ghost predicate Lays(s: Shape, order: seq<Field>, l: Layout)
    requires s.ColumnBits() >= 0
  {
    && l.shift == s.Shift()
    && forall m :: 0 <= m < |order| ==>
      l.Range(order[m]) == BitRange(Sum(Widths(s, order)[..m]), s.Width(order[m]))
  }

  /** The string is accepted exactly when its six tokens name the six fields in some order. */
  method SetAddressMapping(s: Shape, mapping: string) returns (r: Option<Layout>, ghost order: seq<Field>)
    requires s.ColumnBits() >= 0
    ensures r.Some? ==> |mapping| == 12 && Spells(Tokens(mapping), order) && Permutation(order)
    ensures r.Some? ==> Lays(s, order, r.value)
    ensures r.None? ==> |mapping| != 12 || forall o :: Permutation(o) ==> !Spells(Tokens(mapping), o)
  {
    order := [];
    if |mapping| != 12 {
      return None, order;
    }
    var fields := Tokenize(mapping);
    var fieldPos;
    fieldPos, order := PlaceFields(s, fields);
    if fieldPos.None? {
      return None, order;
    }
    if !HasAll(fieldPos.value) {
      forall o | Permutation(o) ensures !Spells(fields, o) {
        MissingField(s, fields, order, fieldPos.value, o);
      }
      return None, order;
    }
    r := Some(Assemble(s, fieldPos.value));
    PlacedLays(s, order, fieldPos.value);
  }

  /** The first loop. */
  method Tokenize(mapping: string) returns (fields: seq<string>)
    requires |mapping| == 12
    ensures fields == Tokens(mapping)
  {
    fields := [];
    var i := 0;
    while i < |mapping|
      invariant 0 <= i <= 12 && i == 2 * |fields|
      invariant fields == Tokens(mapping)[..|fields|]
    {
      fields := fields + [mapping[i..i + 2]];
      i := i + 2;
    }
  }

  /** `field_pos.at` finds every field. */
  predicate HasAll(pos: map<Field, nat>)
    ensures HasAll(pos) <==> forall f: Field :: f in pos
  {
    if Ch in pos && Ra in pos && Bg in pos && Ba in pos && Ro in pos && Co in pos then
      assert forall f: Field :: f in pos by {
        forall f: Field ensures f in pos { Listed(f); }
      }
      true
    else
      false
  }

  function Assemble(s: Shape, pos: map<Field, nat>): (l: Layout)
    requires s.ColumnBits() >= 0 && HasAll(pos)
    ensures forall f: Field :: l.Range(f) == BitRange(pos[f], s.Width(f))
  {
    Layout(s.Shift(), BitRange(pos[Ch], s.Width(Ch)), BitRange(pos[Ra], s.Width(Ra)),
           BitRange(pos[Bg], s.Width(Bg)), BitRange(pos[Ba], s.Width(Ba)),
           BitRange(pos[Ro], s.Width(Ro)), BitRange(pos[Co], s.Width(Co)))
  }

  /** The second loop: tokens are taken from the back and stacked upwards. */
  method PlaceFields(s: Shape, tokens: seq<string>)
    returns (r: Option<map<Field, nat>>, ghost order: seq<Field>)
    requires s.ColumnBits() >= 0 && |tokens| == 6
    ensures r.Some? ==> Spells(tokens, order) && Placed(s, order, r.value)
    ensures r.None? ==> forall o :: Permutation(o) ==> !Spells(tokens, o)
  {
    var fields := tokens;
    var fieldPos: map<Field, nat> := map[];
    var pos := 0;
    order := [];
    while fields != []
      invariant |fields| + |order| == 6 && fields == tokens[..|fields|]
      invariant Spells(tokens[|fields|..], order)
      invariant pos == Sum(Widths(s, order))
      invariant Placed(s, order, fieldPos)
    {
      var token := fields[|fields| - 1];
      fields := fields[..|fields| - 1];
      var field := ParseField(token);
      if field.None? {
        forall o | Permutation(o) ensures !Spells(tokens, o) { Unspelled(tokens, |order|, o); }
        return None, order;
      }
      PlaceNext(s, order, fieldPos, field.value);
      order := order + [field.value];
      fieldPos := fieldPos[field.value := pos];
      pos := pos + s.Width(field.value);
    }
    r := Some(fieldPos);
    assert tokens[0..] == tokens;
  }

  lemma PlacedLays(s: Shape, order: seq<Field>, pos: map<Field, nat>)
    requires s.ColumnBits() >= 0 && |order| == 6 && Placed(s, order, pos) && HasAll(pos)
    ensures Permutation(order)
    ensures Lays(s, order, Assemble(s, pos))
  {
    forall f: Field ensures f in order { assert f in pos; }
    AllPresent(order);
    forall m | 0 <= m < |order|
      ensures Assemble(s, pos).Range(order[m]) == BitRange(Sum(Widths(s, order)[..m]), s.Width(order[m]))
    {
      OccursOnce(order, m);
    }
  }

  lemma Listed(f: Field)
    ensures f in ALL_FIELDS
  {
    match f
    case Ch =>
    case Ra =>
    case Bg =>
    case Ba =>
    case Ro =>
    case Co =>
  }

  lemma PermutationLength(order: seq<Field>)
    requires Permutation(order)
    ensures |order| == 6 && forall f: Field :: f in order
  {
    assert |multiset(order)| == |order|;
    assert |multiset(ALL_FIELDS)| == |ALL_FIELDS| == 6;
    forall f: Field ensures f in order {
      Listed(f);
      assert f in multiset(order);
    }
  }

  /** Six tokens that name all six fields name each of them once. */
  lemma AllPresent(order: seq<Field>)
    requires |order| == 6 && forall f: Field :: f in order
    ensures Permutation(order)
  {
    var all := multiset(ALL_FIELDS);
    forall f: Field ensures all[f] <= multiset(order)[f] {
      assert f in order && f in multiset(order);
    }
    var extra := multiset(order) - all;
    assert multiset(order) == all + extra;
    assert |all| == |ALL_FIELDS| == 6;
  }

  lemma OccursOnce(order: seq<Field>, m: nat)
    requires Permutation(order) && m < |order|
    ensures order[m] !in order[m + 1..]
  {
    var f := order[m];
    assert order == order[..m] + [f] + order[m + 1..];
    assert multiset(order)[f] == multiset(order[..m])[f] + 1 + multiset(order[m + 1..])[f];
    Listed(f);
  }

  /** A spelling is unique, so tokens that leave a field out spell no permutation. */
  lemma MissingField(s: Shape, tokens: seq<string>, order: seq<Field>, pos: map<Field, nat>, o: seq<Field>)
    requires s.ColumnBits() >= 0 && Spells(tokens, order) && Placed(s, order, pos) && !HasAll(pos)
    requires Permutation(o)
    ensures !Spells(tokens, o)
  {
    PermutationLength(o);
    assert Spells(tokens, o) ==> o == order;
  }

  /** A list with an unknown token spells no order. */
  lemma Unspelled(tokens: seq<string>, m: nat, o: seq<Field>)
    requires m < |tokens| && ParseField(tokens[|tokens| - 1 - m]).None?
    ensures !Spells(tokens, o)
  {
    if |tokens| == |o| {
      assert !(ParseField(tokens[|tokens| - 1 - m]) == Some(o[m]));
    }
  }

  lemma {:induction false} SumAppend(a: seq<nat>, b: seq<nat>)
    ensures Sum(a + b) == Sum(a) + Sum(b)
  {
    if a == [] {
      assert a + b == b;
    } else {
      SumAppend(a[1..], b);
      assert (a + b)[1..] == a[1..] + b;
    }
  }

  lemma WidthsSnoc(s: Shape, order: seq<Field>, f: Field)
    requires s.ColumnBits() >= 0
    ensures Widths(s, order + [f]) == Widths(s, order) + [s.Width(f)]
  {
  }

  lemma SumSnoc(ws: seq<nat>, w: nat)
    ensures Sum(ws + [w]) == Sum(ws) + w
    ensures forall m :: 0 <= m <= |ws| ==> (ws + [w])[..m] == ws[..m]
    ensures ws[..|ws|] == ws
  {
    SumAppend(ws, [w]);
    assert Sum([w]) == w + Sum([]) by { assert [w][1..] == []; }
  }

  /** One more field on top of the ones already placed. */
  lemma PlaceNext(s: Shape, was: seq<Field>, fieldPos: map<Field, nat>, f: Field)
    requires s.ColumnBits() >= 0 && Placed(s, was, fieldPos)
    ensures Placed(s, was + [f], fieldPos[f := Sum(Widths(s, was))])
    ensures Sum(Widths(s, was + [f])) == Sum(Widths(s, was)) + s.Width(f)
  {
    hide Log2, Sum, Widths;
    WidthsSnoc(s, was, f);
    SumSnoc(Widths(s, was), s.Width(f));
    var order := was + [f];
    forall m | 0 <= m < |order| && order[m] !in order[m + 1..]
      ensures fieldPos[f := Sum(Widths(s, was))][order[m]] == Sum(Widths(s, order)[..m])
    {
      if m < |was| {
        assert order[m + 1..] == was[m + 1..] + [f];
      }
    }
  }

  /** `fieldPos` after the tokens in `order` were handled; a repeated token keeps its last place. */
  ghost predicate Placed(s: Shape, order: seq<Field>, fieldPos: map<Field, nat>)
    requires s.ColumnBits() >= 0
  {
    && fieldPos.Keys == (set f | f in order)
    && forall m :: 0 <= m < |order| && order[m] !in order[m + 1..] ==>
      fieldPos[order[m]] == Sum(Widths(s, order)[..m])
  }

  // ---- what an accepted mapping guarantees ------------------------------------------------

  /** The bit ranges tile the word: distinct fields do not overlap and there are no gaps. */
  lemma RangesTile(s: Shape, order: seq<Field>, l: Layout, a: nat, b: nat)
    requires s.ColumnBits() >= 0 && Permutation(order) && Lays(s, order, l)
    requires a < b < |order|
    ensures l.Range(order[a]).pos + s.Width(order[a]) <= l.Range(order[b]).pos
    ensures b == a + 1 ==> l.Range(order[a]).pos + s.Width(order[a]) == l.Range(order[b]).pos
  {
    var ws := Widths(s, order);
    assert ws[..b] == ws[..a] + [ws[a]] + ws[a + 1..b];
    SumAppend(ws[..a] + [ws[a]], ws[a + 1..b]);
    SumAppend(ws[..a], [ws[a]]);
  }

  /** Decoding field `m` is a bit slice. */
  lemma ExtractIsSlice(s: Shape, order: seq<Field>, l: Layout, m: nat, hex: nat)
    requires s.ColumnBits() >= 0 && Lays(s, order, l) && m < |order|
    ensures FieldOf(l.Decode(hex), order[m])
         == Slice(Shr(hex, s.Shift()), Sum(Widths(s, order)[..m]), s.Width(order[m]))
  {
    hide Slice, Shr, Sum, Log2, Widths;
  }

  lemma WidthFits(s: Shape, f: Field)
    requires s.ColumnBits() >= 0 && s.Positive()
    ensures Pow2(s.Width(f)) <= s.Size(f)
  {
    if f == Co {
      Log2Rounds(s.columns);
      Pow2Monotone(s.ColumnBits(), Log2(s.columns));
    } else {
      Log2Rounds(s.Size(f));
    }
  }

  /** Every decoded field indexes into its structure, also when a size is no power of two. */
  lemma DecodedInRange(s: Shape, order: seq<Field>, l: Layout, hex: nat, f: Field)
    requires s.ColumnBits() >= 0 && Permutation(order) && Lays(s, order, l) && s.Positive()
    ensures 0 <= FieldOf(l.Decode(hex), f) < s.Size(f)
  {
    PermutationLength(order);
    assert f in order;
    var m :| 0 <= m < |order| && order[m] == f;
    ExtractIsSlice(s, order, l, m, hex);
    WidthFits(s, f);
  }

  function Values(a: Address, order: seq<Field>): (vs: seq<int>)
    ensures |vs| == |order|
    ensures forall i :: 0 <= i < |vs| ==> vs[i] == FieldOf(a, order[i])
  {
    if order == [] then [] else [FieldOf(a, order[0])] + Values(a, order[1..])
  }

  /** An address whose every field fits the width its range has. */
  ghost predicate Encodable(s: Shape, order: seq<Field>, a: Address)
    requires s.ColumnBits() >= 0
  {
    forall i :: 0 <= i < |order| ==> 0 <= FieldOf(a, order[i]) < Pow2(s.Width(order[i]))
  }

  ghost function Encode(s: Shape, order: seq<Field>, a: Address, low: nat): nat
    requires s.ColumnBits() >= 0 && Encodable(s, order, a)
  {
    low + Shl(Pack(Naturals(Values(a, order)), Widths(s, order)), s.Shift())
  }

  ghost function Naturals(vs: seq<int>): (r: seq<nat>)
    requires forall i :: 0 <= i < |vs| ==> vs[i] >= 0
    ensures |r| == |vs| && forall i :: 0 <= i < |vs| ==> r[i] == vs[i]
  {
    if vs == [] then [] else [vs[0]] + Naturals(vs[1..])
  }

  /** Decoding is onto: each tuple of coordinates is the image of its encoding, whatever the offset
      inside the burst. */
  lemma DecodeOfEncode(s: Shape, order: seq<Field>, l: Layout, a: Address, low: nat)
    requires s.ColumnBits() >= 0 && Permutation(order) && Lays(s, order, l)
    requires Encodable(s, order, a) && low < Pow2(s.Shift())
    ensures l.Decode(Encode(s, order, a, low)) == a
  {
    hide Slice, Shr, Shl, Sum, Log2, Widths, Unpack, Pack, Naturals, Values;
    var vs, ws := Naturals(Values(a, order)), Widths(s, order);
    var hex := Encode(s, order, a, low);
    Separate(low, Pack(vs, ws), s.Shift());
    UnpackOfPack(vs, ws);
    PermutationLength(order);
    forall f: Field ensures FieldOf(l.Decode(hex), f) == FieldOf(a, f) {
      assert f in order;
      var m :| 0 <= m < |order| && order[m] == f;
      ExtractIsSlice(s, order, l, m, hex);
      UnpackAt(Pack(vs, ws), ws, m);
    }
    assert FieldOf(l.Decode(hex), Ch) == FieldOf(a, Ch) && FieldOf(l.Decode(hex), Ra) == FieldOf(a, Ra);
    assert FieldOf(l.Decode(hex), Bg) == FieldOf(a, Bg) && FieldOf(l.Decode(hex), Ba) == FieldOf(a, Ba);
    assert FieldOf(l.Decode(hex), Ro) == FieldOf(a, Ro) && FieldOf(l.Decode(hex), Co) == FieldOf(a, Co);
  }

  lemma DecodeUnpacks(s: Shape, order: seq<Field>, l: Layout, hex: nat)
    requires s.ColumnBits() >= 0 && Lays(s, order, l)
    ensures Encodable(s, order, l.Decode(hex))
    ensures Naturals(Values(l.Decode(hex), order)) == Unpack(Shr(hex, s.Shift()), Widths(s, order))
  {
    var x, ws := Shr(hex, s.Shift()), Widths(s, order);
    forall m | 0 <= m < |order|
      ensures FieldOf(l.Decode(hex), order[m]) == Unpack(x, ws)[m]
      ensures 0 <= FieldOf(l.Decode(hex), order[m]) < Pow2(s.Width(order[m]))
    {
      ExtractIsSlice(s, order, l, m, hex);
      UnpackAt(x, ws, m);
    }
  }

  /** Decoding is one-to-one on the mapped bits: the coordinates and the burst offset give back
      the address. */
  lemma EncodeOfDecode(s: Shape, order: seq<Field>, l: Layout, hex: nat)
    requires s.ColumnBits() >= 0 && Permutation(order) && Lays(s, order, l)
    requires Shr(hex, s.Shift()) < Pow2(Sum(Widths(s, order)))
    ensures Encodable(s, order, l.Decode(hex))
    ensures Encode(s, order, l.Decode(hex), Low(hex, s.Shift())) == hex
  {
    DecodeUnpacks(s, order, l, hex);
    PackOfUnpack(Shr(hex, s.Shift()), Widths(s, order));
    Recombine(hex, s.Shift());
  }

  // ---- power-of-two structures ----------------------------------------------------------------------------------

  ghost predicate IsPow2(n: int) {
    exists k: nat :: n == Pow2(k)
  }

  ghost predicate PowersOfTwo(s: Shape) {
    && (forall f: Field :: IsPow2(s.Size(f))) && IsPow2(s.burstLength) && IsPow2(s.busWidth / 8 * s.burstLength)
  }

  lemma {:induction false} Log2Exact(k: nat)
    ensures Log2(Pow2(k)) == k
  {
    if k > 0 {
      Log2Exact(k - 1);
    }
  }

  lemma WidthExact(n: int)
    requires IsPow2(n)
    ensures Pow2(Log2(n)) == n
  {
    var k: nat :| n == Pow2(k);
    Log2Exact(k);
  }

  lemma {:induction false} Pow2Split(a: nat, b: nat)
    requires a >= b
    ensures Pow2(a - b) * Pow2(b) == Pow2(a)
  {
    if b > 0 {
      Pow2Split(a - 1, b - 1);
    }
  }

  /** The place exists: each coordinate is below its size, and columns are counted in bursts. */
  predicate InStructure(s: Shape, a: Address) {
    && 0 <= a.channel < s.channels && 0 <= a.rank < s.ranks && 0 <= a.group < s.bankgroups
    && 0 <= a.bank < s.banksPerGroup && 0 <= a.row < s.rows
    && 0 <= a.column && (if s.lp5 then a.column else a.column * s.burstLength) < s.columns
  }

  lemma ColumnFits(s: Shape, a: Address)
    requires s.ColumnBits() >= 0 && PowersOfTwo(s) && InStructure(s, a)
    ensures a.column < Pow2(s.ColumnBits())
  {
    hide Log2;
    assert IsPow2(s.Size(Co));
    WidthExact(s.columns);
    WidthExact(s.burstLength);
    if !s.lp5 {
      Pow2Split(Log2(s.columns), Log2(s.burstLength));
      if a.column >= Pow2(s.ColumnBits()) {
        MulMonotone(Pow2(s.ColumnBits()), a.column, s.burstLength);
      }
    }
  }

  lemma PlaceFits(s: Shape, a: Address, f: Field)
    requires s.ColumnBits() >= 0 && PowersOfTwo(s) && InStructure(s, a)
    ensures 0 <= FieldOf(a, f) < Pow2(s.Width(f))
  {
    hide Log2;
    assert IsPow2(s.Size(f));
    if f == Co {
      ColumnFits(s, a);
    } else {
      WidthExact(s.Size(f));
    }
  }

  /** Where all sizes are powers of two, every burst of every place of the structure has an address, and every byte
      of it leads there. */
  lemma EveryPlaceHasAddresses(s: Shape, order: seq<Field>, l: Layout, a: Address, byte: nat) returns (hex: nat)
    requires s.ColumnBits() >= 0 && Permutation(order) && Lays(s, order, l) && PowersOfTwo(s)
    requires InStructure(s, a) && byte < s.busWidth / 8 * s.burstLength
    ensures l.Decode(hex) == a && Low(hex, s.Shift()) == byte
  {
    hide Slice, Shr, Shl, Sum, Log2, Widths, Unpack, Pack, Naturals, Values, Low;
    forall i | 0 <= i < |order| ensures 0 <= FieldOf(a, order[i]) < Pow2(s.Width(order[i])) {
      PlaceFits(s, a, order[i]);
    }
    WidthExact(s.busWidth / 8 * s.burstLength);
    hex := Encode(s, order, a, byte);
    DecodeOfEncode(s, order, l, a, byte);
    Separate(byte, Pack(Naturals(Values(a, order)), Widths(s, order)), s.Shift());
  }
}

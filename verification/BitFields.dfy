/** Bit ranges of unbounded naturals. A shift by n is n halvings or doublings, and a mask of w ones
    keeps the w lowest bits. A list of widths, least significant first, lays fields side by side. */
module BitFields {

  function Pow2(n: nat): (r: nat)
    ensures r >= 1
  {
    if n == 0 then 1 else 2 * Pow2(n - 1)
  }

  /** `x >> n` */
  function Shr(x: nat, n: nat): nat {
    if n == 0 then x else Shr(x / 2, n - 1)
  }

  /** `x << n` */
  function Shl(x: nat, n: nat): nat {
    if n == 0 then x else 2 * Shl(x, n - 1)
  }

  /** `x & (2^w - 1)` */
  function Low(x: nat, w: nat): (r: nat)
    ensures r < Pow2(w)
  {
    if w == 0 then 0 else x % 2 + 2 * Low(x / 2, w - 1)
  }

  function Log2(n: int): nat {
    if n <= 1 then 0 else 1 + Log2(n / 2)
  }

  /** `LogBase2`: the loop rounds down to a power of two; anything below 2 gives 0. */
  method LogBase2(powerOfTwo: int) returns (i: nat)
    ensures powerOfTwo <= 1 ==> i == 0
    ensures powerOfTwo >= 1 ==> Pow2(i) <= powerOfTwo < Pow2(i + 1)
    ensures i == Log2(powerOfTwo)
  {
    var n := powerOfTwo;
    i := 0;
    while n > 1
      invariant powerOfTwo <= 1 ==> n == powerOfTwo && i == 0
      invariant powerOfTwo >= 1 ==> n >= 1
      invariant i + Log2(n) == Log2(powerOfTwo)
    {
      n := n / 2;
      i := i + 1;
    }
    if powerOfTwo >= 1 {
      Log2Rounds(powerOfTwo);
    }
  }

  lemma {:induction false} Log2Rounds(n: int)
    requires n >= 1
    ensures Pow2(Log2(n)) <= n < Pow2(Log2(n) + 1)
  {
    if n > 1 {
      Log2Rounds(n / 2);
    }
  }

  lemma {:induction false} Pow2Monotone(a: nat, b: nat)
    requires a <= b
    ensures Pow2(a) <= Pow2(b)
  {
    if a < b {
      Pow2Monotone(a, b - 1);
    }
  }

  lemma {:induction false} ShrShr(x: nat, a: nat, b: nat)
    ensures Shr(x, a + b) == Shr(Shr(x, a), b)
  {
    if a > 0 {
      ShrShr(x / 2, a - 1, b);
    }
  }

  /** A word is its low bits and what is above them. */
  lemma {:induction false} Recombine(x: nat, w: nat)
    ensures x == Low(x, w) + Shl(Shr(x, w), w)
  {
    if w > 0 {
      Recombine(x / 2, w - 1);
    }
  }

  lemma {:induction false} Separate(low: nat, q: nat, w: nat)
    requires low < Pow2(w)
    ensures Low(low + Shl(q, w), w) == low && Shr(low + Shl(q, w), w) == q
  {
    if w > 0 {
      Separate(low / 2, q, w - 1);
      assert (low + Shl(q, w)) / 2 == low / 2 + Shl(q, w - 1);
    }
  }

  lemma {:induction false} ShrBelow(x: nat, a: nat, b: nat)
    requires x < Pow2(a + b)
    ensures Shr(x, a) < Pow2(b)
  {
    if a > 0 {
      ShrBelow(x / 2, a - 1, b);
    }
  }

  /** `(x >> pos) & (2^width - 1)` */
  function Slice(x: nat, pos: nat, width: nat): nat {
    Low(Shr(x, pos), width)
  }

  function Sum(ws: seq<nat>): nat {
    if ws == [] then 0 else ws[0] + Sum(ws[1..])
  }

  ghost predicate Fits(vs: seq<nat>, ws: seq<nat>) {
    |vs| == |ws| && forall i :: 0 <= i < |ws| ==> vs[i] < Pow2(ws[i])
  }

  /** Places field `i` of value `vs[i]` above fields `0..i`. */
  function Pack(vs: seq<nat>, ws: seq<nat>): nat
    requires |vs| == |ws|
  {
    if ws == [] then 0 else vs[0] + Shl(Pack(vs[1..], ws[1..]), ws[0])
  }

  /** Takes a word apart, field by field. */
  function Unpack(x: nat, ws: seq<nat>): (vs: seq<nat>)
    ensures |vs| == |ws|
    decreases ws
  {
    if ws == [] then [] else [Low(x, ws[0])] + Unpack(Shr(x, ws[0]), ws[1..])
  }

  lemma {:induction false} UnpackAt(x: nat, ws: seq<nat>, i: nat)
    requires i < |ws|
    ensures Unpack(x, ws)[i] == Slice(x, Sum(ws[..i]), ws[i])
    decreases ws
  {
    hide Low, Shr, Pow2;
    if i == 0 {
      assert ws[..0] == [];
      assert Shr(x, 0) == x by { ShrZero(x); }
    } else {
      UnpackAt(Shr(x, ws[0]), ws[1..], i - 1);
      assert ws[..i][0] == ws[0] && ws[..i][1..] == ws[1..][..i - 1];
      ShrShr(x, ws[0], Sum(ws[1..][..i - 1]));
    }
  }

  lemma ShrZero(x: nat)
    ensures Shr(x, 0) == x
  {
  }

  /** Unpacking a packed word gives the fields back. */
  lemma {:induction false} UnpackOfPack(vs: seq<nat>, ws: seq<nat>)
    requires Fits(vs, ws)
    ensures Unpack(Pack(vs, ws), ws) == vs
  {
    hide Low, Shr, Pow2, Shl;
    if ws != [] {
      Separate(vs[0], Pack(vs[1..], ws[1..]), ws[0]);
      UnpackOfPack(vs[1..], ws[1..]);
    }
  }

  /** Packing an unpacked word gives the word back. */
  lemma {:induction false} PackOfUnpack(x: nat, ws: seq<nat>)
    requires x < Pow2(Sum(ws))
    ensures Pack(Unpack(x, ws), ws) == x
    decreases ws
  {
    hide Low, Shr, Shl;
    if ws != [] {
      ShrBelow(x, ws[0], Sum(ws[1..]));
      PackOfUnpack(Shr(x, ws[0]), ws[1..]);
      assert Unpack(x, ws)[1..] == Unpack(Shr(x, ws[0]), ws[1..]);
      Recombine(x, ws[0]);
    }
  }
}

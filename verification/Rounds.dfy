/** Counting through all banks, groups fastest, then banks, then ranks: a counter of three digits. */
module Rounds {
  import opened DramTypes
  import opened Division

  /** The bank of turn number `k`. */
  function BankAt(k: nat, ranks: nat, banks: nat, groups: nat): BankId
    requires ranks > 0 && banks > 0 && groups > 0
  {
    BankId(k / groups / banks % ranks, k % groups, k / groups % banks)
  }

  /** One digit goes up by one, and carries when it wraps. */
  lemma DigitStep(k: nat, n: nat)
    requires n > 0
    ensures (k % n + 1) % n == (k + 1) % n
    ensures (k + 1) / n == k / n + if (k + 1) % n == 0 then 1 else 0
  {
    ModStep(k, n);
    var q := Split(k, n);
    var r := k - q * n;
    if r + 1 == n {
      assert (q + 1) * n == q * n + n;
      DivideUnique(k + 1, n, q + 1);
    } else {
      DivideUnique(k + 1, n, q);
    }
  }

  /** The next turn. */
  lemma BankNext(k: nat, ranks: nat, banks: nat, groups: nat, b: BankId)
    requires ranks > 0 && banks > 0 && groups > 0 && b == BankAt(k, ranks, banks, groups)
    ensures var g := (b.group + 1) % groups;
      var a := if g == 0 then (b.bank + 1) % banks else b.bank;
      var r := if g == 0 && a == 0 then (b.rank + 1) % ranks else b.rank;
      BankAt(k + 1, ranks, banks, groups) == BankId(r, g, a)
  {
    var m, m' := k / groups, (k + 1) / groups;
    DigitStep(k, groups);
    var n, n' := m / banks, m' / banks;
    DigitStep(m, banks);
    DigitStep(n, ranks);
    RankDigit(n, n', ranks);
  }

  lemma RankDigit(n: nat, n': nat, ranks: nat)
    requires ranks > 0 && (n' == n || n' == n + 1)
    ensures n' % ranks == if n' == n then n % ranks else (n % ranks + 1) % ranks
  {
    DigitStep(n, ranks);
  }

  lemma BankFirst(ranks: nat, banks: nat, groups: nat)
    requires ranks > 0 && banks > 0 && groups > 0
    ensures BankAt(0, ranks, banks, groups) == BankId(0, 0, 0)
  {
    DivideUnique(0, groups, 0);
    DivideUnique(0, banks, 0);
    DivideUnique(0, ranks, 0);
  }

  /** The place of a bank in a round. */
  function Place(b: BankId, banks: nat, groups: nat): int {
    (b.rank * banks + b.bank) * groups + b.group
  }

  predicate Fits(b: BankId, ranks: nat, banks: nat, groups: nat) {
    0 <= b.rank < ranks && 0 <= b.bank < banks && 0 <= b.group < groups
  }

  lemma DigitBelow(d: int, e: int, n: nat, m: nat)
    requires 0 <= d < m && 0 <= e < n
    ensures 0 <= d * n + e < m * n
  {
    MulMonotone(0, d, n);
    MulMonotone(d + 1, m, n);
    assert (d + 1) * n == d * n + n;
  }

  lemma PlaceInRound(b: BankId, ranks: nat, banks: nat, groups: nat)
    requires Fits(b, ranks, banks, groups)
    ensures 0 <= Place(b, banks, groups) < ranks * banks * groups
  {
    DigitBelow(b.rank, b.bank, banks, ranks);
    DigitBelow(b.rank * banks + b.bank, b.group, groups, ranks * banks);
  }

  /** Turn `place` of round `q`. */
  lemma TurnIs(q: int, ranks: int, banks: int, groups: int, r: int, b: int, g: int)
    ensures ((q * ranks + r) * banks + b) * groups + g == q * (ranks * banks * groups) + ((r * banks + b) * groups + g)
  {
    assert (q * ranks + r) * banks == q * ranks * banks + r * banks;
    assert (q * ranks * banks + (r * banks + b)) * groups == q * ranks * banks * groups + (r * banks + b) * groups;
    assert q * ranks * banks * groups == q * (ranks * banks * groups) by {
      assert q * ranks * banks == q * (ranks * banks);
      assert q * (ranks * banks) * groups == q * ((ranks * banks) * groups);
    }
  }

  lemma PlaceIsTurn(b: BankId, q: nat, ranks: nat, banks: nat, groups: nat)
    requires ranks > 0 && banks > 0 && groups > 0 && Fits(b, ranks, banks, groups)
    ensures var m := q * (ranks * banks * groups) + Place(b, banks, groups);
      m >= 0 && BankAt(m, ranks, banks, groups) == b
  {
    var outer := q * ranks + b.rank;
    var inner := outer * banks + b.bank;
    var m := inner * groups + b.group;
    TurnIs(q, ranks, banks, groups, b.rank, b.bank, b.group);
    Digit(outer, q, ranks, b.rank);
    Digit(inner, outer, banks, b.bank);
    Digit(m, inner, groups, b.group);
  }

  lemma Digit(x: int, d: int, n: nat, r: int)
    requires n > 0 && d >= 0 && x == d * n + r && 0 <= r < n
    ensures x >= 0 && x / n == d && x % n == r
  {
    MulMonotone(0, d, n);
    DivideUnique(x, n, d);
  }

  lemma TurnIsPlace(m: nat, ranks: nat, banks: nat, groups: nat) returns (q: nat)
    requires ranks > 0 && banks > 0 && groups > 0
    ensures var b := BankAt(m, ranks, banks, groups);
      Fits(b, ranks, banks, groups) && m == q * (ranks * banks * groups) + Place(b, banks, groups)
  {
    var b := BankAt(m, ranks, banks, groups);
    var inner := Split(m, groups);
    var outer := Split(inner, banks);
    q := Split(outer, ranks);
    assert outer == q * ranks + b.rank && inner == outer * banks + b.bank && m == inner * groups + b.group;
    Unfold(m, inner, outer, q, ranks, banks, groups, b);
  }

  lemma Unfold(m: int, inner: int, outer: int, q: int, ranks: nat, banks: nat, groups: nat, b: BankId)
    requires outer == q * ranks + b.rank && inner == outer * banks + b.bank && m == inner * groups + b.group
    ensures m == q * (ranks * banks * groups) + Place(b, banks, groups)
  {
    TurnIs(q, ranks, banks, groups, b.rank, b.bank, b.group);
  }

  lemma SameRound(j: int, q: int, round: int, d: int)
    requires round > 0 && d == j * round - q * round && -round < d < round
    ensures d == 0
  {
    assert d == (j - q) * round;
    if j - q >= 1 {
      MulMonotone(1, j - q, round);
    } else if j - q <= -1 {
      MulMonotone(j - q, -1, round);
    }
  }

  /** A turn at a place of the round, not before `k` and less than a round after it. */
  lemma TurnAfter(k: nat, place: nat, round: nat) returns (q: nat)
    requires place < round
    ensures k <= q * round + place < k + round
  {
    q := Split(k, round);
    if q * round + place < k {
      assert (q + 1) * round == q * round + round;
      q := q + 1;
    }
  }

  /** In any round's worth of turns every bank has exactly one. */
  lemma OncePerRound(k: nat, b: BankId, ranks: nat, banks: nat, groups: nat) returns (m: nat)
    requires ranks > 0 && banks > 0 && groups > 0 && Fits(b, ranks, banks, groups)
    ensures k <= m < k + ranks * banks * groups && BankAt(m, ranks, banks, groups) == b
    ensures forall n: nat :: k <= n < k + ranks * banks * groups && BankAt(n, ranks, banks, groups) == b ==> n == m
  {
    hide BankAt, Place;
    var round, place := ranks * banks * groups, Place(b, banks, groups);
    PlaceInRound(b, ranks, banks, groups);
    var q := TurnAfter(k, place, round);
    PlaceIsTurn(b, q, ranks, banks, groups);
    m := q * round + place;
    forall n: nat | k <= n < k + round && BankAt(n, ranks, banks, groups) == b ensures n == m {
      var j := TurnIsPlace(n, ranks, banks, groups);
      SameRound(j, q, round, n - m);
    }
  }
}

/** How often a label occurs in a sequence, and how the number follows appending and removing. Two
    sequences hold the same work as multisets when these numbers agree for every label. */
module Counting {

  function Remove<T>(s: seq<T>, i: nat): seq<T>
    requires i < |s|
  {
    s[..i] + s[i + 1..]
  }

  ghost function Count<T, K>(s: seq<T>, tag: T -> K, k: K): nat {
    if s == [] then 0 else Count(s[..|s| - 1], tag, k) + (if tag(s[|s| - 1]) == k then 1 else 0)
  }

  lemma CountSnoc<T, K>(s: seq<T>, x: T, tag: T -> K, k: K)
    ensures Count(s + [x], tag, k) == Count(s, tag, k) + if tag(x) == k then 1 else 0
  {
    assert (s + [x])[..|s|] == s;
  }

  lemma {:induction false} CountAppend<T, K>(a: seq<T>, b: seq<T>, tag: T -> K, k: K)
    ensures Count(a + b, tag, k) == Count(a, tag, k) + Count(b, tag, k)
  {
    if b == [] {
      assert a + b == a;
    } else {
      var n := |b| - 1;
      CountAppend(a, b[..n], tag, k);
      assert a + b == (a + b[..n]) + [b[n]];
      CountSnoc(a + b[..n], b[n], tag, k);
    }
  }

  lemma {:induction false} CountCons<T, K>(s: seq<T>, tag: T -> K, k: K)
    requires s != []
    ensures Count(s, tag, k) == (if tag(s[0]) == k then 1 else 0) + Count(s[1..], tag, k)
  {
    CountAppend([s[0]], s[1..], tag, k);
    assert [s[0]] + s[1..] == s;
    CountSnoc([], s[0], tag, k);
    assert [] + [s[0]] == [s[0]];
  }

  lemma CountEmpty<T, K>(tag: T -> K, k: K)
    ensures Count([], tag, k) == 0
  {
  }

  lemma {:induction false} CountRemove<T, K>(s: seq<T>, i: nat, tag: T -> K, k: K)
    requires i < |s|
    ensures Count(s, tag, k) == Count(Remove(s, i), tag, k) + if tag(s[i]) == k then 1 else 0
  {
    var n := |s| - 1;
    if i < n {
      CountRemove(s[..n], i, tag, k);
      assert Remove(s, i) == Remove(s[..n], i) + [s[n]];
      CountSnoc(Remove(s[..n], i), s[n], tag, k);
    } else {
      assert Remove(s, i) == s[..n];
    }
  }

  lemma CountHas<T, K>(s: seq<T>, i: nat, tag: T -> K)
    requires i < |s|
    ensures Count(s, tag, tag(s[i])) > 0
  {
    CountRemove(s, i, tag, tag(s[i]));
  }

  lemma {:induction false} CountFind<T, K>(s: seq<T>, tag: T -> K, k: K) returns (i: nat)
    requires Count(s, tag, k) > 0
    ensures i < |s| && tag(s[i]) == k
  {
    var n := |s| - 1;
    if tag(s[n]) == k {
      i := n;
    } else {
      i := CountFind(s[..n], tag, k);
    }
  }

  /** Occurrences in a sequence of sequences. */
  ghost function CountAll<T, K>(ss: seq<seq<T>>, tag: T -> K, k: K): nat {
    if ss == [] then 0 else CountAll(ss[..|ss| - 1], tag, k) + Count(ss[|ss| - 1], tag, k)
  }

  lemma {:induction false} CountAllUpdate<T, K>(ss: seq<seq<T>>, q: nat, s: seq<T>, tag: T -> K, k: K)
    requires q < |ss|
    ensures CountAll(ss[q := s], tag, k) + Count(ss[q], tag, k) == CountAll(ss, tag, k) + Count(s, tag, k)
  {
    hide Count;
    var n := |ss| - 1;
    if q < n {
      CountAllUpdate(ss[..n], q, s, tag, k);
      assert ss[q := s][..n] == ss[..n][q := s];
    } else {
      assert ss[q := s][..n] == ss[..n];
    }
  }

  lemma CountAllHas<T, K>(ss: seq<seq<T>>, q: nat, i: nat, tag: T -> K)
    requires q < |ss| && i < |ss[q]|
    ensures CountAll(ss, tag, tag(ss[q][i])) > 0
  {
    CountHas(ss[q], i, tag);
    CountAllUpdate(ss, q, [], tag, tag(ss[q][i]));
  }

  lemma {:induction false} CountAllFind<T, K>(ss: seq<seq<T>>, tag: T -> K, k: K) returns (q: nat, i: nat)
    requires CountAll(ss, tag, k) > 0
    ensures q < |ss| && i < |ss[q]| && tag(ss[q][i]) == k
  {
    hide Count;
    var n := |ss| - 1;
    if Count(ss[n], tag, k) > 0 {
      q := n;
      i := CountFind(ss[n], tag, k);
    } else {
      q, i := CountAllFind(ss[..n], tag, k);
    }
  }

  lemma {:induction false} CountAllNone<T, K>(n: nat, tag: T -> K, k: K)
    ensures CountAll(seq(n, _ => []), tag, k) == 0
  {
    if n > 0 {
      CountAllNone(n - 1, tag, k);
      var ss: seq<seq<T>> := seq(n, _ => []);
      assert ss[..n - 1] == seq(n - 1, _ => []);
    }
  }
}

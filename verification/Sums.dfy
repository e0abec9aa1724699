/** Double sums. */
module Sums {

  /** Row `i`, its first `n` columns. */
  ghost function RowSum(f: (nat, nat) -> int, i: nat, n: nat): int {
    if n == 0 then 0 else RowSum(f, i, n - 1) + f(i, n - 1)
  }

  /** Column `j`, its first `m` rows. */
  ghost function ColSum(f: (nat, nat) -> int, j: nat, m: nat): int {
    if m == 0 then 0 else ColSum(f, j, m - 1) + f(m - 1, j)
  }

  ghost function ByRows(f: (nat, nat) -> int, m: nat, n: nat): int {
    if m == 0 then 0 else ByRows(f, m - 1, n) + RowSum(f, m - 1, n)
  }

  ghost function ByColumns(f: (nat, nat) -> int, m: nat, n: nat): int {
    if n == 0 then 0 else ByColumns(f, m, n - 1) + ColSum(f, n - 1, m)
  }

  lemma {:induction false} OneRowMore(f: (nat, nat) -> int, m: nat, n: nat)
    ensures ByColumns(f, m + 1, n) == ByColumns(f, m, n) + RowSum(f, m, n)
  {
    if n > 0 {
      OneRowMore(f, m, n - 1);
    }
  }

  lemma {:induction false} NoRows(f: (nat, nat) -> int, n: nat)
    ensures ByColumns(f, 0, n) == 0
  {
    if n > 0 {
      NoRows(f, n - 1);
    }
  }

  /** Rows first or columns first: the order of summation does not matter. */
  lemma {:induction false} Exchange(f: (nat, nat) -> int, m: nat, n: nat)
    ensures ByRows(f, m, n) == ByColumns(f, m, n)
  {
    if m == 0 {
      NoRows(f, n);
    } else {
      Exchange(f, m - 1, n);
      OneRowMore(f, m - 1, n);
    }
  }
}

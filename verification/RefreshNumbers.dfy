/** Which bank or rank the k-th refresh of any history is for, and how early it can be issued, under each policy:
    staggered by ranks, staggered by banks, and the simultaneous one, which only ever refreshes the first rank. */
module RefreshNumbers {
  import opened DramTypes
  import opened Division
  import opened DramConfig
  import opened History
  import opened Scheduler
  import opened Runs
  import opened ChannelTheorems
  import opened IssuedCommands
  import opened RefreshSchedule
  import opened RefreshOrder
  import opened Rounds

  /** The timer's own calendar is the numbered one. */
  lemma {:induction false} CalendarRanks(c: Config, n: nat)
    requires c.Valid() && c.refreshPolicy.RankLevelStaggered?
    ensures TimerAt(c, n).clk == n && TimerAt(c, n).nextRank == Requested(c, n) % c.ranks
    ensures |Calendar(c, n)| == Requested(c, n)
    ensures forall k :: 0 <= k < |Calendar(c, n)| ==> Calendar(c, n)[k] == RankRequest(k % c.ranks)
  {
    if n > 0 {
      CalendarRanks(c, n - 1);
      ModStep(Requested(c, n - 1), c.ranks);
    }
  }

  /** At most one request for each whole interval passed. */
  lemma RequestedBy(c: Config, clk: nat, k: nat, i: nat)
    requires c.Valid() && i == c.RefreshInterval() && Requested(c, clk + 1) >= k
    ensures clk >= k * i
  {
    hide Requested;
    var q := Split(clk, i);
    RequestedIs(c, clk + 1, q, i);
    MulMonotone(k, q, i);
  }

  /** Entry `i` of any history, when it is a REFRESH and `k` were issued before it. */
  lemma NumberedRefresh(c: Config, es: seq<Event>, i: nat, k: nat)
    requires c.Valid() && c.refreshPolicy.RankLevelStaggered? && i < |After(c, es).log|
    requires After(c, es).log[i].cmd.kind.IsRefresh() && |Refreshes(After(c, es).log[..i])| == k
    ensures After(c, es).log[i].cmd == RankRequest(k % c.ranks)
    ensures After(c, es).log[i].clk >= (k + 1) * c.RefreshInterval()
  {
    hide After, Good, Refreshes, Calendar, TimerAt, Requested;
    var log := After(c, es).log;
    var n := IssuedIn(c, es, i);
    RunInLine(c, es[..n]);
    RunInLine(c, es[..n + 1]);
    CalendarRanks(c, log[i].clk + 1);
    assert log[..i + 1] == log[..i] + [log[i]];
    RefreshesSnoc(log[..i], log[i]);
    assert Refreshes(log[..i + 1])[k] == log[i].cmd;
    assert Calendar(c, log[i].clk + 1)[k] == log[i].cmd;
    RequestedBy(c, log[i].clk, k + 1, c.RefreshInterval());
  }

  lemma RunInLine(c: Config, es: seq<Event>)
    requires c.Valid()
    ensures var s := After(c, es); s.clk >= 0 && Refreshes(s.log) + s.refreshQ == Calendar(c, s.clk)
  {
    hide Good, Refreshes, Calendar, TimerAt;
    ServedInOrder(c, es);
  }

  // ---- the simultaneous policy ------------------------------------------------------------------------------------

  lemma {:induction false} CalendarOfOneRank(c: Config, n: nat)
    requires c.Valid() && c.refreshPolicy.RankLevelSimultaneous?
    ensures TimerAt(c, n).clk == n && |Calendar(c, n)| == Requested(c, n)
    ensures forall k :: 0 <= k < |Calendar(c, n)| ==> Calendar(c, n)[k] == RankRequest(0)
  {
    if n > 0 {
      CalendarOfOneRank(c, n - 1);
    }
  }

  /** Every refresh of any history is for the first rank, the one after `k` others not before k + 1 intervals. */
  lemma OnlyTheFirstRank(c: Config, es: seq<Event>, i: nat, k: nat)
    requires c.Valid() && c.refreshPolicy.RankLevelSimultaneous? && i < |After(c, es).log|
    requires After(c, es).log[i].cmd.kind.IsRefresh() && |Refreshes(After(c, es).log[..i])| == k
    ensures After(c, es).log[i].cmd == RankRequest(0)
    ensures After(c, es).log[i].clk >= (k + 1) * c.tREFI
  {
    hide After, Good, Refreshes, Calendar, TimerAt, Requested;
    var log := After(c, es).log;
    var n := IssuedIn(c, es, i);
    RunInLine(c, es[..n]);
    RunInLine(c, es[..n + 1]);
    CalendarOfOneRank(c, log[i].clk + 1);
    assert log[..i + 1] == log[..i] + [log[i]];
    RefreshesSnoc(log[..i], log[i]);
    assert Refreshes(log[..i + 1])[k] == log[i].cmd;
    assert Calendar(c, log[i].clk + 1)[k] == log[i].cmd;
    RequestedBy(c, log[i].clk, k + 1, c.tREFI);
  }

  // ---- bank by bank -----------------------------------------------------------------------------------------------

  /** The bank of request number `k`, counted from 0: groups change fastest, then banks, then ranks. */
  function BankOf(c: Config, k: nat): BankId
    requires c.Valid()
  {
    BankAt(k, c.ranks, c.banksPerGroup, c.bankgroups)
  }

  lemma NextBank(c: Config, k: nat, r: RefreshState)
    requires c.Valid() && c.refreshPolicy.BankLevelStaggered?
    requires BankId(r.nextRank, r.nextGroup, r.nextBank) == BankOf(c, k)
    ensures var r' := IterateNext(c, r); BankId(r'.nextRank, r'.nextGroup, r'.nextBank) == BankOf(c, k + 1)
  {
    hide BankAt;
    BankNext(k, c.ranks, c.banksPerGroup, c.bankgroups, BankOf(c, k));
  }

  lemma {:induction false} CalendarBanks(c: Config, n: nat)
    requires c.Valid() && c.refreshPolicy.BankLevelStaggered?
    ensures var r := TimerAt(c, n);
      r.clk == n && BankId(r.nextRank, r.nextGroup, r.nextBank) == BankOf(c, Requested(c, n))
    ensures |Calendar(c, n)| == Requested(c, n)
    ensures forall k :: 0 <= k < |Calendar(c, n)| ==> Calendar(c, n)[k] == BankRequest(BankOf(c, k))
  {
    hide BankOf, IterateNext;
    if n == 0 {
      FirstBank(c);
    } else {
      CalendarBanks(c, n - 1);
      NextBank(c, Requested(c, n - 1), TimerAt(c, n - 1));
      IterateKeepsClock(c, TimerAt(c, n - 1));
    }
  }

  lemma FirstBank(c: Config)
    requires c.Valid()
    ensures BankOf(c, 0) == BankId(0, 0, 0)
  {
    hide BankAt;
    BankFirst(c.ranks, c.banksPerGroup, c.bankgroups);
  }

  lemma IterateKeepsClock(c: Config, r: RefreshState)
    requires c.Valid()
    ensures IterateNext(c, r).clk == r.clk
  {
  }

  /** Entry `i` of any history, when it is a refresh and `k` were issued before it: the bank whose turn it is, and not
      before k + 1 intervals. */
  lemma NumberedBankRefresh(c: Config, es: seq<Event>, i: nat, k: nat)
    requires c.Valid() && c.refreshPolicy.BankLevelStaggered? && i < |After(c, es).log|
    requires After(c, es).log[i].cmd.kind.IsRefresh() && |Refreshes(After(c, es).log[..i])| == k
    ensures After(c, es).log[i].cmd == BankRequest(BankOf(c, k))
    ensures After(c, es).log[i].clk >= (k + 1) * c.tREFIb
  {
    hide After, Good, Refreshes, Calendar, TimerAt, Requested, BankOf;
    var log := After(c, es).log;
    var n := IssuedIn(c, es, i);
    RunInLine(c, es[..n]);
    RunInLine(c, es[..n + 1]);
    CalendarBanks(c, log[i].clk + 1);
    assert log[..i + 1] == log[..i] + [log[i]];
    RefreshesSnoc(log[..i], log[i]);
    assert Refreshes(log[..i + 1])[k] == log[i].cmd;
    assert Calendar(c, log[i].clk + 1)[k] == log[i].cmd;
    RequestedBy(c, log[i].clk, k + 1, c.tREFIb);
  }

  /** Every bank is asked for exactly once in any ranks * banks consecutive requests. */
  lemma EachBankOncePerRound(c: Config, k: nat, b: BankId) returns (m: nat)
    requires c.Valid() && c.HasBank(b)
    ensures k <= m < k + c.ranks * c.banksPerGroup * c.bankgroups && BankOf(c, m) == b
    ensures forall n: nat :: k <= n < k + c.ranks * c.banksPerGroup * c.bankgroups && BankOf(c, n) == b ==> n == m
  {
    hide BankAt;
    m := OncePerRound(k, b, c.ranks, c.banksPerGroup, c.bankgroups);
    forall n: nat | k <= n < k + c.ranks * c.banksPerGroup * c.bankgroups && BankOf(c, n) == b ensures n == m {
      assert BankAt(n, c.ranks, c.banksPerGroup, c.bankgroups) == b;
    }
  }
}

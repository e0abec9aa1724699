/** When the staggered policy asks for refreshes: each rank once in every `ranks` intervals, so no rank
    waits longer than tREFI for its next request. */
module RefreshSchedule {
  import opened DramTypes
  import opened Division
  import opened DramConfig
  import opened Scheduler
  import opened QueueFacts
  import opened Turns
  import opened Steps
  import opened Runs
  import opened Delivery

  /** Requests made before tick `clk`. */
  ghost function Requested(c: Config, clk: nat): nat
    requires c.Valid()
  {
    if clk == 0 then 0 else Requested(c, clk - 1) + if RefreshDue(c, clk - 1) then 1 else 0
  }

  /** Tick `clk` asks for a refresh of `rank`. */
  ghost predicate Requests(c: Config, clk: nat, rank: int)
    requires c.Valid()
  {
    RefreshDue(c, clk) && rank == Requested(c, clk) % c.ranks
  }

  // ---- the timer of every run is in phase ---------------------------------------------------------------

  ghost predicate InPhase(c: Config, s: Ctrl) {
    c.Valid() && s.clk >= 0 && s.ref.nextRank == Requested(c, s.clk) % c.ranks
  }

  lemma PhaseCycle(c: Config, s: Ctrl)
    requires Good(c, s) && InPhase(c, s) && c.refreshPolicy.RankLevelStaggered?
    ensures Steppable(c, s) && Step(c, s, Cycle).Ok? && InPhase(c, Step(c, s, Cycle).value)
  {
    hide Sound, RefreshTick, Dispatch, ScheduleTransaction, ReturnDone;
    GoodCycle(c, s);
    var s0 := ReturnDone(s, s.clk);
    SoundReturn(c, s);
    ReturnFrame(s, s.clk);
    var s1 := RefreshTick(c, s0);
    SoundRefresh(c, s0, s.clk + 1);
    RefreshFrame(c, s0);
    SoundDispatch(c, s1);
    SoundSchedule(c, Dispatch(c, s1).value, s.clk + 1);
    TimerStep(c, s0);
  }

  lemma TimerStep(c: Config, s: Ctrl)
    requires c.Valid() && c.refreshPolicy.RankLevelStaggered? && s.ref.clk >= 0
    requires s.ref.nextRank == Requested(c, s.ref.clk) % c.ranks
    ensures RefreshTick(c, s).ref.nextRank == Requested(c, s.ref.clk + 1) % c.ranks
  {
    ModStep(Requested(c, s.ref.clk), c.ranks);
  }

  lemma {:induction false} PhaseRun(c: Config, es: seq<Event>)
    requires c.Valid() && c.refreshPolicy.RankLevelStaggered?
    ensures Exec(c, Initial(c), es).Ok? && InPhase(c, Exec(c, Initial(c), es).value)
  {
    hide Good, Step, Steppable, InPhase;
    GoodInitial(c);
    EveryRun(c, Initial(c), es);
    if es == [] {
      PhaseInitial(c);
    } else {
      var pre, e := es[..|es| - 1], es[|es| - 1];
      EveryRun(c, Initial(c), pre);
      PhaseRun(c, pre);
      var s := Exec(c, Initial(c), pre).value;
      GoodStep(c, s, e);
      if e.Cycle? {
        PhaseCycle(c, s);
      } else {
        PhaseAccept(c, s, e);
      }
    }
  }

  lemma PhaseInitial(c: Config)
    requires c.Valid()
    ensures InPhase(c, Initial(c))
  {
  }

  lemma PhaseAccept(c: Config, s: Ctrl, e: Event)
    requires e.Accept? && InPhase(c, s) && Steppable(c, s)
    ensures Step(c, s, e).Ok? && InPhase(c, Step(c, s, e).value)
  {
    hide Requested;
  }

  /** In every run, the request a cycle adds is the one its tick number calls for. */
  lemma RunRequests(c: Config, es: seq<Event>)
    requires c.Valid() && c.refreshPolicy.RankLevelStaggered?
    ensures Exec(c, Initial(c), es).Ok?
    ensures var s := Exec(c, Initial(c), es).value;
      && s.clk >= 0 && s.ref.clk == s.clk
      && RefreshTick(c, s).refreshQ ==
        s.refreshQ + if RefreshDue(c, s.clk) then [RankRequest(Requested(c, s.clk) % c.ranks)] else []
  {
    hide Sound;
    PhaseRun(c, es);
    GoodInitial(c);
    EveryRun(c, Initial(c), es);
  }

  // ---- the calendar ---------------------------------------------------------------------------------------

  /** Requests made before a tick of the k-th interval. */
  lemma {:induction false} RequestedIs(c: Config, clk: nat, k: nat, i: nat)
    requires c.Valid() && i == c.RefreshInterval() && k * i < clk <= k * i + i
    ensures Requested(c, clk) == k
  {
    hide c.Valid;
    DivideUnique(clk - 1, i, k);
    if clk - 1 == k * i {
      if k == 0 {
        assert !RefreshDue(c, 0);
      } else {
        assert (k - 1) * i + i == k * i;
        RequestedIs(c, clk - 1, k - 1, i);
      }
    } else {
      RequestedIs(c, clk - 1, k, i);
    }
  }

  /** The k-th request comes on tick k times the interval and is for rank (k - 1) modulo `ranks`. */
  lemma RequestNumber(c: Config, k: nat, i: nat)
    requires c.Valid() && i == c.RefreshInterval() && k > 0
    ensures k * i > 0 && Requests(c, k * i, (k - 1) % c.ranks)
  {
    hide Requested;
    assert i > 0;
    assert (k - 1) * i + i == k * i;
    MulMonotone(0, k - 1, i);
    RequestedIs(c, k * i, k - 1, i);
    DivideUnique(k * i, i, k);
  }

  /** Every request has such a number. */
  lemma RequestHasNumber(c: Config, clk: nat, rank: int, i: nat) returns (k: nat)
    requires c.Valid() && i == c.RefreshInterval() && Requests(c, clk, rank)
    ensures k > 0 && clk == k * i && rank == (k - 1) % c.ranks
  {
    hide Requested;
    assert i > 0;
    k := Split(clk, i);
    assert k > 0;
    RequestNumber(c, k, i);
  }

  /** A rank's next request comes exactly `ranks` intervals later, at most tREFI cycles. */
  lemma EachRankOncePerRound(c: Config, k: nat, rank: int, clk: nat)
    requires c.Valid() && c.refreshPolicy.RankLevelStaggered? && k > 0
    requires k * c.RefreshInterval() >= 0 && Requests(c, k * c.RefreshInterval(), rank)
    ensures (k + c.ranks) * c.RefreshInterval() >= 0 && Requests(c, (k + c.ranks) * c.RefreshInterval(), rank)
    ensures c.tREFI - c.ranks < (k + c.ranks) * c.RefreshInterval() - k * c.RefreshInterval() <= c.tREFI
    ensures k * c.RefreshInterval() < clk < (k + c.ranks) * c.RefreshInterval() ==> !Requests(c, clk, rank)
  {
    hide Requested, Requests;
    var i: nat, m: nat := c.RefreshInterval(), c.ranks;
    RequestNumber(c, k, i);
    RequestNumber(c, k + m, i);
    SameRank(c, k * i, rank, (k - 1) % m);
    RoundIsPeriod(k, m);
    assert (k + m) * i == k * i + m * i;
    assert c.tREFI - m < m * i <= c.tREFI by { WholeIntervals(c); }
    if k * i < clk < (k + m) * i && Requests(c, clk, rank) {
      var n := RequestHasNumber(c, clk, rank, i);
      Between(n, i, k, m);
      NotInRound(k, m, n);
    }
  }

  lemma SameRank(c: Config, clk: nat, r: int, r': int)
    requires c.Valid() && Requests(c, clk, r) && Requests(c, clk, r')
    ensures r == r'
  {
  }

  lemma WholeIntervals(c: Config)
    requires c.Valid() && c.refreshPolicy.RankLevelStaggered?
    ensures c.tREFI - c.ranks < c.ranks * c.RefreshInterval() <= c.tREFI
  {
    assert c.tREFI == c.ranks * (c.tREFI / c.ranks) + c.tREFI % c.ranks;
  }

  lemma RoundIsPeriod(k: nat, m: nat)
    requires k > 0 && m > 0
    ensures (k + m - 1) % m == (k - 1) % m
  {
    var q := Split(k - 1, m);
    assert (q + 1) * m == q * m + m;
    DivideUnique(k + m - 1, m, q + 1);
  }

  lemma Between(n: nat, i: nat, k: nat, m: nat)
    requires i > 0 && k * i < n * i < (k + m) * i
    ensures k < n < k + m
  {
    if n <= k {
      MulMonotone(n, k, i);
    }
    if n >= k + m {
      MulMonotone(k + m, n, i);
    }
  }

  /** Numbers strictly inside one round differ modulo the round. */
  lemma NotInRound(k: nat, m: nat, n: nat)
    requires 0 < k < n < k + m && m > 0
    ensures (n - 1) % m != (k - 1) % m
  {
    var q := Split(k - 1, m);
    var p := Split(n - 1, m);
    if (n - 1) % m == (k - 1) % m {
      assert (p - q) * m == p * m - q * m;
      if p - q >= 1 {
        MulMonotone(1, p - q, m);
      } else {
        MulMonotone(p - q, 0, m);
      }
    }
  }
}

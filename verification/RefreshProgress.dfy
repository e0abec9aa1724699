/** A rank refresh that has reached the front of the request queue is issued within a bounded time,
    whatever the other ranks do. */
module RefreshProgress {
  import opened DramTypes
  import opened DramConfig
  import opened History
  import opened Scheduler
  import opened QueueFacts
  import opened Turns
  import opened RowUse

  // ---- banks of a rank ----------------------------------------------------------------------------

  ghost function GroupBanks(r: int, g: int, n: nat): set<BankId> {
    if n == 0 then {} else GroupBanks(r, g, n - 1) + {BankId(r, g, n - 1)}
  }

  ghost function RankBanks(r: int, m: nat, n: nat): set<BankId> {
    if m == 0 then {} else RankBanks(r, m - 1, n) + GroupBanks(r, m - 1, n)
  }

  lemma {:induction false} GroupBankIn(r: int, g: int, n: nat, b: BankId)
    ensures b in GroupBanks(r, g, n) <==> b.rank == r && b.group == g && 0 <= b.bank < n
  {
    if n > 0 {
      GroupBankIn(r, g, n - 1, b);
    }
  }

  lemma {:induction false} GroupBankCount(r: int, g: int, n: nat)
    ensures |GroupBanks(r, g, n)| == n
  {
    if n > 0 {
      GroupBankCount(r, g, n - 1);
      GroupBankIn(r, g, n - 1, BankId(r, g, n - 1));
    }
  }

  lemma {:induction false} RankBankIn(r: int, m: nat, n: nat, b: BankId)
    ensures b in RankBanks(r, m, n) <==> b.rank == r && 0 <= b.group < m && 0 <= b.bank < n
  {
    hide GroupBanks;
    if m > 0 {
      RankBankIn(r, m - 1, n, b);
      GroupBankIn(r, m - 1, n, b);
    }
  }

  lemma {:induction false} RankBankCount(r: int, m: nat, n: nat)
    ensures |RankBanks(r, m, n)| == m * n
  {
    hide GroupBanks;
    if m > 0 {
      RankBankCount(r, m - 1, n);
      GroupBankCount(r, m - 1, n);
      var lower, top := RankBanks(r, m - 1, n), GroupBanks(r, m - 1, n);
      forall b | b in lower ensures b !in top {
        RankBankIn(r, m - 1, n, b);
        GroupBankIn(r, m - 1, n, b);
      }
      assert m * n == (m - 1) * n + n;
    }
  }

  ghost predicate InRank(c: Config, r: int, b: BankId) {
    c.HasBank(b) && b.rank == r
  }

  ghost function OpenBanks(c: Config, log: Log, r: int): set<BankId> {
    set b | b in RankBanks(r, c.bankgroups, c.banksPerGroup) && RowOf(log, b).Open?
  }

  lemma OpenBanksAre(c: Config, log: Log, r: int)
    requires 0 <= r < c.ranks
    ensures forall b :: b in OpenBanks(c, log, r) <==> InRank(c, r, b) && RowOf(log, b).Open?
    ensures |OpenBanks(c, log, r)| <= c.Banks()
  {
    hide RowOf, RankBanks;
    RankBankCount(r, c.bankgroups, c.banksPerGroup);
    forall b ensures b in RankBanks(r, c.bankgroups, c.banksPerGroup) <==> InRank(c, r, b) {
      RankBankIn(r, c.bankgroups, c.banksPerGroup, b);
    }
    var all := RankBanks(r, c.bankgroups, c.banksPerGroup);
    assert OpenBanks(c, log, r) <= all;
    SubsetCard(OpenBanks(c, log, r), all);
  }

  lemma {:induction false} SubsetCard<T>(a: set<T>, b: set<T>)
    requires a <= b
    ensures |a| <= |b|
  {
    assert a + (b - a) == b;
  }

  // ---- what other commands leave alone ----------------------------------------------------------------

  function Gap(c: Config): nat {
    Max(1, c.tPPD)
  }

  function Shut(c: Config): nat {
    Max(0, c.tRP)
  }

  /** `n` precharges, a gap each. */
  ghost function Gaps(c: Config, n: nat): nat {
    if n == 0 then 0 else Gaps(c, n - 1) + Gap(c)
  }

  lemma {:induction false} GapsIsProduct(c: Config, n: nat)
    ensures Gaps(c, n) == n * Gap(c)
  {
    if n > 0 {
      GapsIsProduct(c, n - 1);
      assert n * Gap(c) == (n - 1) * Gap(c) + Gap(c);
    }
  }

  lemma {:induction false} GapsMonotone(c: Config, m: nat, n: nat)
    requires m <= n
    ensures Gaps(c, m) <= Gaps(c, n)
  {
    if m < n {
      GapsMonotone(c, m, n - 1);
    }
  }

  lemma EarliestAppend(c: Config, log: Log, x: Issue, b: BankId, k: Kind)
    ensures Earliest(c, log + [x], b, k) == Raise(Earliest(c, log, b, k), DelaysFor(c, x.cmd, b), x.clk, k)
  {
    assert Front(log + [x]) == log && Last(log + [x]) == x;
  }

  lemma {:induction false} RaiseWithout(v: int, ds: seq<Delay>, clk: int, k: Kind)
    requires forall i :: 0 <= i < |ds| ==> ds[i].kind != k
    ensures Raise(v, ds, clk, k) == v
  {
    if ds != [] {
      RaiseWithout(v, ds[..|ds| - 1], clk, k);
    }
  }

  lemma {:induction false} RaiseWithin(v: int, ds: seq<Delay>, clk: int, k: Kind, bound: int)
    requires v <= bound && forall i :: 0 <= i < |ds| && ds[i].kind == k ==> clk + ds[i].delay <= bound
    ensures Raise(v, ds, clk, k) <= bound
  {
    if ds != [] {
      RaiseWithin(v, ds[..|ds| - 1], clk, k, bound);
    }
  }

  /** A command to another rank postpones neither the precharges nor the refresh of this one. */
  lemma OtherRankHarmless(c: Config, log: Log, x: Issue, b: BankId)
    requires x.cmd.addr.rank != b.rank
    ensures RowOf(log + [x], b) == RowOf(log, b)
    ensures Earliest(c, log + [x], b, Precharge) == Earliest(c, log, b, Precharge)
    ensures Earliest(c, log + [x], b, Refresh) == Earliest(c, log, b, Refresh)
  {
    hide RowOf, Earliest;
    RowOfAppend(log, x, b);
    EarliestAppend(c, log, x, b, Precharge);
    EarliestAppend(c, log, x, b, Refresh);
    var ds := DelaysFor(c, x.cmd, b);
    RaiseWithout(Earliest(c, log, b, Precharge), ds, x.clk, Precharge);
    RaiseWithout(Earliest(c, log, b, Refresh), ds, x.clk, Refresh);
  }

  /** A PRECHARGE of this rank postpones them by at most tPPD and tRP. */
  lemma PrechargeCost(c: Config, log: Log, x: Issue, b: BankId, t: int, d: int)
    requires x.cmd.kind.Precharge? && x.cmd.addr.rank == b.rank
    requires Earliest(c, log, b, Precharge) <= t && Earliest(c, log, b, Refresh) <= d
    requires x.clk <= t && x.clk + c.tRP <= d
    ensures Earliest(c, log + [x], b, Precharge) <= t + Gap(c)
    ensures Earliest(c, log + [x], b, Refresh) <= d
  {
    hide Earliest;
    EarliestAppend(c, log, x, b, Precharge);
    EarliestAppend(c, log, x, b, Refresh);
    var ds := DelaysFor(c, x.cmd, b);
    RaiseWithin(Earliest(c, log, b, Precharge), ds, x.clk, Precharge, t + Gap(c));
    RaiseWithin(Earliest(c, log, b, Refresh), ds, x.clk, Refresh, d);
  }

  // ---- the deadline -------------------------------------------------------------------------------------

  /** At `clk` rank `r` can be refreshed by `d`: its open banks can be precharged from `t` on, one gap
      apart, and the refresh itself waits for nothing beyond `d`. */
  ghost predicate OnTrack(c: Config, log: Log, clk: int, r: int, t: int, d: int) {
    var n := |OpenBanks(c, log, r)|;
    && (forall b :: InRank(c, r, b) ==> Earliest(c, log, b, Refresh) <= d)
    && (forall b :: InRank(c, r, b) ==> Earliest(c, log, b, Precharge) <= t)
    && (if n == 0 then clk <= d else clk <= t && t + Gaps(c, n) + Shut(c) <= d)
  }

  /** Whatever the history, the deadline is `now` or the last of the rank's times, plus a gap per bank and
      tRP. */
  lemma InitiallyOnTrack(c: Config, log: Log, clk: int, r: int, t: int)
    requires 0 <= r < c.ranks && clk <= t
    requires forall b :: InRank(c, r, b) ==> Earliest(c, log, b, Precharge) <= t && Earliest(c, log, b, Refresh) <= t
    ensures OnTrack(c, log, clk, r, t, t + c.Banks() * Gap(c) + Shut(c))
  {
    hide Earliest, RowOf, OpenBanks;
    OpenBanksAre(c, log, r);
    GapsMonotone(c, |OpenBanks(c, log, r)|, c.Banks());
    GapsIsProduct(c, c.Banks());
  }

  /** Not ready at `clk`: some time of the rank is still ahead. */
  lemma WaitingTick(c: Config, log: Log, clk: int, ref: Command, t: int, d: int)
    requires ref.kind.Refresh? && InRange(c, ref) && OnTrack(c, log, clk, ref.addr.rank, t, d)
    requires ReadyCommand(c, log, ref, clk).None?
    ensures OnTrack(c, log, clk + 1, ref.addr.rank, t, d)
  {
    hide Earliest, RowOf, OpenBanks, Scan;
    var r := ref.addr.rank;
    OpenBanksAre(c, log, r);
    ScanFinds(c, log, ref, clk, 0, 0);
    if |OpenBanks(c, log, r)| == 0 {
      var b :| InRank(c, r, b) && BankReady(c, log, b, ref, clk) != Some(ref);
      assert b !in OpenBanks(c, log, r);
      assert ref == ref.(kind := Refresh);
    } else {
      var b :| b in OpenBanks(c, log, r);
      assert !Detour(c, log, b, ref, clk);
    }
  }

  lemma OtherRankTick(c: Config, log: Log, clk: int, r: int, t: int, d: int, x: Issue)
    requires OnTrack(c, log, clk, r, t, d) && x.cmd.addr.rank != r && 0 <= r < c.ranks
    ensures OnTrack(c, log + [x], clk, r, t, d)
  {
    hide Earliest, RowOf, OpenBanks;
    forall b | InRank(c, r, b)
      ensures RowOf(log + [x], b) == RowOf(log, b)
      ensures Earliest(c, log + [x], b, Precharge) == Earliest(c, log, b, Precharge)
      ensures Earliest(c, log + [x], b, Refresh) == Earliest(c, log, b, Refresh)
    {
      OtherRankHarmless(c, log, x, b);
    }
    OpenBanksAre(c, log, r);
    OpenBanksAre(c, log + [x], r);
    assert OpenBanks(c, log + [x], r) == OpenBanks(c, log, r);
  }

  lemma PrechargeTick(c: Config, log: Log, clk: int, r: int, t: int, d: int, x: Issue)
    requires OnTrack(c, log, clk, r, t, d) && 0 <= r < c.ranks
    requires x.clk == clk && x.cmd.kind.Precharge? && InRank(c, r, x.cmd.Bank()) && RowOf(log, x.cmd.Bank()).Open?
    ensures OnTrack(c, log + [x], clk + 1, r, t + Gap(c), d)
  {
    hide Earliest, RowOf, OpenBanks;
    var was := OpenBanks(c, log, r);
    OpenBanksAre(c, log, r);
    OpenBanksAre(c, log + [x], r);
    assert x.cmd.Bank() in was;
    forall b ensures RowOf(log + [x], b) == RowAfter(RowOf(log, b), x, b) {
      RowOfAppend(log, x, b);
    }
    assert OpenBanks(c, log + [x], r) == was - {x.cmd.Bank()};
    assert Gaps(c, |was|) == Gaps(c, |was| - 1) + Gap(c);
    forall b | InRank(c, r, b)
      ensures Earliest(c, log + [x], b, Precharge) <= t + Gap(c) && Earliest(c, log + [x], b, Refresh) <= d
    {
      PrechargeCost(c, log, x, b, t, d);
    }
  }

  /** What a rank refresh at the front is turned into while banks are open. */
  lemma RefreshPrecharges(c: Config, log: Log, ref: Command, clk: int)
    requires ref.kind.Refresh? && InRange(c, ref)
    ensures var x := ReadyCommand(c, log, ref, clk);
      x.Some? && x.value != ref ==>
        x.value.kind.Precharge? && InRank(c, ref.addr.rank, x.value.Bank()) && RowOf(log, x.value.Bank()).Open?
  {
    hide RowOf, Earliest, Window, Scan;
    ScanFinds(c, log, ref, clk, 0, 0);
  }

  /** One turn with a rank refresh at the front: it is issued, or stays at the front on track. */
  lemma RefreshTurn(c: Config, s: Ctrl, t: int, d: int) returns (t': int)
    requires Core(c, s) && IssuedBefore(s.log, s.clk) && InSync(c, s.cq, s.refreshQ) && Steppable(c, s)
    requires s.refreshQ != [] && s.refreshQ[0].kind.Refresh?
    requires OnTrack(c, s.log, s.clk, s.refreshQ[0].addr.rank, t, d)
    ensures Dispatch(c, s).Ok?
    ensures var s' := Dispatch(c, s).value;
      || (s.clk <= d && s'.log == s.log + [Issue(s.clk, s.refreshQ[0])])
      || (s'.refreshQ == s.refreshQ && s.log <= s'.log && OnTrack(c, s'.log, s.clk + 1, s.refreshQ[0].addr.rank, t', d))
  {
    hide Legal, Accounted, Admits, TransShape, ReadyCommand, OnTrack, Dispatch, IsEntry, CqOk, RequestsOk;
    var ref := s.refreshQ[0];
    var turn, from := DispatchTurn(c, s);
    var s' := Dispatch(c, s).value;
    t' := t;
    assert InRange(c, ref) by { FrontInRange(c, s); }
    TurnRequests(c, s, turn, s');
    if from.FromRefresh? {
      RefreshPrecharges(c, s.log, ref, s.clk);
      if turn.cmd == ref {
        TrackedNow(c, s.log, s.clk, ref, t, d);
      } else {
        PrechargeTick(c, s.log, s.clk, ref.addr.rank, t, d, Issue(s.clk, turn.cmd));
        t' := t + Gap(c);
      }
    } else {
      WaitingTick(c, s.log, s.clk, ref, t, d);
      if !turn.Idle? {
        ElsewhereTurn(c, s, turn.cmd, from.q, from.j);
        OtherRankTick(c, s.log, s.clk + 1, ref.addr.rank, t, d, Issue(s.clk, turn.cmd));
      }
    }
  }

  lemma FrontInRange(c: Config, s: Ctrl)
    requires RequestsOk(c, s.refreshQ) && s.refreshQ != []
    ensures InRange(c, s.refreshQ[0])
  {
  }

  lemma TrackedNow(c: Config, log: Log, clk: int, ref: Command, t: int, d: int)
    requires OnTrack(c, log, clk, ref.addr.rank, t, d)
    ensures clk <= d
  {
    hide Earliest, OpenBanks;
  }

  /** A command from a queue that is not set aside belongs to another rank. */
  lemma ElsewhereTurn(c: Config, s: Ctrl, cmd: Command, q: nat, j: nat)
    requires Core(c, s) && QueuesOk(c, s.cq) && s.refreshQ != [] && s.refreshQ[0].kind.Refresh?
    requires IsEntry(c, s, q, j, cmd) && q !in RefQueues(c, s.refreshQ[0])
    ensures cmd.addr.rank != s.refreshQ[0].addr.rank && !cmd.kind.IsRefresh()
  {
    hide Legal, Accounted, TransShape, Candidate, QueueIndex, RefQueues;
    var entry := s.cq.queues[q][j];
    assert CmdOk(c, entry) && QueueIndex(c, entry.Bank()) == q;
    DecodedBank(c, entry.hex, entry.kind.IsWrite());
    RefQueuesOfRank(c, s.refreshQ[0], entry.Bank());
    CandidateIsEntry(c, s.log, s.clk, s.cq.queues[q], j);
  }
}

/** `ChannelState`: all banks of a channel, the activation windows and the refresh requests. Its tables
    are updated command by command; `Valid` says that they always equal what the whole history says. */
module Channel {
  import opened DramTypes
  import opened DramConfig
  import opened History
  import opened Banks

  /** `n` added up `j` times: how many banks `j` full groups have. */
  ghost function Repeat(j: nat, n: nat): nat {
    if j == 0 then 0 else Repeat(j - 1, n) + n
  }

  lemma {:induction false} RepeatIsProduct(j: nat, n: nat)
    ensures Repeat(j, n) == j * n
  {
    if j > 0 {
      RepeatIsProduct(j - 1, n);
    }
  }

  lemma DropRankAt(q: seq<Command>, rank: int, i: nat)
    requires i < |q| && DropRank(q, rank) == q[..i] + DropRank(q[i..], rank)
    ensures DropRank(q, rank) ==
      if q[i].addr.rank == rank then q[..i] + q[i + 1..] else q[..i + 1] + DropRank(q[i + 1..], rank)
  {
    DropRankHead(q[i..], rank);
    assert q[i..][1..] == q[i + 1..];
    hide DropRank;
    TakeNext(q, i, DropRank(q[i + 1..], rank));
  }

  lemma DropRankHead(q: seq<Command>, rank: int)
    requires q != []
    ensures DropRank(q, rank) == if q[0].addr.rank == rank then q[1..] else [q[0]] + DropRank(q[1..], rank)
  {
  }

  lemma TakeNext<T>(q: seq<T>, i: nat, rest: seq<T>)
    requires i < |q|
    ensures q[..i + 1] + rest == q[..i] + ([q[i]] + rest)
  {
  }

  lemma DropRankEnd(q: seq<Command>, rank: int)
    ensures q[..|q|] + DropRank(q[|q|..], rank) == q
  {
  }

  lemma DropBankAt(q: seq<Command>, b: BankId, i: nat)
    requires i < |q| && DropBank(q, b) == q[..i] + DropBank(q[i..], b)
    ensures DropBank(q, b) == if q[i].Bank() == b then q[..i] + q[i + 1..] else q[..i + 1] + DropBank(q[i + 1..], b)
  {
    DropBankHead(q[i..], b);
    assert q[i..][1..] == q[i + 1..];
    hide DropBank;
    TakeNext(q, i, DropBank(q[i + 1..], b));
  }

  lemma DropBankHead(q: seq<Command>, b: BankId)
    requires q != []
    ensures DropBank(q, b) == if q[0].Bank() == b then q[1..] else [q[0]] + DropBank(q[1..], b)
  {
  }

  lemma DropBankEnd(q: seq<Command>, b: BankId)
    ensures q[..|q|] + DropBank(q[|q|..], b) == q
  {
  }

  lemma RowOfSnoc(log: Log, x: Issue)
    ensures forall b :: RowOf(log + [x], b) == RowAfter(RowOf(log, b), x, b)
  {
    assert Front(log + [x]) == log && Last(log + [x]) == x;
  }

  lemma WindowsSnoc(c: Config, log: Log, x: Issue)
    ensures forall r, span :: (Window(log + [x], r, span) ==
      if IsActivateOf(x, r) then WindowAfter(Window(log, r, span), x.clk, span) else Window(log, r, span))
  {
    assert Front(log + [x]) == log && Last(log + [x]) == x;
  }

  lemma EarliestSnoc(c: Config, log: Log, x: Issue, b: BankId, m: map<Kind, int>)
    requires forall k: Kind :: k in m ==> m[k] == Earliest(c, log, b, k)
    ensures forall k: Kind :: k in m ==>
      RaiseAll(m, DelaysFor(c, x.cmd, b), x.clk)[k] == Earliest(c, log + [x], b, k)
  {
    hide DelaysFor;
    assert Front(log + [x]) == log && Last(log + [x]) == x;
  }

  lemma RaiseByNothing(m: map<Kind, int>, clk: int)
    ensures RaiseAll(m, [], clk) == m
  {
  }

  /** Banks before bank `k` of group `j` are ready for the rank command itself. */
  ghost predicate ReadySoFar(c: Config, log: Log, cmd: Command, clk: int, j: int, k: int)
    requires Askable(cmd.kind)
  {
    forall b :: c.HasBank(b) && b.rank == cmd.addr.rank && (b.group < j || (b.group == j && b.bank < k)) ==>
      BankReady(c, log, b, cmd, clk) == Some(cmd)
  }

  lemma ReadySoFarStart(c: Config, log: Log, cmd: Command, clk: int)
    requires Askable(cmd.kind)
    ensures ReadySoFar(c, log, cmd, clk, 0, 0)
    ensures ReadySoFar(c, log, cmd, clk, c.bankgroups, 0) <==> AllReady(c, log, cmd, clk)
  {
  }

  /** One step of the scan over the banks of a rank. */
  lemma ScanAt(c: Config, log: Log, cmd: Command, clk: int, j: nat, k: nat)
    requires Askable(cmd.kind) && InRange(c, cmd) && j <= c.bankgroups && k <= c.banksPerGroup
    ensures j == c.bankgroups ==> Scan(c, log, cmd, clk, j, k).None?
    ensures j < c.bankgroups && k == c.banksPerGroup ==>
      Scan(c, log, cmd, clk, j, k) == Scan(c, log, cmd, clk, j + 1, 0)
    ensures j < c.bankgroups && k == c.banksPerGroup ==>
      (ReadySoFar(c, log, cmd, clk, j, k) <==> ReadySoFar(c, log, cmd, clk, j + 1, 0))
    ensures j < c.bankgroups && k < c.banksPerGroup ==>
      var b := BankId(cmd.addr.rank, j, k);
      && Scan(c, log, cmd, clk, j, k) ==
        (if Detour(c, log, b, cmd, clk) then Some(b) else Scan(c, log, cmd, clk, j, k + 1))
      && (ReadySoFar(c, log, cmd, clk, j, k + 1) <==>
        ReadySoFar(c, log, cmd, clk, j, k) && BankReady(c, log, b, cmd, clk) == Some(cmd))
  {
    hide BankReady;
  }

  type BankGrid = seq<seq<seq<BankState>>>

  /** The banks of one group, all closed and free. */
  method MakeGroup(c: Config, r: int, g: int) returns (group: seq<BankState>, ghost cells: set<BankState>)
    requires 0 <= r < c.ranks && 0 <= g < c.bankgroups
    ensures |group| == c.banksPerGroup && fresh(cells)
    ensures forall k :: 0 <= k < c.banksPerGroup ==> group[k] in cells && group[k].id == BankId(r, g, k)
    ensures forall cell :: cell in cells ==>
      cell.Fresh() && cell.id.rank == r && cell.id.group == g && 0 <= cell.id.bank < c.banksPerGroup
        && group[cell.id.bank] == cell
  {
    group, cells := [], {};
    var k := 0;
    while k < c.banksPerGroup
      invariant 0 <= k <= c.banksPerGroup && |group| == k && fresh(cells)
      invariant forall m :: 0 <= m < k ==> group[m] in cells && group[m].id == BankId(r, g, m)
      invariant forall cell :: cell in cells ==>
        cell.Fresh() && cell.id.rank == r && cell.id.group == g && 0 <= cell.id.bank < k && group[cell.id.bank] == cell
    {
      var cell := new BankState(BankId(r, g, k));
      group, cells := group + [cell], cells + {cell};
      k := k + 1;
    }
  }

  method MakeRank(c: Config, r: int) returns (rank: seq<seq<BankState>>, ghost cells: set<BankState>)
    requires 0 <= r < c.ranks
    ensures |rank| == c.bankgroups && fresh(cells)
    ensures forall g :: 0 <= g < c.bankgroups ==> |rank[g]| == c.banksPerGroup
    ensures forall g, k :: c.HasBank(BankId(r, g, k)) ==> rank[g][k] in cells && rank[g][k].id == BankId(r, g, k)
    ensures forall cell :: cell in cells ==>
      cell.Fresh() && c.HasBank(cell.id) && cell.id.rank == r && rank[cell.id.group][cell.id.bank] == cell
  {
    rank, cells := [], {};
    var j := 0;
    while j < c.bankgroups
      invariant 0 <= j <= c.bankgroups && |rank| == j && fresh(cells)
      invariant forall g :: 0 <= g < j ==> |rank[g]| == c.banksPerGroup
      invariant forall g, k :: g < j && c.HasBank(BankId(r, g, k)) ==>
        rank[g][k] in cells && rank[g][k].id == BankId(r, g, k)
      invariant forall cell :: cell in cells ==>
        cell.Fresh() && c.HasBank(cell.id) && cell.id.rank == r && cell.id.group < j
          && rank[cell.id.group][cell.id.bank] == cell
    {
      var group;
      ghost var more;
      group, more := MakeGroup(c, r, j);
      rank, cells := rank + [group], cells + more;
      j := j + 1;
    }
  }

  class ChannelState {
    const c: Config
    const banks: BankGrid
    ghost const cells: set<BankState>
    var refreshQ: seq<Command>
    var fourAw: seq<seq<int>>
    var thirtyTwoAw: seq<seq<int>>
    /** Every command issued so far. */
    ghost var log: Log

    constructor (config: Config)
      requires config.Valid()
      ensures c == config && Valid() && log == [] && refreshQ == [] && fresh(cells)
    {
      c := config;
      var grid: BankGrid := [];
      ghost var all: set<BankState> := {};
      var i := 0;
      while i < config.ranks
        invariant 0 <= i <= config.ranks && |grid| == i && fresh(all)
        invariant forall r :: 0 <= r < i ==> |grid[r]| == config.bankgroups
        invariant forall r, g :: 0 <= r < i && 0 <= g < config.bankgroups ==> |grid[r][g]| == config.banksPerGroup
        invariant forall r, g, k :: r < i && config.HasBank(BankId(r, g, k)) ==>
          grid[r][g][k] in all && grid[r][g][k].id == BankId(r, g, k)
        invariant forall cell :: cell in all ==>
          cell.Fresh() && config.HasBank(cell.id) && cell.id.rank < i
            && grid[cell.id.rank][cell.id.group][cell.id.bank] == cell
      {
        var rank;
        ghost var more;
        rank, more := MakeRank(config, i);
        grid := grid + [rank];
        all := all + more;
        i := i + 1;
      }
      banks, cells := grid, all;
      refreshQ, log := [], [];
      fourAw, thirtyTwoAw := seq(config.ranks, _ => []), seq(config.ranks, _ => []);
    }

    /** The grid holds one bank per place, and `cells` is all of them. */
    ghost predicate Shape()
      reads cells
    {
      && c.Valid()
      && |banks| == c.ranks
      && (forall r :: 0 <= r < c.ranks ==> |banks[r]| == c.bankgroups)
      && (forall r, g :: 0 <= r < c.ranks && 0 <= g < c.bankgroups ==> |banks[r][g]| == c.banksPerGroup)
      && (forall r, g, k :: c.HasBank(BankId(r, g, k)) ==>
        banks[r][g][k] in cells && banks[r][g][k].id == BankId(r, g, k))
      && (forall cell :: cell in cells ==>
        cell.Valid() && c.HasBank(cell.id) && banks[cell.id.rank][cell.id.group][cell.id.bank] == cell)
    }

    ghost predicate RowsMatch(l: Log)
      reads cells`isOpen, cells`openRow, cells`rowHitCount
    {
      forall cell :: cell in cells ==> cell.View() == RowOf(l, cell.id)
    }

    ghost predicate TimesMatch(l: Log)
      reads cells`cmdTiming
    {
      forall cell, k: Kind :: cell in cells && k in cell.cmdTiming ==> cell.cmdTiming[k] == Earliest(c, l, cell.id, k)
    }

    ghost predicate WindowsMatch(l: Log)
      reads this`fourAw, this`thirtyTwoAw
    {
      && |fourAw| == c.ranks && (forall r :: 0 <= r < c.ranks ==> fourAw[r] == Window(l, r, c.tFAW))
      && |thirtyTwoAw| == c.ranks
      && (c.IsGDDR() ==> forall r :: 0 <= r < c.ranks ==> thirtyTwoAw[r] == Window(l, r, c.t32AW))
    }

    ghost predicate Valid()
      reads this`log, this`fourAw, this`thirtyTwoAw, cells
    {
      Shape() && RowsMatch(log) && TimesMatch(log) && WindowsMatch(log)
    }

    // ---- queries ----------------------------------------------------------------------------

    method IsFAWReady(rank: nat, currTime: int) returns (ok: bool)
      requires rank < |fourAw|
      ensures ok == WindowOk(fourAw[rank], 4, currTime)
    {
      if fourAw[rank] != [] {
        if currTime < fourAw[rank][0] && |fourAw[rank]| >= 4 {
          return false;
        }
      }
      return true;
    }

    method Is32AWReady(rank: nat, currTime: int) returns (ok: bool)
      requires rank < |thirtyTwoAw|
      ensures ok == WindowOk(thirtyTwoAw[rank], 32, currTime)
    {
      if thirtyTwoAw[rank] != [] {
        if currTime < thirtyTwoAw[rank][0] && |thirtyTwoAw[rank]| >= 32 {
          return false;
        }
      }
      return true;
    }

    method ActivationWindowOk(rank: nat, currTime: int) returns (ok: bool)
      requires WindowsMatch(log) && rank < c.ranks
      ensures ok == History.ActivationWindowOk(c, log, rank, currTime)
    {
      var tfawOk := IsFAWReady(rank, currTime);
      if c.IsGDDR() {
        if !tfawOk {
          return false;
        } else {
          ok := Is32AWReady(rank, currTime);
          return;
        }
      }
      return tfawOk;
    }

    method OpenRow(b: BankId) returns (row: int)
      requires Valid() && c.HasBank(b)
      ensures row == History.OpenRow(log, b)
    {
      hide RowOf, Earliest, Window;
      row := banks[b.rank][b.group][b.bank].openRow;
    }

    method RowHitCount(b: BankId) returns (hits: nat)
      requires Valid() && c.HasBank(b)
      ensures hits == History.RowHitCount(log, b)
    {
      hide RowOf, Earliest, Window;
      hits := banks[b.rank][b.group][b.bank].rowHitCount;
    }

    method BankReadyCommand(b: BankId, cmd: Command, clk: int) returns (r: Option<Command>)
      requires Valid() && c.HasBank(b) && Askable(cmd.kind)
      ensures r == BankReady(c, log, b, cmd, clk)
    {
      r := banks[b.rank][b.group][b.bank].GetReadyCommand(cmd, clk);
    }

    /** The answer computed from the tables is the one the history gives. */
    method GetReadyCommand(cmd: Command, clk: int) returns (r: Option<Command>)
      requires Valid() && Askable(cmd.kind) && InRange(c, cmd)
      ensures r == ReadyCommand(c, log, cmd, clk)
    {
      hide Earliest, RowOf, Window;
      if cmd.kind.IsRank() {
        r := RankReadyCommand(cmd, clk);
      } else {
        r := BankReadyCommand(cmd.Bank(), cmd, clk);
        if r.None? {
          return None;
        }
        if r.value.kind.Activate? {
          var ok := ActivationWindowOk(cmd.addr.rank, clk);
          if !ok {
            return None;
          }
        }
      }
    }

    method RankReadyCommand(cmd: Command, clk: int) returns (r: Option<Command>)
      requires Valid() && cmd.kind.Refresh? && InRange(c, cmd)
      ensures r == ReadyCommand(c, log, cmd, clk)
    {
      hide Earliest, RowOf, Window, Shape, RowsMatch, TimesMatch, WindowsMatch, Scan, ReadySoFar;
      var numReady := 0;
      ghost var seen := 0;
      var j := 0;
      ReadySoFarStart(c, log, cmd, clk);
      while j < c.bankgroups
        invariant 0 <= j <= c.bankgroups
        invariant Scan(c, log, cmd, clk, 0, 0) == Scan(c, log, cmd, clk, j, 0)
        invariant seen == Repeat(j, c.banksPerGroup) && numReady <= seen
        invariant numReady == seen <==> ReadySoFar(c, log, cmd, clk, j, 0)
      {
        var k := 0;
        while k < c.banksPerGroup
          invariant 0 <= k <= c.banksPerGroup
          invariant Scan(c, log, cmd, clk, 0, 0) == Scan(c, log, cmd, clk, j, k)
          invariant seen == Repeat(j, c.banksPerGroup) + k && numReady <= seen
          invariant numReady == seen <==> ReadySoFar(c, log, cmd, clk, j, k)
        {
          var one := BankReadyCommand(BankId(cmd.addr.rank, j, k), cmd, clk);
          ScanAt(c, log, cmd, clk, j, k);
          if one.Some? {
            if one.value.kind != cmd.kind {
              return Some(Command(one.value.kind, Address(-1, cmd.addr.rank, j, k, -1, -1), cmd.hex));
            } else {
              numReady := numReady + 1;
            }
          }
          seen := seen + 1;
          k := k + 1;
        }
        ScanAt(c, log, cmd, clk, j, k);
        j := j + 1;
      }
      ScanAt(c, log, cmd, clk, j, 0);
      RepeatIsProduct(c.bankgroups, c.banksPerGroup);
      if numReady == c.Banks() {
        return Some(cmd);
      } else {
        return None;
      }
    }

    // ---- refresh requests --------------------------------------------------------------------

    method RankNeedRefresh(rank: int, need: bool)
      modifies this`refreshQ
      ensures need ==> refreshQ == old(refreshQ) + [Command(Refresh, Address(-1, rank, -1, -1, -1, -1), -1)]
      ensures !need ==> refreshQ == DropRank(old(refreshQ), rank)
    {
      if need {
        refreshQ := refreshQ + [Command(Refresh, Address(-1, rank, -1, -1, -1, -1), -1)];
      } else {
        hide DropRank;
        var i := 0;
        while i < |refreshQ|
          invariant 0 <= i <= |refreshQ|
          invariant refreshQ == old(refreshQ)
          invariant DropRank(refreshQ, rank) == refreshQ[..i] + DropRank(refreshQ[i..], rank)
        {
          DropRankAt(refreshQ, rank, i);
          if refreshQ[i].addr.rank == rank {
            refreshQ := refreshQ[..i] + refreshQ[i + 1..];
            return;
          }
          i := i + 1;
        }
        DropRankEnd(refreshQ, rank);
      }
    }

    method BankNeedRefresh(rank: int, group: int, bank: int, need: bool)
      modifies this`refreshQ
      ensures need ==> refreshQ == old(refreshQ) + [Command(RefreshBank, Address(-1, rank, group, bank, -1, -1), -1)]
      ensures !need ==> refreshQ == DropBank(old(refreshQ), BankId(rank, group, bank))
    {
      if need {
        refreshQ := refreshQ + [Command(RefreshBank, Address(-1, rank, group, bank, -1, -1), -1)];
      } else {
        hide DropBank;
        ghost var b := BankId(rank, group, bank);
        var i := 0;
        while i < |refreshQ|
          invariant 0 <= i <= |refreshQ|
          invariant refreshQ == old(refreshQ)
          invariant DropBank(refreshQ, b) == refreshQ[..i] + DropBank(refreshQ[i..], b)
        {
          DropBankAt(refreshQ, b, i);
          if refreshQ[i].addr.rank == rank && refreshQ[i].addr.group == group && refreshQ[i].addr.bank == bank {
            refreshQ := refreshQ[..i] + refreshQ[i + 1..];
            return;
          }
          i := i + 1;
        }
        DropBankEnd(refreshQ, b);
      }
    }

    // ---- row states ---------------------------------------------------------------------------

    method UpdateState(cmd: Command, ghost clk: int)
      requires Shape() && RowsMatch(log) && InRange(c, cmd)
      requires forall b :: c.HasBank(b) && cmd.Touches(b) ==> Advance(RowOf(log, b), cmd).Some?
      modifies this`refreshQ
      modifies cells`isOpen, cells`openRow, cells`rowHitCount
      ensures Shape() && RowsMatch(log + [Issue(clk, cmd)])
      ensures refreshQ == RequestsAfter(old(refreshQ), cmd)
    {
      hide RowOf, Advance, DropRank, DropBank;
      ghost var x := Issue(clk, cmd);
      RowOfSnoc(log, x);
      if cmd.kind.IsRank() {
        UpdateRankState(cmd);
        RankNeedRefresh(cmd.addr.rank, false);
      } else {
        UpdateBankState(cmd);
        if cmd.kind.IsRefresh() {
          BankNeedRefresh(cmd.addr.rank, cmd.addr.group, cmd.addr.bank, false);
        }
      }
    }

    method UpdateBankState(cmd: Command)
      requires Shape() && c.HasBank(cmd.Bank())
      requires forall cell :: cell in cells && cell.id == cmd.Bank() ==> Advance(cell.View(), cmd).Some?
      modifies cells`isOpen, cells`openRow, cells`rowHitCount
      ensures Shape()
      ensures forall cell :: cell in cells ==>
        cell.View() == if cell.id == cmd.Bank() then Advance(old(cell.View()), cmd).value else old(cell.View())
    {
      hide Advance;
      var ok := banks[cmd.addr.rank][cmd.addr.group][cmd.addr.bank].UpdateState(cmd);
    }

    method UpdateRankState(cmd: Command)
      requires Shape() && 0 <= cmd.addr.rank < c.ranks
      requires forall cell :: cell in cells && cell.id.rank == cmd.addr.rank ==> Advance(cell.View(), cmd).Some?
      modifies cells`isOpen, cells`openRow, cells`rowHitCount
      ensures Shape()
      ensures forall cell :: cell in cells ==>
        cell.View() == if cell.id.rank == cmd.addr.rank then Advance(old(cell.View()), cmd).value else old(cell.View())
    {
      hide Advance;
      var j := 0;
      while j < c.bankgroups
        invariant 0 <= j <= c.bankgroups && Shape()
        invariant forall cell :: cell in cells ==>
          cell.View() == if cell.id.rank == cmd.addr.rank && cell.id.group < j
                         then Advance(old(cell.View()), cmd).value else old(cell.View())
      {
        var k := 0;
        while k < c.banksPerGroup
          invariant 0 <= k <= c.banksPerGroup && Shape()
          invariant forall cell :: cell in cells ==>
            cell.View() == if cell.id.rank == cmd.addr.rank
              && (cell.id.group < j || (cell.id.group == j && cell.id.bank < k))
                           then Advance(old(cell.View()), cmd).value else old(cell.View())
        {
          var cell := banks[cmd.addr.rank][j][k];
          assert c.HasBank(BankId(cmd.addr.rank, j, k));
          var ok := cell.UpdateState(cmd);
          k := k + 1;
        }
        j := j + 1;
      }
    }

    // ---- earliest times -------------------------------------------------------------------------

    /** The innermost loop of every fan-out: one bank, one list of delays. */
    method UpdateBankTiming(cell: BankState, ds: seq<Delay>, clk: int)
      requires cell.Valid()
      modifies cell`cmdTiming
      ensures cell.Valid() && cell.cmdTiming == RaiseAll(old(cell.cmdTiming), ds, clk)
    {
      var e := 0;
      while e < |ds|
        invariant 0 <= e <= |ds| && cell.Valid()
        invariant cell.cmdTiming == RaiseAll(old(cell.cmdTiming), ds[..e], clk)
      {
        cell.UpdateTiming(ds[e].kind, clk + ds[e].delay);
        assert ds[..e + 1][..e] == ds[..e];
        e := e + 1;
      }
      assert ds[..e] == ds;
    }

    /** Banks whose place satisfies `p` had their tables raised by `ds`; all others kept theirs. */
    twostate predicate Raised(p: BankId -> bool, ds: seq<Delay>, clk: int)
      reads cells
    {
      forall cell :: cell in cells ==>
        cell.cmdTiming == if p(cell.id) then RaiseAll(old(cell.cmdTiming), ds, clk) else old(cell.cmdTiming)
    }

    method UpdateSameBankTiming(addr: Address, ds: seq<Delay>, clk: int)
      requires Shape() && c.HasBank(BankId(addr.rank, addr.group, addr.bank))
      modifies cells`cmdTiming
      ensures Shape() && Raised((b: BankId) => b == BankId(addr.rank, addr.group, addr.bank), ds, clk)
    {
      UpdateBankTiming(banks[addr.rank][addr.group][addr.bank], ds, clk);
    }

    method UpdateOtherBanksSameBankgroupTiming(addr: Address, ds: seq<Delay>, clk: int)
      requires Shape() && c.HasBank(BankId(addr.rank, addr.group, addr.bank))
      modifies cells`cmdTiming
      ensures Shape()
      ensures Raised((b: BankId) => b.rank == addr.rank && b.group == addr.group && b.bank != addr.bank, ds, clk)
    {
      hide RaiseAll;
      var k := 0;
      while k < c.banksPerGroup
        invariant 0 <= k <= c.banksPerGroup && Shape()
        invariant Raised((b: BankId) => b.rank == addr.rank && b.group == addr.group && b.bank < k
          && b.bank != addr.bank, ds, clk)
      {
        if k != addr.bank {
          UpdateBankTiming(banks[addr.rank][addr.group][k], ds, clk);
        }
        k := k + 1;
      }
    }

    method UpdateGroupTiming(rank: int, group: int, ds: seq<Delay>, clk: int)
      requires Shape() && 0 <= rank < c.ranks && 0 <= group < c.bankgroups
      modifies cells`cmdTiming
      ensures Shape() && Raised((b: BankId) => b.rank == rank && b.group == group, ds, clk)
    {
      hide RaiseAll;
      var k := 0;
      while k < c.banksPerGroup
        invariant 0 <= k <= c.banksPerGroup && Shape()
        invariant Raised((b: BankId) => b.rank == rank && b.group == group && b.bank < k, ds, clk)
      {
        assert c.HasBank(BankId(rank, group, k));
        UpdateBankTiming(banks[rank][group][k], ds, clk);
        k := k + 1;
      }
    }

    method UpdateOtherBankgroupsSameRankTiming(addr: Address, ds: seq<Delay>, clk: int)
      requires Shape() && c.HasBank(BankId(addr.rank, addr.group, addr.bank))
      modifies cells`cmdTiming
      ensures Shape() && Raised((b: BankId) => b.rank == addr.rank && b.group != addr.group, ds, clk)
    {
      hide RaiseAll;
      var j := 0;
      while j < c.bankgroups
        invariant 0 <= j <= c.bankgroups && Shape()
        invariant Raised((b: BankId) => b.rank == addr.rank && b.group < j && b.group != addr.group, ds, clk)
      {
        if j != addr.group {
          UpdateGroupTiming(addr.rank, j, ds, clk);
        }
        j := j + 1;
      }
    }

    method UpdateSameRankTiming(rank: int, ds: seq<Delay>, clk: int)
      requires Shape() && 0 <= rank < c.ranks
      modifies cells`cmdTiming
      ensures Shape() && Raised((b: BankId) => b.rank == rank, ds, clk)
    {
      hide RaiseAll;
      var j := 0;
      while j < c.bankgroups
        invariant 0 <= j <= c.bankgroups && Shape()
        invariant Raised((b: BankId) => b.rank == rank && b.group < j, ds, clk)
      {
        UpdateGroupTiming(rank, j, ds, clk);
        j := j + 1;
      }
    }

    method UpdateOtherRanksTiming(addr: Address, ds: seq<Delay>, clk: int)
      requires Shape() && c.HasBank(BankId(addr.rank, addr.group, addr.bank))
      modifies cells`cmdTiming
      ensures Shape() && Raised((b: BankId) => b.rank != addr.rank, ds, clk)
    {
      hide RaiseAll;
      var i := 0;
      while i < c.ranks
        invariant 0 <= i <= c.ranks && Shape()
        invariant Raised((b: BankId) => b.rank < i && b.rank != addr.rank, ds, clk)
      {
        if i != addr.rank {
          UpdateSameRankTiming(i, ds, clk);
        }
        i := i + 1;
      }
    }

    /** All fan-outs of one command together: every bank is raised by the table of its relation. */
    method UpdateBankTables(cmd: Command, clk: int)
      requires Shape() && InRange(c, cmd)
      modifies cells`cmdTiming
      ensures Shape()
      ensures forall cell :: cell in cells ==>
        cell.cmdTiming == RaiseAll(old(cell.cmdTiming), DelaysFor(c, cmd, cell.id), clk)
    {
      hide RaiseAll, SameBank, OtherBanksSameGroup, OtherGroupsSameRank, OtherRanks, SameRank;
      if cmd.kind.IsRank() {
        UpdateSameRankTiming(cmd.addr.rank, SameRank(c, cmd.kind), clk);
        assert forall cell :: cell in cells && cell.id.rank != cmd.addr.rank ==>
          old(cell.cmdTiming) == RaiseAll(old(cell.cmdTiming), [], clk) by {
          forall cell | cell in cells { RaiseByNothing(old(cell.cmdTiming), clk); }
        }
      } else {
        UpdateSameBankTiming(cmd.addr, SameBank(c, cmd.kind), clk);
        UpdateOtherBanksSameBankgroupTiming(cmd.addr, OtherBanksSameGroup(c, cmd.kind), clk);
        UpdateOtherBankgroupsSameRankTiming(cmd.addr, OtherGroupsSameRank(c, cmd.kind), clk);
        UpdateOtherRanksTiming(cmd.addr, OtherRanks(c, cmd.kind), clk);
      }
    }

    method UpdateActivationTimes(rank: int, currTime: int)
      requires |fourAw| == |thirtyTwoAw| == c.ranks && 0 <= rank < c.ranks
      modifies this`fourAw, this`thirtyTwoAw
      ensures fourAw == old(fourAw)[rank := WindowAfter(old(fourAw)[rank], currTime, c.tFAW)]
      ensures thirtyTwoAw == if c.IsGDDR()
                             then old(thirtyTwoAw)[rank := WindowAfter(old(thirtyTwoAw)[rank], currTime, c.t32AW)]
                             else old(thirtyTwoAw)
    {
      if fourAw[rank] != [] && currTime >= fourAw[rank][0] {
        fourAw := fourAw[rank := fourAw[rank][1..]];
      }
      fourAw := fourAw[rank := fourAw[rank] + [currTime + c.tFAW]];
      if c.IsGDDR() {
        if thirtyTwoAw[rank] != [] && currTime >= thirtyTwoAw[rank][0] {
          thirtyTwoAw := thirtyTwoAw[rank := thirtyTwoAw[rank][1..]];
        }
        thirtyTwoAw := thirtyTwoAw[rank := thirtyTwoAw[rank] + [currTime + c.t32AW]];
      }
    }

    method UpdateTiming(cmd: Command, clk: int)
      requires Shape() && TimesMatch(log) && WindowsMatch(log) && InRange(c, cmd)
      modifies this`fourAw, this`thirtyTwoAw, cells`cmdTiming
      ensures Shape() && TimesMatch(log + [Issue(clk, cmd)]) && WindowsMatch(log + [Issue(clk, cmd)])
    {
      hide RaiseAll, DelaysFor, Earliest, Window, WindowAfter;
      ghost var x := Issue(clk, cmd);
      if cmd.kind.Activate? {
        UpdateActivationTimes(cmd.addr.rank, clk);
      }
      WindowsSnoc(c, log, x);
      assert WindowsMatch(log + [x]);
      UpdateBankTables(cmd, clk);
      forall cell | cell in cells
        ensures forall k: Kind :: k in cell.cmdTiming ==> cell.cmdTiming[k] == Earliest(c, log + [x], cell.id, k)
      {
        EarliestSnoc(c, log, x, cell.id, old(cell.cmdTiming));
      }
    }

    /** Issuing a command: the tables move from one history to the next. */
    method UpdateTimingAndStates(cmd: Command, clk: int)
      requires Valid() && InRange(c, cmd)
      requires forall b :: c.HasBank(b) && cmd.Touches(b) ==> Advance(RowOf(log, b), cmd).Some?
      modifies this, cells
      ensures Valid() && log == old(log) + [Issue(clk, cmd)]
      ensures refreshQ == RequestsAfter(old(refreshQ), cmd)
    {
      hide RowOf, Earliest, Window, WindowsMatch, Advance;
      UpdateState(cmd, clk);
      assert TimesMatch(log) && WindowsMatch(log);
      UpdateTiming(cmd, clk);
      log := log + [Issue(clk, cmd)];
    }
  }
}

/** What the history of issued commands says about the next one. Nothing here is incremental: a bank's
    row, the earliest time of a command and the activation windows are all read off the whole log. */
module History {
  import opened DramTypes
  import opened DramConfig

  datatype Issue = Issue(clk: int, cmd: Command)

  type Log = seq<Issue>

  function Last(log: Log): Issue
    requires log != []
  {
    log[|log| - 1]
  }

  function Front(log: Log): Log
    requires log != []
  {
    log[..|log| - 1]
  }

  // ---- rows ---------------------------------------------------------------------------------

  datatype Row = Open(row: int, hits: nat) | Closed

  /** `BankState::UpdateState`; `None` is `AbruptExit`. */
  function Advance(s: Row, cmd: Command): Option<Row> {
    match s
    case Open(row, hits) =>
      (match cmd.kind
       case Read => Some(Open(row, hits + 1))
       case Write => Some(Open(row, hits + 1))
       case ReadPrecharge => Some(Closed)
       case WritePrecharge => Some(Closed)
       case Precharge => Some(Closed)
       case _ => None)
    case Closed =>
      (match cmd.kind
       case Refresh => Some(Closed)
       case RefreshBank => Some(Closed)
       case Activate => Some(Open(cmd.addr.row, 0))
       case _ => None)
  }

  /** Bank `b` after `x`, when it was in `s` before. */
  function RowAfter(s: Row, x: Issue, b: BankId): Row {
    if !x.cmd.Touches(b) then s
    else match Advance(s, x.cmd)
         case None => s
         case Some(s') => s'
  }

  function RowOf(log: Log, b: BankId): Row {
    if log == [] then Closed else RowAfter(RowOf(Front(log), b), Last(log), b)
  }

  function OpenRow(log: Log, b: BankId): int {
    match RowOf(log, b)
    case Open(row, _) => row
    case Closed => -1
  }

  function RowHitCount(log: Log, b: BankId): nat {
    match RowOf(log, b)
    case Open(_, hits) => hits
    case Closed => 0
  }

  // ---- earliest times -----------------------------------------------------------------------

  /** `v` raised by every line of `ds` about `k`. */
  function Raise(v: int, ds: seq<Delay>, clk: int, k: Kind): (r: int)
    ensures r >= v
  {
    if ds == [] then v
    else
      var r := Raise(v, ds[..|ds| - 1], clk, k);
      var d := ds[|ds| - 1];
      if d.kind == k then Max(r, clk + d.delay) else r
  }

  function Earliest(c: Config, log: Log, b: BankId, k: Kind): (r: int)
    ensures r >= 0
  {
    if log == [] then 0
    else Raise(Earliest(c, Front(log), b, k), DelaysFor(c, Last(log).cmd, b), Last(log).clk, k)
  }

  // ---- activation windows -------------------------------------------------------------------

  predicate IsActivateOf(x: Issue, rank: int) {
    x.cmd.kind.Activate? && x.cmd.addr.rank == rank
  }

  /** `UpdateActivationTimes`: at most one expired entry leaves when a new one enters. */
  function WindowAfter(w: seq<int>, clk: int, span: int): seq<int> {
    (if w != [] && clk >= w[0] then w[1..] else w) + [clk + span]
  }

  function Window(log: Log, rank: int, span: int): seq<int> {
    if log == [] then []
    else
      var w := Window(Front(log), rank, span);
      if IsActivateOf(Last(log), rank) then WindowAfter(w, Last(log).clk, span) else w
  }

  predicate WindowOk(w: seq<int>, limit: nat, clk: int) {
    !(w != [] && clk < w[0] && |w| >= limit)
  }

  predicate ActivationWindowOk(c: Config, log: Log, rank: int, clk: int) {
    WindowOk(Window(log, rank, c.tFAW), 4, clk) &&
    (c.IsGDDR() ==> WindowOk(Window(log, rank, c.t32AW), 32, clk))
  }

  // ---- which command may come next ----------------------------------------------------------

  /** What `BankState::GetReadyCommand` may be asked for; anything else makes it abort. */
  predicate Askable(k: Kind) {
    k.IsColumn() || k.IsRefresh()
  }

  /** The command a bank needs next on the way to `cmd`. */
  function Required(s: Row, cmd: Command): Kind
    requires Askable(cmd.kind)
  {
    match s
    case Closed => if cmd.kind.IsColumn() then Activate else cmd.kind
    case Open(row, _) => if cmd.kind.IsColumn() && cmd.addr.row == row then cmd.kind else Precharge
  }

  function BankReady(c: Config, log: Log, b: BankId, cmd: Command, clk: int): Option<Command>
    requires Askable(cmd.kind)
  {
    var k := Required(RowOf(log, b), cmd);
    if clk >= Earliest(c, log, b, k) then Some(cmd.(kind := k)) else None
  }

  /** A bank that is ready for a command other than the rank command asked for. */
  predicate Detour(c: Config, log: Log, b: BankId, cmd: Command, clk: int)
    requires Askable(cmd.kind)
  {
    var r := BankReady(c, log, b, cmd, clk);
    r.Some? && r.value.kind != cmd.kind
  }

  /** The first such bank of the rank, from bank `k` of group `g` on. */
  function Scan(c: Config, log: Log, cmd: Command, clk: int, g: nat, k: nat): Option<BankId>
    requires Askable(cmd.kind)
    decreases c.bankgroups - g, c.banksPerGroup - k
  {
    var b := BankId(cmd.addr.rank, g, k);
    if g >= c.bankgroups then None
    else if k >= c.banksPerGroup then Scan(c, log, cmd, clk, g + 1, 0)
    else if Detour(c, log, b, cmd, clk) then Some(b)
    else Scan(c, log, cmd, clk, g, k + 1)
  }

  ghost predicate AllReady(c: Config, log: Log, cmd: Command, clk: int)
    requires Askable(cmd.kind)
  {
    forall b :: c.HasBank(b) && b.rank == cmd.addr.rank ==> BankReady(c, log, b, cmd, clk) == Some(cmd)
  }

  /** `ChannelState::GetReadyCommand`: a rank command first closes the open banks of its rank, one at a
      time, and is ready only when all of them are. */
  ghost function ReadyCommand(c: Config, log: Log, cmd: Command, clk: int): Option<Command>
    requires Askable(cmd.kind)
  {
    if cmd.kind.IsRank() then
      match Scan(c, log, cmd, clk, 0, 0)
      case Some(b) => Some(Command(Required(RowOf(log, b), cmd), Address(-1, b.rank, b.group, b.bank, -1, -1), cmd.hex))
      case None => if AllReady(c, log, cmd, clk) then Some(cmd) else None
    else
      var one := BankReady(c, log, cmd.Bank(), cmd, clk);
      if one.Some? && one.value.kind.Activate? && !ActivationWindowOk(c, log, cmd.addr.rank, clk) then None else one
  }

  // ---- refresh requests ---------------------------------------------------------------------

  /** The first request for a rank is dropped. */
  function DropRank(q: seq<Command>, rank: int): seq<Command> {
    if q == [] then [] else if q[0].addr.rank == rank then q[1..] else [q[0]] + DropRank(q[1..], rank)
  }

  /** The first request for a bank is dropped. */
  function DropBank(q: seq<Command>, b: BankId): seq<Command> {
    if q == [] then [] else if q[0].Bank() == b then q[1..] else [q[0]] + DropBank(q[1..], b)
  }

  /** `refresh_q_` after `cmd` was issued. */
  function RequestsAfter(q: seq<Command>, cmd: Command): seq<Command> {
    if cmd.kind.Refresh? then DropRank(q, cmd.addr.rank)
    else if cmd.kind.RefreshBank? then DropBank(q, cmd.Bank())
    else q
  }

  // ---- legal histories ----------------------------------------------------------------------

  ghost predicate InRange(c: Config, cmd: Command) {
    0 <= cmd.addr.rank < c.ranks && (cmd.kind.IsRank() || c.HasBank(cmd.Bank()))
  }

  /** `x` may follow `log`: time moves on, every bank it acts on is in a state that takes it and has
      reached its earliest time, a column access hits the open row and an ACTIVATE finds its window open. */
  ghost predicate Admits(c: Config, log: Log, x: Issue) {
    && InRange(c, x.cmd)
    && (log != [] ==> Last(log).clk < x.clk)
    && (forall b :: c.HasBank(b) && x.cmd.Touches(b) ==>
      Advance(RowOf(log, b), x.cmd).Some? && Earliest(c, log, b, x.cmd.kind) <= x.clk)
    && (x.cmd.kind.IsColumn() ==> RowOf(log, x.cmd.Bank()).Open? && RowOf(log, x.cmd.Bank()).row == x.cmd.addr.row)
    && (x.cmd.kind.Activate? ==> ActivationWindowOk(c, log, x.cmd.addr.rank, x.clk))
  }

  ghost predicate Legal(c: Config, log: Log) {
    log == [] || (Legal(c, Front(log)) && Admits(c, Front(log), Last(log)))
  }

  // ---- the earliest time is a maximum over the whole history ---------------------------------

  /** The table line of issued command `x` about `k` on bank `b` ends at time `t`. */
  ghost predicate HoldsUntil(c: Config, x: Issue, b: BankId, k: Kind, t: int) {
    exists d :: d in DelaysFor(c, x.cmd, b) && d.kind == k && x.clk + d.delay == t
  }

  /** `v` is 0 or the latest time until which any issued command holds back `k` on `b`. */
  ghost predicate IsLatestRelease(c: Config, log: Log, b: BankId, k: Kind, v: int) {
    && (forall i, t :: 0 <= i < |log| && HoldsUntil(c, log[i], b, k, t) ==> t <= v)
    && 0 <= v
    && (v == 0 || exists i :: 0 <= i < |log| && HoldsUntil(c, log[i], b, k, v))
  }

  lemma {:induction false} RaiseIsMax(v: int, ds: seq<Delay>, clk: int, k: Kind)
    ensures forall d :: d in ds && d.kind == k ==> clk + d.delay <= Raise(v, ds, clk, k)
    ensures Raise(v, ds, clk, k) == v
         || exists d :: d in ds && d.kind == k && clk + d.delay == Raise(v, ds, clk, k)
  {
    if ds != [] {
      var ds' := ds[..|ds| - 1];
      RaiseIsMax(v, ds', clk, k);
      assert ds == ds' + [ds[|ds| - 1]];
    }
  }

  lemma {:induction false} EarliestBounds(c: Config, log: Log, b: BankId, k: Kind, i: nat, t: int)
    requires i < |log| && HoldsUntil(c, log[i], b, k, t)
    ensures t <= Earliest(c, log, b, k)
  {
    hide DelaysFor;
    RaiseIsMax(Earliest(c, Front(log), b, k), DelaysFor(c, Last(log).cmd, b), Last(log).clk, k);
    if i < |log| - 1 {
      EarliestBounds(c, Front(log), b, k, i, t);
    }
  }

  lemma {:induction false} EarliestAttained(c: Config, log: Log, b: BankId, k: Kind)
    ensures Earliest(c, log, b, k) == 0
         || exists i :: 0 <= i < |log| && HoldsUntil(c, log[i], b, k, Earliest(c, log, b, k))
  {
    hide DelaysFor;
    if log != [] {
      EarliestAttained(c, Front(log), b, k);
      RaiseIsMax(Earliest(c, Front(log), b, k), DelaysFor(c, Last(log).cmd, b), Last(log).clk, k);
      assert log[|log| - 1] == Last(log);
      assert forall i :: 0 <= i < |log| - 1 ==> Front(log)[i] == log[i];
    }
  }

  /** The recursion computes the maximum, and nothing else is that maximum. */
  lemma EarliestIsLatestRelease(c: Config, log: Log, b: BankId, k: Kind, v: int)
    ensures IsLatestRelease(c, log, b, k, v) <==> v == Earliest(c, log, b, k)
  {
    hide DelaysFor, Earliest, HoldsUntil;
    forall i, t | 0 <= i < |log| && HoldsUntil(c, log[i], b, k, t)
      ensures t <= Earliest(c, log, b, k)
    {
      EarliestBounds(c, log, b, k, i, t);
    }
    EarliestAttained(c, log, b, k);
  }

  // ---- what the ready command guarantees ------------------------------------------------------

  /** Bank `b` comes up in the scan from bank `k` of group `g` before `end` does. */
  predicate Within(g: nat, k: nat, b: BankId, end: BankId) {
    && (b.group > g || (b.group == g && b.bank >= k))
    && (b.group < end.group || (b.group == end.group && b.bank < end.bank))
  }

  lemma {:induction false} ScanFinds(c: Config, log: Log, cmd: Command, clk: int, g: nat, k: nat)
    requires Askable(cmd.kind) && 0 <= cmd.addr.rank < c.ranks
    ensures var r := Scan(c, log, cmd, clk, g, k);
      r.Some? ==> c.HasBank(r.value) && r.value.rank == cmd.addr.rank && Detour(c, log, r.value, cmd, clk)
    ensures Scan(c, log, cmd, clk, g, k).None? ==>
      forall b :: c.HasBank(b) && b.rank == cmd.addr.rank && (b.group > g || (b.group == g && b.bank >= k)) ==>
        !Detour(c, log, b, cmd, clk)
    ensures var r := Scan(c, log, cmd, clk, g, k);
      r.Some? ==> forall b :: c.HasBank(b) && b.rank == cmd.addr.rank && Within(g, k, b, r.value) ==>
        !Detour(c, log, b, cmd, clk)
    ensures var r := Scan(c, log, cmd, clk, g, k);
      r.Some? ==> r.value.group > g || (r.value.group == g && r.value.bank >= k)
    decreases c.bankgroups - g, c.banksPerGroup - k
  {
    hide Detour;
    if g < c.bankgroups {
      if k >= c.banksPerGroup {
        ScanFinds(c, log, cmd, clk, g + 1, 0);
      } else if !Detour(c, log, BankId(cmd.addr.rank, g, k), cmd, clk) {
        ScanFinds(c, log, cmd, clk, g, k + 1);
      }
    }
  }

  /** A command reported ready may be issued right away. */
  lemma ReadyIsAdmitted(c: Config, log: Log, cmd: Command, clk: int)
    requires Askable(cmd.kind) && InRange(c, cmd)
    requires log != [] ==> Last(log).clk < clk
    ensures var r := ReadyCommand(c, log, cmd, clk);
      r.Some? ==> Admits(c, log, Issue(clk, r.value))
  {
    hide Earliest, RowOf, Scan, ActivationWindowOk;
    if cmd.kind.IsRank() {
      ScanFinds(c, log, cmd, clk, 0, 0);
    }
  }

  // ---- theorems about every legal history ----------------------------------------------------

  lemma {:induction false} LegalPrefix(c: Config, log: Log, n: nat)
    requires Legal(c, log) && n <= |log|
    ensures Legal(c, log[..n])
  {
    if n == |log| {
      assert log[..n] == log;
    } else {
      LegalPrefix(c, Front(log), n);
      assert Front(log)[..n] == log[..n];
    }
  }

  lemma {:induction false} LegalAt(c: Config, log: Log, i: nat)
    requires Legal(c, log) && i < |log|
    ensures Admits(c, log[..i], log[i])
  {
    LegalPrefix(c, log, i + 1);
    assert Front(log[..i + 1]) == log[..i];
  }

  lemma {:induction false} ClocksIncrease(c: Config, log: Log, i: nat, j: nat)
    requires Legal(c, log) && i < j < |log|
    ensures log[i].clk < log[j].clk
  {
    LegalAt(c, log, j);
    if i < j - 1 {
      ClocksIncrease(c, log, i, j - 1);
    }
  }

  /** Spacing of every pair: if an issued command puts a delay on a later one's kind at any bank the
      later one acts on, they are at least that far apart. For REFRESH this is against every bank of
      the rank. */
  lemma PairwiseSpacing(c: Config, log: Log, i: nat, j: nat, b: BankId, d: Delay)
    requires Legal(c, log) && i < j < |log|
    requires c.HasBank(b) && log[j].cmd.Touches(b)
    requires d in DelaysFor(c, log[i].cmd, b) && d.kind == log[j].cmd.kind
    ensures log[i].clk + d.delay <= log[j].clk
  {
    hide DelaysFor;
    LegalAt(c, log, j);
    assert log[..j][i] == log[i];
    EarliestBounds(c, log[..j], b, d.kind, i, log[i].clk + d.delay);
  }
}

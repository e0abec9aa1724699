/** What the delay tables mean: rules about clocks, data bursts and parameters, which the tables enforce to the
    cycle, no less and no more. */
module TimingRules {
  import opened DramTypes
  import opened DramConfig
  import opened History
  import opened HistoryTheorems

  // ---- data bursts ------------------------------------------------------------------------------------------

  /** When the data of a column command issued at `clk` starts on the bus. */
  function DataAt(c: Config, kind: Kind, clk: int): int {
    clk + c.AL + if kind.IsRead() then c.CL else c.CWL
  }

  /** The first cycle after its data. */
  function DataEnd(c: Config, kind: Kind, clk: int): int {
    DataAt(c, kind, clk) + c.burstCycle
  }

  // ---- the rules --------------------------------------------------------------------------------------------

  predicate SameRankAs(x: Issue, b: BankId) {
    x.cmd.addr.rank == b.rank
  }

  predicate SameBankAs(x: Issue, b: BankId) {
    x.cmd.Bank() == b
  }

  /** The long delays hold inside a bank group, if there is more than one. */
  predicate Near(c: Config, x: Issue, b: BankId) {
    SameRankAs(x, b) && x.cmd.addr.group == b.group && c.bankgroups != 1
  }

  predicate AutoPrecharges(kind: Kind) {
    kind.ReadPrecharge? || kind.WritePrecharge?
  }

  /** Two column commands: their bursts do not overlap, with a gap of tRTRS when the bus turns around after a read or
      another rank drives it after or before a read; within a rank they keep tCCD, and a read keeps tWTR from the end
      of a write's data. Of a command that closes its own bank nothing is asked here about that bank. */
  predicate ColumnRule(c: Config, x: Issue, b: BankId, kind: Kind, t: int) {
    x.cmd.kind.IsColumn() && kind.IsColumn() && !(AutoPrecharges(x.cmd.kind) && SameBankAs(x, b)) ==>
      var start, end := DataAt(c, kind, t), DataEnd(c, x.cmd.kind, x.clk);
      if x.cmd.kind.IsWrite() && kind.IsRead() && SameRankAs(x, b) then
        t >= end + if Near(c, x, b) then c.tWTR_L else c.tWTR_S
      else if x.cmd.kind.IsRead() != kind.IsRead() || (kind.IsRead() && !SameRankAs(x, b)) then
        start >= end + c.tRTRS
      else
        && start >= end
        && (SameRankAs(x, b) ==> t >= x.clk + if Near(c, x, b) then c.tCCD_L else c.tCCD_S)
  }

  /** A column command after the ACTIVATE of its bank. */
  predicate AccessRule(c: Config, x: Issue, b: BankId, kind: Kind, t: int) {
    x.cmd.kind.Activate? && kind.IsColumn() && SameBankAs(x, b) ==>
      t >= x.clk +
        if !c.IsGDDR() && !c.IsHBM() then c.tRCD - c.AL
        else if kind.IsRead() then c.tRCDRD
        else c.tRCDWR
  }

  /** PRECHARGE: tRAS after ACTIVATE, tRTP after READ, tWR after the data of WRITE; tPPD between banks of a rank. */
  predicate PrechargeRule(c: Config, x: Issue, b: BankId, t: int) {
    && (x.cmd.kind.Activate? && SameBankAs(x, b) ==> t >= x.clk + c.tRAS)
    && (x.cmd.kind.Read? && SameBankAs(x, b) ==> t >= x.clk + c.AL + c.tRTP)
    && (x.cmd.kind.Write? && SameBankAs(x, b) ==> t >= DataEnd(c, Write, x.clk) + c.tWR)
    && (x.cmd.kind.Precharge? && SameRankAs(x, b) && !SameBankAs(x, b) && (c.IsGDDR() || c.protocol.LPDDR4?) ==>
        t >= x.clk + c.tPPD)
  }

  /** When a bank that `x` closes, or lets close itself, is closed and idle for an ACTIVATE. */
  predicate ReopenRule(c: Config, x: Issue, b: BankId, t: int) {
    SameBankAs(x, b) ==>
      && (x.cmd.kind.Precharge? ==> t >= x.clk + c.tRP)
      && (x.cmd.kind.ReadPrecharge? ==> t >= x.clk + c.AL + c.burstCycle + c.tRTP + c.tRP)
      && (x.cmd.kind.WritePrecharge? ==> t >= DataEnd(c, Write, x.clk) + c.tWR + c.tRP)
  }

  /** ACTIVATE: tRC in its bank, tRRD in its rank, tRFC after a refresh of its rank or of another bank of it. */
  predicate ActivateRule(c: Config, x: Issue, b: BankId, t: int) {
    && ReopenRule(c, x, b, t)
    && (x.cmd.kind.Activate? && SameBankAs(x, b) ==> t >= x.clk + c.tRAS + c.tRP)
    && (x.cmd.kind.Activate? && SameRankAs(x, b) && !SameBankAs(x, b) ==>
        t >= x.clk + if Near(c, x, b) then c.tRRD_L else c.tRRD_S)
    && (x.cmd.kind.Refresh? && SameRankAs(x, b) ==> t >= x.clk + c.tRFC)
    && (x.cmd.kind.RefreshBank? && SameRankAs(x, b) && !SameBankAs(x, b) ==> t >= x.clk + c.tRFC)
  }

  /** A refresh of either kind finds its bank closed; a burst that precharges automatically is not waited for. */
  predicate RefreshRule(c: Config, x: Issue, b: BankId, kind: Kind, t: int) {
    && (SameBankAs(x, b) && x.cmd.kind.Precharge? ==> t >= x.clk + c.tRP)
    && (SameBankAs(x, b) && x.cmd.kind.ReadPrecharge? ==> t >= x.clk + c.AL + c.tRTP + c.tRP)
    && (SameBankAs(x, b) && x.cmd.kind.WritePrecharge? ==> t >= DataEnd(c, Write, x.clk) + c.tWR + c.tRP)
    && (kind.Refresh? && x.cmd.kind.Refresh? && SameRankAs(x, b) ==> t >= x.clk + c.tRFC)
    && (kind.RefreshBank? && SameRankAs(x, b) && !SameBankAs(x, b) ==>
        && (x.cmd.kind.Activate? ==> t >= x.clk + c.tRAS + c.tRP)
        && (x.cmd.kind.RefreshBank? ==> t >= x.clk + c.tREFI))
  }

  /** Everything that `x` asks of a command of this kind for bank `b` at time `t`. */
  predicate Respects(c: Config, x: Issue, b: BankId, kind: Kind, t: int) {
    && ColumnRule(c, x, b, kind, t) && AccessRule(c, x, b, kind, t)
    && (kind.Precharge? ==> PrechargeRule(c, x, b, t))
    && (kind.Activate? ==> ActivateRule(c, x, b, t))
    && (kind.IsRefresh() ==> RefreshRule(c, x, b, kind, t))
  }

  // ---- the tables enforce exactly the rules --------------------------------------------------------------------

  /** Time `t` is late enough for every line about `kind`. */
  ghost predicate Waits(ds: seq<Delay>, clk: int, kind: Kind, t: int) {
    forall d :: d in ds && d.kind == kind ==> clk + d.delay <= t
  }

  lemma WaitsAppend(a: seq<Delay>, b: seq<Delay>, clk: int, kind: Kind, t: int)
    ensures Waits(a + b, clk, kind, t) <==> Waits(a, clk, kind, t) && Waits(b, clk, kind, t)
  {
  }

  lemma WaitsOne(d: Delay, clk: int, kind: Kind, t: int)
    ensures Waits([d], clk, kind, t) <==> (d.kind == kind ==> clk + d.delay <= t)
  {
    assert d in [d];
  }

  lemma WaitsColumns(read: int, write: int, clk: int, kind: Kind, t: int)
    ensures Waits(Columns(read, write), clk, kind, t) <==>
      (kind.IsRead() ==> clk + read <= t) && (kind.IsWrite() ==> clk + write <= t)
  {
    var ds := Columns(read, write);
    assert ds[0] in ds && ds[1] in ds && ds[2] in ds && ds[3] in ds;
  }

  lemma WaitsReopen(activate: int, refresh: int, clk: int, kind: Kind, t: int)
    ensures Waits(Reopen(activate, refresh), clk, kind, t) <==>
      (kind.Activate? ==> clk + activate <= t) && (kind.IsRefresh() ==> clk + refresh <= t)
  {
    var ds := Reopen(activate, refresh);
    assert ds[0] in ds && ds[1] in ds && ds[2] in ds;
  }

  lemma WaitsPair(d: Delay, e: Delay, clk: int, kind: Kind, t: int)
    ensures Waits([d, e], clk, kind, t) <==>
      (d.kind == kind ==> clk + d.delay <= t) && (e.kind == kind ==> clk + e.delay <= t)
  {
    assert [d, e][0] in [d, e] && [d, e][1] in [d, e];
  }

  lemma SameBankRules(c: Config, x: Issue, b: BankId, kind: Kind, t: int)
    requires !x.cmd.kind.IsRank() && SameBankAs(x, b)
    ensures Waits(SameBank(c, x.cmd.kind), x.clk, kind, t) <==> Respects(c, x, b, kind, t)
  {
    hide Waits, Columns, Reopen;
    match x.cmd.kind
    case Read =>
      WaitsAppend(Columns(ReadToReadL(c), ReadToWrite(c)), [Delay(Precharge, ReadToPrecharge(c))], x.clk, kind, t);
      WaitsColumns(ReadToReadL(c), ReadToWrite(c), x.clk, kind, t);
      WaitsOne(Delay(Precharge, ReadToPrecharge(c)), x.clk, kind, t);
    case Write =>
      WaitsAppend(Columns(WriteToReadL(c), WriteToWriteL(c)), [Delay(Precharge, WriteToPrecharge(c))], x.clk, kind, t);
      WaitsColumns(WriteToReadL(c), WriteToWriteL(c), x.clk, kind, t);
      WaitsOne(Delay(Precharge, WriteToPrecharge(c)), x.clk, kind, t);
    case ReadPrecharge => WaitsReopen(ReadpToActivate(c), ReadToActivate(c), x.clk, kind, t);
    case WritePrecharge => WaitsReopen(WriteToActivate(c), WriteToActivate(c), x.clk, kind, t);
    case Activate =>
      var columns := Columns(ActivateToRead(c), ActivateToWrite(c));
      WaitsAppend([Delay(Activate, c.TRC())] + columns, [Delay(Precharge, c.tRAS)], x.clk, kind, t);
      WaitsAppend([Delay(Activate, c.TRC())], columns, x.clk, kind, t);
      WaitsOne(Delay(Activate, c.TRC()), x.clk, kind, t);
      WaitsColumns(ActivateToRead(c), ActivateToWrite(c), x.clk, kind, t);
      WaitsOne(Delay(Precharge, c.tRAS), x.clk, kind, t);
    case Precharge => WaitsReopen(c.tRP, c.tRP, x.clk, kind, t);
    case RefreshBank => assert Waits([], x.clk, kind, t) by { WaitsNothing(x.clk, kind, t); }
  }

  lemma WaitsNothing(clk: int, kind: Kind, t: int)
    ensures Waits([], clk, kind, t)
  {
  }

  lemma SameGroupRules(c: Config, x: Issue, b: BankId, kind: Kind, t: int)
    requires !x.cmd.kind.IsRank() && SameRankAs(x, b) && x.cmd.addr.group == b.group && !SameBankAs(x, b)
    ensures Waits(OtherBanksSameGroup(c, x.cmd.kind), x.clk, kind, t) <==> Respects(c, x, b, kind, t)
  {
    hide Waits, Columns;
    WaitsNothing(x.clk, kind, t);
    WaitsOne(Delay(Precharge, c.tPPD), x.clk, kind, t);
    WaitsColumns(ReadToReadL(c), ReadToWrite(c), x.clk, kind, t);
    WaitsColumns(WriteToReadL(c), WriteToWriteL(c), x.clk, kind, t);
    WaitsPair(Delay(Activate, SameGroupOr(c, c.tRRD_L, c.tRRD_S)), Delay(RefreshBank, c.TRC()), x.clk, kind, t);
    WaitsPair(Delay(Activate, c.tRFC), Delay(RefreshBank, c.tREFI), x.clk, kind, t);
  }

  lemma OtherGroupRules(c: Config, x: Issue, b: BankId, kind: Kind, t: int)
    requires !x.cmd.kind.IsRank() && SameRankAs(x, b) && x.cmd.addr.group != b.group
    ensures Waits(OtherGroupsSameRank(c, x.cmd.kind), x.clk, kind, t) <==> Respects(c, x, b, kind, t)
  {
    hide Waits, Columns;
    WaitsNothing(x.clk, kind, t);
    WaitsOne(Delay(Precharge, c.tPPD), x.clk, kind, t);
    WaitsColumns(ReadToReadS(c), ReadToWrite(c), x.clk, kind, t);
    WaitsColumns(WriteToReadS(c), WriteToWriteS(c), x.clk, kind, t);
    WaitsPair(Delay(Activate, c.tRRD_S), Delay(RefreshBank, c.TRC()), x.clk, kind, t);
    WaitsPair(Delay(Activate, c.tRFC), Delay(RefreshBank, c.tREFI), x.clk, kind, t);
  }

  lemma OtherRankRules(c: Config, x: Issue, b: BankId, kind: Kind, t: int)
    requires !x.cmd.kind.IsRank() && !SameRankAs(x, b)
    ensures Waits(OtherRanks(c, x.cmd.kind), x.clk, kind, t) <==> Respects(c, x, b, kind, t)
  {
    hide Waits, Columns;
    WaitsNothing(x.clk, kind, t);
    WaitsColumns(ReadToReadO(c), ReadToWriteO(c), x.clk, kind, t);
    WaitsColumns(WriteToReadO(c), c.burstCycle, x.clk, kind, t);
  }

  lemma RankRules(c: Config, x: Issue, b: BankId, kind: Kind, t: int)
    requires x.cmd.kind.IsRank() && c.HasBank(b)
    ensures Waits(if SameRankAs(x, b) then SameRank(c, Refresh) else [], x.clk, kind, t) <==> Respects(c, x, b, kind, t)
  {
    hide Waits;
    WaitsNothing(x.clk, kind, t);
    WaitsPair(Delay(Activate, c.tRFC), Delay(Refresh, c.tRFC), x.clk, kind, t);
  }

  /** For every issued command, bank and kind: waiting for the table is respecting the rules. */
  lemma TablesMeanRules(c: Config, x: Issue, b: BankId, kind: Kind, t: int)
    requires c.HasBank(b)
    ensures (forall d :: d in DelaysFor(c, x.cmd, b) && d.kind == kind ==> x.clk + d.delay <= t)
      <==> Respects(c, x, b, kind, t)
  {
    hide Respects, SameBank, OtherBanksSameGroup, OtherGroupsSameRank, OtherRanks, SameRank;
    assert Waits(DelaysFor(c, x.cmd, b), x.clk, kind, t) <==>
      (forall d :: d in DelaysFor(c, x.cmd, b) && d.kind == kind ==> x.clk + d.delay <= t);
    if x.cmd.kind.IsRank() {
      RankRules(c, x, b, kind, t);
    } else if !SameRankAs(x, b) {
      OtherRankRules(c, x, b, kind, t);
    } else if x.cmd.addr.group != b.group {
      OtherGroupRules(c, x, b, kind, t);
    } else if !SameBankAs(x, b) {
      SameGroupRules(c, x, b, kind, t);
    } else {
      SameBankRules(c, x, b, kind, t);
    }
  }

  /** The time kept in the bank's table has come if and only if no issued command has a rule against it. */
  lemma {:induction false} EarliestMeansRules(c: Config, log: Log, b: BankId, kind: Kind, t: int)
    requires c.HasBank(b)
    ensures Earliest(c, log, b, kind) <= t <==>
      0 <= t && forall i :: 0 <= i < |log| ==> Respects(c, log[i], b, kind, t)
  {
    hide Respects, DelaysFor;
    if log != [] {
      var pre, x := Front(log), Last(log);
      EarliestMeansRules(c, pre, b, kind, t);
      RaiseIsMax(Earliest(c, pre, b, kind), DelaysFor(c, x.cmd, b), x.clk, kind);
      TablesMeanRules(c, x, b, kind, t);
      assert forall i :: 0 <= i < |pre| ==> pre[i] == log[i];
    }
  }

  // ---- activation windows, exactly -------------------------------------------------------------------------------

  /** The last `limit` ACTIVATEs of the rank do not all lie within `span` cycles before `clk`. */
  ghost predicate WindowClear(log: Log, rank: int, span: int, limit: nat, clk: int) {
    var acts := ActivationTimes(log, rank);
    |acts| >= limit > 0 ==> acts[|acts| - limit] + span <= clk
  }

  lemma WindowMeans(c: Config, log: Log, rank: int, span: int, limit: nat, clk: int)
    requires Guarded(log, rank, span, limit) && limit > 0 && (log != [] ==> Last(log).clk < clk)
    ensures WindowOk(Window(log, rank, span), limit, clk) <==> WindowClear(log, rank, span, limit, clk)
  {
    hide Window, ActivationTimes, Guarded;
    WindowBound(log, rank, span, limit);
    if log == [] {
      NoActivations(rank, span);
    } else {
      var w, acts := Window(log, rank, span), ActivationTimes(log, rank);
      assert WindowTracks(w, acts, span, limit, Last(log).clk);
      if w != [] {
        assert w[0] == acts[|acts| - |w| + 0] + span;
      }
    }
  }

  lemma NoActivations(rank: int, span: int)
    ensures Window([], rank, span) == [] && ActivationTimes([], rank) == []
  {
  }

  // ---- what makes a command ready ---------------------------------------------------------------------------------

  /** No issued command has a rule against `kind` on bank `b` at time `t`. */
  ghost predicate Timely(c: Config, log: Log, b: BankId, kind: Kind, t: int) {
    forall i :: 0 <= i < |log| ==> Respects(c, log[i], b, kind, t)
  }

  /** A bank command is ready at once when what its bank needs next breaks no rule and, if that is an ACTIVATE, no
      activation window. */
  lemma ReadyMeansRules(c: Config, log: Log, cmd: Command, clk: int)
    requires Legal(c, log) && Askable(cmd.kind) && !cmd.kind.IsRank() && c.HasBank(cmd.Bank()) && clk >= 0
    requires log != [] ==> Last(log).clk < clk
    ensures var kind := Required(RowOf(log, cmd.Bank()), cmd);
      ReadyCommand(c, log, cmd, clk) ==
        if && Timely(c, log, cmd.Bank(), kind, clk)
           && (kind.Activate? ==> WindowClear(log, cmd.addr.rank, c.tFAW, 4, clk))
           && (kind.Activate? && c.IsGDDR() ==> WindowClear(log, cmd.addr.rank, c.t32AW, 32, clk))
        then Some(cmd.(kind := kind)) else None
  {
    hide Legal, RowOf, Earliest, Respects, Window, WindowOk, WindowClear;
    var kind := Required(RowOf(log, cmd.Bank()), cmd);
    EarliestMeansRules(c, log, cmd.Bank(), kind, clk);
    LegalIsGuarded(c, log, cmd.addr.rank);
    WindowMeans(c, log, cmd.addr.rank, c.tFAW, 4, clk);
    if c.IsGDDR() {
      WindowMeans(c, log, cmd.addr.rank, c.t32AW, 32, clk);
    }
  }

  /** A rank refresh is ready when every bank of the rank is closed and nothing has a rule against it. */
  lemma RefreshMeansRules(c: Config, log: Log, ref: Command, clk: int)
    requires ref.kind.Refresh? && 0 <= ref.addr.rank < c.ranks && clk >= 0
    ensures ReadyCommand(c, log, ref, clk) == Some(ref) <==>
      forall b :: c.HasBank(b) && b.rank == ref.addr.rank ==> !RowOf(log, b).Open? && Timely(c, log, b, Refresh, clk)
    ensures var r := ReadyCommand(c, log, ref, clk);
      (r.Some? && r != Some(ref)) <==>
        exists b :: c.HasBank(b) && b.rank == ref.addr.rank && RowOf(log, b).Open? && Timely(c, log, b, Precharge, clk)
  {
    hide RowOf, Earliest, Respects, Scan, Timely;
    ScanFinds(c, log, ref, clk, 0, 0);
    forall b | c.HasBank(b)
      ensures Earliest(c, log, b, Refresh) <= clk <==> Timely(c, log, b, Refresh, clk)
      ensures Earliest(c, log, b, Precharge) <= clk <==> Timely(c, log, b, Precharge, clk)
    {
      EarliestMeansTimely(c, log, b, Refresh, clk);
      EarliestMeansTimely(c, log, b, Precharge, clk);
    }
    if Scan(c, log, ref, clk, 0, 0).Some? {
      var b := Scan(c, log, ref, clk, 0, 0).value;
      assert Detour(c, log, b, ref, clk);
    }
  }

  lemma EarliestMeansTimely(c: Config, log: Log, b: BankId, kind: Kind, t: int)
    requires c.HasBank(b) && t >= 0
    ensures Earliest(c, log, b, kind) <= t <==> Timely(c, log, b, kind, t)
  {
    hide Earliest, Respects;
    EarliestMeansRules(c, log, b, kind, t);
  }

  // ---- any two commands of a legal history ------------------------------------------------------------------------

  lemma RulesKept(c: Config, log: Log, i: nat, j: nat, b: BankId)
    requires Legal(c, log) && i < j < |log| && c.HasBank(b) && log[j].cmd.Touches(b)
    ensures Respects(c, log[i], b, log[j].cmd.kind, log[j].clk)
  {
    hide Legal, RowOf, Respects, Earliest;
    LegalAt(c, log, j);
    EarliestMeansRules(c, log[..j], b, log[j].cmd.kind, log[j].clk);
    assert log[..j][i] == log[i];
  }
}

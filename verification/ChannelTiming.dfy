/** The timing of every run, in clocks and parameters: what lies between any two commands, and who has the data bus. */
module ChannelTiming {
  import opened DramTypes
  import opened DramConfig
  import opened History
  import opened HistoryTheorems
  import opened Scheduler
  import opened Turns
  import opened Ordering
  import opened Memory
  import opened Delivery
  import opened RowUse
  import opened Runs
  import opened ChannelTheorems
  import opened TimingRules

  /** Every command respects every earlier one, on every bank it acts on. */
  ghost predicate AllRespected(c: Config, log: Log) {
    forall i, j, b :: 0 <= i < j < |log| && c.HasBank(b) && log[j].cmd.Touches(b) ==>
      Respects(c, log[i], b, log[j].cmd.kind, log[j].clk)
  }

  lemma LegalRespects(c: Config, log: Log)
    requires Legal(c, log)
    ensures AllRespected(c, log)
  {
    hide Legal, Respects;
    forall i, j, b | 0 <= i < j < |log| && c.HasBank(b) && log[j].cmd.Touches(b)
      ensures Respects(c, log[i], b, log[j].cmd.kind, log[j].clk)
    {
      RulesKept(c, log, i, j, b);
    }
  }

  /** In every run all timing rules hold between any two commands. */
  lemma TimingKept(c: Config, es: seq<Event>)
    requires c.Valid()
    ensures AllRespected(c, After(c, es).log)
  {
    hide After, Good, Legal, AllRespected;
    HistoryIsLegal(c, es);
    LegalRespects(c, After(c, es).log);
  }

  // ---- the data bus -----------------------------------------------------------------------------------------------

  /** Cycles the bus rests between the bursts of two column commands. */
  function Turnaround(c: Config, x: Issue, y: Issue): int {
    if x.cmd.kind.IsRead() && y.cmd.kind.IsWrite() then c.tRTRS
    else if x.cmd.addr.rank != y.cmd.addr.rank && (x.cmd.kind.IsRead() || y.cmd.kind.IsRead()) then c.tRTRS
    else 0
  }

  /** Every burst ends, and the bus has turned around, before a later command's burst starts. */
  ghost predicate BusShared(c: Config, log: Log) {
    forall i, j :: 0 <= i < j < |log| && log[i].cmd.kind.IsColumn() && log[j].cmd.kind.IsColumn() ==>
      DataAt(c, log[i].cmd.kind, log[i].clk) + c.burstCycle + Turnaround(c, log[i], log[j])
        <= DataAt(c, log[j].cmd.kind, log[j].clk)
  }

  predicate NoNegatives(c: Config) {
    && c.AL >= 0 && c.CL >= 0 && c.CWL >= 0 && c.burstCycle >= 0 && c.tRTRS >= 0 && c.tWTR_L >= 0 && c.tWTR_S >= 0
    && c.tRTP >= 0 && c.tWR >= 0 && c.tRP >= 0 && c.tRCD >= 0 && c.tRCDRD >= 0 && c.tRCDWR >= 0
  }

  /** Cycles from an ACTIVATE to a write, and from a read that closes its bank to the next ACTIVATE. */
  function OpenToWrite(c: Config): int {
    Max(1, if c.IsGDDR() || c.IsHBM() then c.tRCDWR else c.tRCD - c.AL)
  }

  function ReadToOpen(c: Config): int {
    Max(1, c.AL + c.burstCycle + c.tRTP + c.tRP)
  }

  /** With closed pages a bank that was read and is written next must not be reopened too fast for the bus. */
  predicate ReopensSlowly(c: Config) {
    c.CL + c.burstCycle + c.tRTRS <= ReadToOpen(c) + OpenToWrite(c) + c.CWL
  }

  /** Two column commands between which the bank of the first is not closed by that command itself. */
  lemma DirectBursts(c: Config, x: Issue, y: Issue)
    requires x.cmd.kind.IsColumn() && y.cmd.kind.IsColumn() && NoNegatives(c)
    requires !(AutoPrecharges(x.cmd.kind) && x.cmd.Bank() == y.cmd.Bank())
    requires Respects(c, x, y.cmd.Bank(), y.cmd.kind, y.clk)
    ensures DataAt(c, x.cmd.kind, x.clk) + c.burstCycle + Turnaround(c, x, y) <= DataAt(c, y.cmd.kind, y.clk)
  {
  }

  /** With an ACTIVATE in between. */
  lemma ReopenedBursts(c: Config, x: Issue, a: Issue, y: Issue)
    requires AutoPrecharges(x.cmd.kind) && a.cmd.kind.Activate? && y.cmd.kind.IsColumn()
    requires x.cmd.Bank() == a.cmd.Bank() == y.cmd.Bank() && NoNegatives(c) && ReopensSlowly(c)
    requires Respects(c, x, a.cmd.Bank(), Activate, a.clk) && Respects(c, a, y.cmd.Bank(), y.cmd.kind, y.clk)
    requires x.clk < a.clk < y.clk
    ensures DataAt(c, x.cmd.kind, x.clk) + c.burstCycle + Turnaround(c, x, y) <= DataAt(c, y.cmd.kind, y.clk)
  {
    assert y.cmd.addr.rank == x.cmd.addr.rank;
  }

  /** After a command that closes its own bank, the bank is activated before its next column command. */
  lemma ReopenedBetween(c: Config, log: Log, i: nat, j: nat) returns (k: nat)
    requires Legal(c, log) && i < j < |log| && AutoPrecharges(log[i].cmd.kind) && log[j].cmd.kind.IsColumn()
    requires log[i].cmd.Bank() == log[j].cmd.Bank()
    ensures i < k < j && Activates(log[k], log[j].cmd.Bank())
  {
    hide Legal;
    ColumnInRowRun(c, log, j);
    assert log[..j][i] == log[i];
    k :| OpenSince(log[..j], log[j].cmd.Bank(), log[j].cmd.addr.row, k);
  }

  lemma BurstsApart(c: Config, log: Log, i: nat, j: nat)
    requires Legal(c, log) && i < j < |log| && log[i].cmd.kind.IsColumn() && log[j].cmd.kind.IsColumn()
    requires NoNegatives(c) && (AutoPrecharges(log[i].cmd.kind) ==> ReopensSlowly(c))
    ensures DataAt(c, log[i].cmd.kind, log[i].clk) + c.burstCycle + Turnaround(c, log[i], log[j])
      <= DataAt(c, log[j].cmd.kind, log[j].clk)
  {
    hide Legal, Respects, RowOf, Earliest;
    LegalAt(c, log, j);
    var b := log[j].cmd.Bank();
    if AutoPrecharges(log[i].cmd.kind) && log[i].cmd.Bank() == b {
      var k := ReopenedBetween(c, log, i, j);
      RulesKept(c, log, i, k, b);
      RulesKept(c, log, k, j, b);
      ClocksIncrease(c, log, i, k);
      ClocksIncrease(c, log, k, j);
      ReopenedBursts(c, log[i], log[k], log[j]);
    } else {
      RulesKept(c, log, i, j, b);
      DirectBursts(c, log[i], log[j]);
    }
  }

  lemma LegalSharesBus(c: Config, log: Log)
    requires Legal(c, log) && NoNegatives(c) && PolicyKept(c, log) && (c.closePage ==> ReopensSlowly(c))
    ensures BusShared(c, log)
  {
    hide Legal;
    forall i, j | 0 <= i < j < |log| && log[i].cmd.kind.IsColumn() && log[j].cmd.kind.IsColumn()
      ensures DataAt(c, log[i].cmd.kind, log[i].clk) + c.burstCycle + Turnaround(c, log[i], log[j])
        <= DataAt(c, log[j].cmd.kind, log[j].clk)
    {
      BurstsApart(c, log, i, j);
    }
  }

  /** In every run the bursts on the data bus are apart: always with open pages, with closed ones as soon as a bank
      reopens slowly enough. */
  lemma BusIsShared(c: Config, es: seq<Event>)
    requires c.Valid() && NoNegatives(c) && (c.closePage ==> ReopensSlowly(c))
    ensures BusShared(c, After(c, es).log)
  {
    hide After, Core, Ordered, Faithful, Conserved, Punctual, RowsWanted, InSync, Legal, PolicyKept, BusShared;
    HistoryIsLegal(c, es);
    LegalSharesBus(c, After(c, es).log);
  }

  // ---- closed pages: the condition is exact -----------------------------------------------------------------------

  /** A command for the first bank. */
  function Cmd(kind: Kind): Command {
    Command(kind, Address(0, 0, 0, 0, 0, 0), 0)
  }

  const FIRST: BankId := BankId(0, 0, 0)

  lemma AdmitsBank(c: Config, log: Log, x: Issue)
    requires c.Valid() && Legal(c, log) && x.cmd == Cmd(x.cmd.kind) && !x.cmd.kind.IsRank() && x.clk >= 0
    requires (log != [] ==> Last(log).clk < x.clk) && Timely(c, log, FIRST, x.cmd.kind, x.clk)
    requires Advance(RowOf(log, FIRST), x.cmd).Some?
    requires x.cmd.kind.IsColumn() ==> RowOf(log, FIRST).Open? && RowOf(log, FIRST).row == 0
    requires x.cmd.kind.Activate? ==> |ActivationTimes(log, 0)| < 4
    ensures Legal(c, log + [x])
  {
    hide RowOf, Earliest, Respects, ActivationTimes, Legal, Window;
    EarliestMeansTimely(c, log, FIRST, x.cmd.kind, x.clk);
    if x.cmd.kind.Activate? {
      LegalIsGuarded(c, log, 0);
      WindowMeans(c, log, 0, c.tFAW, 4, x.clk);
      if c.IsGDDR() {
        WindowMeans(c, log, 0, c.t32AW, 32, x.clk);
      }
    }
    LegalSnoc(c, log, x);
  }

  lemma TimelySnoc(c: Config, log: Log, x: Issue, kind: Kind, t: int)
    requires Timely(c, log, FIRST, kind, t) && Respects(c, x, FIRST, kind, t)
    ensures Timely(c, log + [x], FIRST, kind, t)
  {
    hide Respects;
  }

  lemma ActivationsSnoc(log: Log, x: Issue)
    ensures |ActivationTimes(log + [x], 0)| <= |ActivationTimes(log, 0)| + 1
  {
    assert Front(log + [x]) == log;
  }

  /** The first bank is read and closes itself, is reopened as soon as it may be, and is written as soon as it may
      be. */
  function ReadThenWrite(c: Config): seq<Issue> {
    var t1 := 1 + Max(0, c.tRCD) + Max(0, c.tRCDRD) + Max(0, c.tRAS + c.tRP);
    var t2 := t1 + ReadToOpen(c);
    [Issue(0, Cmd(Activate)), Issue(t1, Cmd(ReadPrecharge)), Issue(t2, Cmd(Activate)),
     Issue(t2 + OpenToWrite(c), Cmd(WritePrecharge))]
  }

  lemma ReadThenWriteIsLegal(c: Config)
    requires c.Valid() && NoNegatives(c)
    ensures Legal(c, ReadThenWrite(c))
  {
    hide Legal, RowOf, Timely, Respects, ActivationTimes, Advance;
    var log := ReadThenWrite(c);
    var l0: Log := [];
    var l1, l2, l3 := l0 + [log[0]], l0 + [log[0]] + [log[1]], l0 + [log[0]] + [log[1]] + [log[2]];
    NothingIssued(c);
    RowsOfRace(c, log);
    ActivationsSnoc(l0, log[0]);
    ActivationsSnoc(l1, log[1]);
    RaceRules(c, log);
    AdmitsBank(c, l0, log[0]);
    TimelySnoc(c, l0, log[0], ReadPrecharge, log[1].clk);
    AdmitsBank(c, l1, log[1]);
    TimelySnoc(c, l0, log[0], Activate, log[2].clk);
    TimelySnoc(c, l1, log[1], Activate, log[2].clk);
    AdmitsBank(c, l2, log[2]);
    TimelySnoc(c, l0, log[0], WritePrecharge, log[3].clk);
    TimelySnoc(c, l1, log[1], WritePrecharge, log[3].clk);
    TimelySnoc(c, l2, log[2], WritePrecharge, log[3].clk);
    AdmitsBank(c, l3, log[3]);
    assert l3 + [log[3]] == log;
  }

  lemma NothingIssued(c: Config)
    ensures Legal(c, []) && RowOf([], FIRST) == Closed && ActivationTimes([], 0) == []
    ensures forall kind, t :: Timely(c, [], FIRST, kind, t)
  {
  }

  lemma RowsOfRace(c: Config, log: Log)
    requires log == ReadThenWrite(c)
    ensures var l0: Log := [];
      var l1, l2, l3 := l0 + [log[0]], l0 + [log[0]] + [log[1]], l0 + [log[0]] + [log[1]] + [log[2]];
      && RowOf(l1, FIRST) == Open(0, 0) && RowOf(l2, FIRST) == Closed && RowOf(l3, FIRST) == Open(0, 0)
      && Advance(Closed, Cmd(Activate)).Some? && Advance(Open(0, 0), Cmd(ReadPrecharge)).Some?
      && Advance(Open(0, 0), Cmd(WritePrecharge)).Some?
  {
    var l0: Log := [];
    RowOfAppend(l0, log[0], FIRST);
    RowOfAppend(l0 + [log[0]], log[1], FIRST);
    RowOfAppend(l0 + [log[0]] + [log[1]], log[2], FIRST);
  }

  lemma RaceRules(c: Config, log: Log)
    requires log == ReadThenWrite(c) && NoNegatives(c)
    ensures Respects(c, log[0], FIRST, ReadPrecharge, log[1].clk) && Respects(c, log[0], FIRST, Activate, log[2].clk)
    ensures Respects(c, log[1], FIRST, Activate, log[2].clk) && Respects(c, log[0], FIRST, WritePrecharge, log[3].clk)
    ensures Respects(c, log[1], FIRST, WritePrecharge, log[3].clk)
    ensures Respects(c, log[2], FIRST, WritePrecharge, log[3].clk)
  {
    hide Respects;
    var t1, t2, t3 := log[1].clk, log[2].clk, log[3].clk;
    AccessAfterOpen(c, 0, ReadPrecharge, t1);
    OpenAfterOpen(c, 0, t2);
    OpenAfterRead(c, t1, t2);
    AccessAfterOpen(c, 0, WritePrecharge, t3);
    WriteAfterRead(c, t1, t3);
    AccessAfterOpen(c, t2, WritePrecharge, t3);
  }

  lemma AccessAfterOpen(c: Config, t: int, kind: Kind, u: int)
    requires kind.IsColumn()
    requires u >= t + if !c.IsGDDR() && !c.IsHBM() then c.tRCD - c.AL else if kind.IsRead() then c.tRCDRD else c.tRCDWR
    ensures Respects(c, Issue(t, Cmd(Activate)), FIRST, kind, u)
  {
  }

  lemma OpenAfterOpen(c: Config, t: int, u: int)
    requires u >= t + c.tRAS + c.tRP
    ensures Respects(c, Issue(t, Cmd(Activate)), FIRST, Activate, u)
  {
  }

  lemma OpenAfterRead(c: Config, t: int, u: int)
    requires u >= t + c.AL + c.burstCycle + c.tRTP + c.tRP
    ensures Respects(c, Issue(t, Cmd(ReadPrecharge)), FIRST, Activate, u)
  {
  }

  lemma WriteAfterRead(c: Config, t: int, u: int)
    ensures Respects(c, Issue(t, Cmd(ReadPrecharge)), FIRST, WritePrecharge, u)
  {
  }

  /** With closed pages the rules keep the bursts apart in every history if and only if a bank reopens slowly enough. */
  lemma SharedExactly(c: Config)
    requires c.Valid() && NoNegatives(c) && c.closePage
    ensures (forall log :: Legal(c, log) && PolicyKept(c, log) ==> BusShared(c, log)) <==> ReopensSlowly(c)
  {
    hide Legal;
    if ReopensSlowly(c) {
      forall log | Legal(c, log) && PolicyKept(c, log) ensures BusShared(c, log) {
        LegalSharesBus(c, log);
      }
    } else {
      var log := ReadThenWrite(c);
      ReadThenWriteIsLegal(c);
      assert PolicyKept(c, log);
      assert log[1].cmd.kind.IsColumn() && log[3].cmd.kind.IsColumn();
      assert !BusShared(c, log);
    }
  }
}

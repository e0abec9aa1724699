/** Properties of every legal command history: the shape of each bank's trace, the hidden
    ACTIVATE-to-REFRESH distance and the activation windows. */
module HistoryTheorems {
  import opened DramTypes
  import opened DramConfig
  import opened History

  // ---- bank traces --------------------------------------------------------------------------

  predicate Activates(x: Issue, b: BankId) {
    x.cmd.kind.Activate? && x.cmd.Bank() == b
  }

  predicate ClosesBank(x: Issue, b: BankId) {
    x.cmd.kind.Closes() && x.cmd.Bank() == b
  }

  /** A column access that leaves its row open. */
  predicate Accesses(x: Issue, b: BankId, row: int) {
    (x.cmd.kind.Read? || x.cmd.kind.Write?) && x.cmd.Bank() == b && x.cmd.addr.row == row
  }

  /** Bank `b` was opened on `row` by entry `i` and only that row was accessed since. */
  ghost predicate OpenSince(log: Log, b: BankId, row: int, i: nat) {
    && i < |log|
    && Activates(log[i], b) && log[i].cmd.addr.row == row
    && forall k :: i < k < |log| && log[k].cmd.Touches(b) ==> Accesses(log[k], b, row)
  }

  /** Whoever activated bank `b` is followed by a command that closes it. */
  ghost predicate ClosedSince(log: Log, b: BankId) {
    forall i :: 0 <= i < |log| && Activates(log[i], b) ==>
      exists k :: i < k < |log| && ClosesBank(log[k], b)
  }

  lemma {:induction false} TraceShape(c: Config, log: Log, b: BankId)
    requires Legal(c, log) && c.HasBank(b)
    ensures RowOf(log, b).Open? ==> exists i :: OpenSince(log, b, RowOf(log, b).row, i)
    ensures !RowOf(log, b).Open? ==> ClosedSince(log, b)
  {
    hide Earliest, ActivationWindowOk;
    if log != [] {
      TraceShape(c, Front(log), b);
      assert log == Front(log) + [Last(log)];
      TraceStep(c, Front(log), Last(log), b);
    }
  }

  lemma TraceStep(c: Config, log: Log, x: Issue, b: BankId)
    requires Admits(c, log, x) && c.HasBank(b)
    requires RowOf(log, b).Open? ==> exists i :: OpenSince(log, b, RowOf(log, b).row, i)
    requires !RowOf(log, b).Open? ==> ClosedSince(log, b)
    ensures RowAfter(RowOf(log, b), x, b).Open? ==>
      exists i :: OpenSince(log + [x], b, RowAfter(RowOf(log, b), x, b).row, i)
    ensures !RowAfter(RowOf(log, b), x, b).Open? ==> ClosedSince(log + [x], b)
  {
    hide Earliest, ActivationWindowOk, RowOf;
    var log' := log + [x];
    if RowAfter(RowOf(log, b), x, b).Open? {
      if Activates(x, b) {
        assert OpenSince(log', b, x.cmd.addr.row, |log|);
      } else {
        var i :| OpenSince(log, b, RowOf(log, b).row, i);
        assert OpenSince(log', b, RowOf(log, b).row, i);
      }
    } else {
      forall i | 0 <= i < |log'| && Activates(log'[i], b)
        ensures exists k :: i < k < |log'| && ClosesBank(log'[k], b)
      {
        if ClosesBank(x, b) {
          assert ClosesBank(log'[|log|], b);
        } else {
          assert Activates(log[i], b);
          var k :| i < k < |log| && ClosesBank(log[k], b);
          assert ClosesBank(log'[k], b);
        }
      }
    }
  }

  /** Every column access sits in a run (ACTIVATE row, accesses of exactly that row). */
  lemma ColumnInRowRun(c: Config, log: Log, j: nat)
    requires Legal(c, log) && j < |log| && log[j].cmd.kind.IsColumn()
    ensures exists i :: OpenSince(log[..j], log[j].cmd.Bank(), log[j].cmd.addr.row, i)
  {
    LegalAt(c, log, j);
    LegalPrefix(c, log, j);
    TraceShape(c, log[..j], log[j].cmd.Bank());
  }

  /** ACTIVATE and both refreshes come only while the bank is closed: between an earlier ACTIVATE of a
      bank they act on and themselves, that bank was closed. */
  lemma ClosedBetween(c: Config, log: Log, i: nat, j: nat, b: BankId) returns (k: nat)
    requires Legal(c, log) && i < j < |log| && c.HasBank(b)
    requires Activates(log[i], b)
    requires log[j].cmd.Touches(b) && (log[j].cmd.kind.Activate? || log[j].cmd.kind.IsRefresh())
    ensures i < k < j && ClosesBank(log[k], b)
  {
    hide Earliest, ActivationWindowOk, RowOf;
    LegalAt(c, log, j);
    LegalPrefix(c, log, j);
    TraceShape(c, log[..j], b);
    assert log[..j][i] == log[i];
    k :| i < k < j && ClosesBank(log[..j][k], b);
  }

  /** ACTIVATE to the command that closes the row, and from there to a refresh. */
  function OpenGap(c: Config, close: Kind): int {
    match close
    case ReadPrecharge => ActivateToRead(c)
    case WritePrecharge => ActivateToWrite(c)
    case _ => c.tRAS
  }

  function ShutGap(c: Config, close: Kind): int {
    match close
    case ReadPrecharge => ReadToActivate(c)
    case WritePrecharge => WriteToActivate(c)
    case _ => c.tRP
  }

  lemma TableLines(c: Config, close: Kind, ref: Kind)
    requires close.Closes() && ref.IsRefresh()
    ensures Delay(close, OpenGap(c, close)) in SameBank(c, Activate)
    ensures Delay(ref, ShutGap(c, close)) in SameBank(c, close)
  {
    var ds := SameBank(c, Activate);
    assert ds[3].kind == ReadPrecharge && ds[4].kind == WritePrecharge && ds[5].kind == Precharge;
    assert ds[3] in ds && ds[4] in ds && ds[5] in ds;
    var es := SameBank(c, close);
    assert es[1].kind == Refresh && es[2].kind == RefreshBank;
    assert es[1] in es && es[2] in es;
  }

  /** No table has a line from ACTIVATE to REFRESH of the same bank; the distance follows from how the
      row gets closed in between. */
  lemma ActivateToRefresh(c: Config, log: Log, i: nat, j: nat, b: BankId) returns (k: nat)
    requires Legal(c, log) && i < j < |log| && c.HasBank(b)
    requires Activates(log[i], b) && log[j].cmd.Touches(b) && log[j].cmd.kind.IsRefresh()
    ensures i < k < j && ClosesBank(log[k], b)
    ensures log[j].clk - log[i].clk >= OpenGap(c, log[k].cmd.kind) + ShutGap(c, log[k].cmd.kind)
  {
    hide Earliest, ActivationWindowOk, RowOf, Legal;
    k := ClosedBetween(c, log, i, j, b);
    var close, ref := log[k].cmd.kind, log[j].cmd.kind;
    TableLines(c, close, ref);
    PairwiseSpacing(c, log, i, k, b, Delay(close, OpenGap(c, close)));
    PairwiseSpacing(c, log, k, j, b, Delay(ref, ShutGap(c, close)));
  }

  /** With open pages, where nothing precharges automatically, that distance is tRAS + tRP = tRC. */
  lemma OpenPageActivateToRefresh(c: Config, log: Log, i: nat, j: nat, b: BankId)
    requires Legal(c, log) && i < j < |log| && c.HasBank(b)
    requires Activates(log[i], b) && log[j].cmd.Touches(b) && log[j].cmd.kind.IsRefresh()
    requires forall k :: 0 <= k < |log| ==> !log[k].cmd.kind.ReadPrecharge? && !log[k].cmd.kind.WritePrecharge?
    ensures log[j].clk - log[i].clk >= c.TRC()
  {
    hide Legal;
    var k := ActivateToRefresh(c, log, i, j, b);
  }

  // ---- activation windows -------------------------------------------------------------------

  /** Times of the ACTIVATEs of a rank, oldest first. */
  function ActivationTimes(log: Log, rank: int): seq<int> {
    if log == [] then []
    else ActivationTimes(Front(log), rank) + if IsActivateOf(Last(log), rank) then [Last(log).clk] else []
  }

  /** The window holds the most recent activations; those dropped are at least `span` old. */
  ghost predicate WindowTracks(w: seq<int>, acts: seq<int>, span: int, limit: nat, now: int) {
    var n := |acts| - |w|;
    && 0 <= n && |w| <= limit
    && (forall i :: 0 <= i < |w| ==> w[i] == acts[n + i] + span)
    && (forall i :: 0 <= i < n ==> acts[i] + span <= now)
  }

  lemma WindowStep(w: seq<int>, acts: seq<int>, span: int, limit: nat, now: int, clk: int)
    requires WindowTracks(w, acts, span, limit, now) && now <= clk && limit > 0
    requires WindowOk(w, limit, clk)
    ensures WindowTracks(WindowAfter(w, clk, span), acts + [clk], span, limit, clk)
    ensures |acts| >= limit ==> acts[|acts| - limit] + span <= clk
  {
    var n := |acts| - |w|;
    if w != [] {
      assert w[0] == acts[n + 0] + span;
    }
  }

  /** Every ACTIVATE so far passed the test of this window. */
  ghost predicate Guarded(log: Log, rank: int, span: int, limit: nat) {
    log == [] || (
      && Guarded(Front(log), rank, span, limit)
      && (Front(log) != [] ==> Last(Front(log)).clk < Last(log).clk)
      && (IsActivateOf(Last(log), rank) ==> WindowOk(Window(Front(log), rank, span), limit, Last(log).clk)))
  }

  /** The window never exceeds its limit although only one expired entry is dropped per activation,
      and activations `limit` apart are at least `span` cycles apart. */
  lemma {:induction false} WindowBound(log: Log, rank: int, span: int, limit: nat)
    requires Guarded(log, rank, span, limit) && limit > 0
    ensures log != [] ==> WindowTracks(Window(log, rank, span), ActivationTimes(log, rank), span, limit, Last(log).clk)
    ensures |Window(log, rank, span)| <= limit
    ensures forall k :: 0 <= k && k + limit < |ActivationTimes(log, rank)| ==>
      ActivationTimes(log, rank)[k] + span <= ActivationTimes(log, rank)[k + limit]
  {
    if log != [] {
      var pre, x := Front(log), Last(log);
      WindowBound(pre, rank, span, limit);
      var now := if pre == [] then x.clk else Last(pre).clk;
      assert WindowTracks(Window(pre, rank, span), ActivationTimes(pre, rank), span, limit, now);
      if IsActivateOf(x, rank) {
        WindowStep(Window(pre, rank, span), ActivationTimes(pre, rank), span, limit, now, x.clk);
      }
    }
  }

  lemma {:induction false} LegalIsGuarded(c: Config, log: Log, rank: int)
    requires Legal(c, log)
    ensures Guarded(log, rank, c.tFAW, 4)
    ensures c.IsGDDR() ==> Guarded(log, rank, c.t32AW, 32)
  {
    hide Earliest, RowOf, Window;
    if log != [] {
      LegalIsGuarded(c, Front(log), rank);
    }
  }

  /** tFAW and t32AW over every legal history. */
  lemma ActivationWindows(c: Config, log: Log, rank: int, k: nat)
    requires Legal(c, log)
    ensures |Window(log, rank, c.tFAW)| <= 4
    ensures k + 4 < |ActivationTimes(log, rank)| ==>
      ActivationTimes(log, rank)[k + 4] - ActivationTimes(log, rank)[k] >= c.tFAW
    ensures c.IsGDDR() ==> |Window(log, rank, c.t32AW)| <= 32
    ensures c.IsGDDR() && k + 32 < |ActivationTimes(log, rank)| ==>
      ActivationTimes(log, rank)[k + 32] - ActivationTimes(log, rank)[k] >= c.t32AW
  {
    hide Legal, Window, ActivationTimes;
    LegalIsGuarded(c, log, rank);
    WindowBound(log, rank, c.tFAW, 4);
    if c.IsGDDR() {
      WindowBound(log, rank, c.t32AW, 32);
    }
  }
}

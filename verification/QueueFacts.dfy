/** What the selection of a command finds in the queues, and the bags of waiting work. */
module QueueFacts {
  import opened DramTypes
  import opened Division
  import opened BitFields
  import opened DramConfig
  import opened History
  import opened Scheduler

  // ---- queue numbering ----------------------------------------------------------------------

  lemma OffsetInRank(c: Config, b: BankId)
    requires c.Valid() && c.HasBank(b)
    ensures c.Banks() > 0
    ensures 0 <= b.group * c.banksPerGroup + b.bank < c.Banks()
  {
    MulMonotone(0, b.group, c.banksPerGroup);
    MulMonotone(b.group + 1, c.bankgroups, c.banksPerGroup);
  }

  lemma QueueIndexInRange(c: Config, b: BankId)
    requires c.Valid() && c.HasBank(b)
    ensures 0 <= QueueIndex(c, b) < NumQueues(c)
  {
    if c.queueStructure.PerBank? {
      OffsetInRank(c, b);
      MulMonotone(0, b.rank, c.Banks());
      MulMonotone(b.rank + 1, c.ranks, c.Banks());
    }
  }

  /** A queue is set aside for a rank refresh exactly when its banks belong to the rank. */
  lemma RefQueuesOfRank(c: Config, ref: Command, b: BankId)
    requires c.Valid() && c.HasBank(b) && ref.kind.Refresh?
    ensures QueueIndex(c, b) in RefQueues(c, ref) <==> b.rank == ref.addr.rank
  {
    if c.queueStructure.PerBank? {
      QueueIndexInRange(c, b);
      OffsetInRank(c, b);
      DivideUnique(QueueIndex(c, b), c.Banks(), b.rank);
    }
  }

  /** For a bank refresh it is set aside exactly when it is the queue of that bank, or of its rank. */
  lemma RefQueuesOfBank(c: Config, ref: Command, b: BankId)
    requires c.Valid() && c.HasBank(b) && c.HasBank(ref.Bank()) && ref.kind.RefreshBank?
    ensures QueueIndex(c, b) in RefQueues(c, ref) <==>
      if c.queueStructure.PerBank? then b == ref.Bank() else b.rank == ref.addr.rank
  {
    if c.queueStructure.PerBank? && QueueIndex(c, b) == QueueIndex(c, ref.Bank()) {
      SameQueueSameBank(c, b, ref.Bank());
    }
  }

  lemma SameQueueSameBank(c: Config, a: BankId, b: BankId)
    requires c.Valid() && c.HasBank(a) && c.HasBank(b) && c.queueStructure.PerBank?
    requires QueueIndex(c, a) == QueueIndex(c, b)
    ensures a == b
  {
    OffsetInRank(c, a);
    OffsetInRank(c, b);
    DivideUnique(QueueIndex(c, a), c.Banks(), a.rank);
    DivideUnique(QueueIndex(c, b), c.Banks(), b.rank);
    DivideUnique(a.group * c.banksPerGroup + a.bank, c.banksPerGroup, a.group);
    DivideUnique(b.group * c.banksPerGroup + b.bank, c.banksPerGroup, b.group);
  }

  lemma DecodedBank(c: Config, addr: nat, isWrite: bool)
    requires c.Valid()
    ensures c.HasBank(CommandFor(c, addr, isWrite).Bank())
  {
    hide Low, Shr, Pow2;
    var l := c.layout;
    assert Slice(Shr(addr, l.shift), l.ra.pos, l.ra.width) < Pow2(l.ra.width);
    assert Slice(Shr(addr, l.shift), l.bg.pos, l.bg.width) < Pow2(l.bg.width);
    assert Slice(Shr(addr, l.shift), l.ba.pos, l.ba.width) < Pow2(l.ba.width);
  }

  // ---- well-formed queues ---------------------------------------------------------------------

  /** A column command that some transaction turned into. */
  ghost predicate CmdOk(c: Config, cmd: Command) {
    cmd.hex >= 0 && cmd == CommandFor(c, cmd.hex, cmd.kind.IsWrite())
  }

  /** Every command sits in the queue its bank maps to. */
  ghost predicate Placed(c: Config, queues: seq<seq<Command>>) {
    && |queues| == NumQueues(c)
    && forall q, i :: 0 <= q < |queues| && 0 <= i < |queues[q]| ==>
      CmdOk(c, queues[q][i]) && QueueIndex(c, queues[q][i].Bank()) == q
  }

  ghost predicate CqOk(c: Config, cq: QueueState) {
    Placed(c, cq.queues) && 0 <= cq.idx < NumQueues(c)
  }

  lemma CqOkSteps(c: Config, cq: QueueState)
    requires CqOk(c, cq)
    ensures QueuesOk(c, cq)
  {
    forall q | 0 <= q < |cq.queues| ensures AllAskable(cq.queues[q]) {
      forall i | 0 <= i < |cq.queues[q]| ensures Askable(cq.queues[q][i].kind) {
        assert CmdOk(c, cq.queues[q][i]);
      }
    }
  }

  lemma {:induction false} FirstReadyFinds(c: Config, log: Log, clk: int, q: seq<Command>, i: nat)
    requires i <= |q| && AllAskable(q)
    ensures var r := FirstReady(c, log, clk, q, i);
      r.Some? ==> exists j :: 0 <= j < |q| && Candidate(c, log, clk, q, j) == r
    decreases |q| - i
  {
    hide Candidate;
    if i < |q| && Candidate(c, log, clk, q, i).None? {
      FirstReadyFinds(c, log, clk, q, i + 1);
    }
  }

  /** A chosen command comes from an entry of a queue that is not set aside for refresh. */
  lemma {:induction false} ChooseFinds(c: Config, log: Log, cq: QueueState, n: nat)
    requires QueuesOk(c, cq)
    ensures var (r, idx) := Choose(c, log, cq, n);
      0 <= idx < NumQueues(c)
    ensures var (r, idx) := Choose(c, log, cq, n);
      r.Some? && cq.inRef ==> idx !in cq.refIdx
    ensures var (r, idx) := Choose(c, log, cq, n);
      r.Some? ==> exists j :: 0 <= j < |cq.queues[idx]| && Candidate(c, log, cq.clk, cq.queues[idx], j) == r
    decreases n
  {
    hide Candidate, FirstReady;
    if n > 0 {
      var idx := NextIdx(c, cq.idx);
      FirstReadyFinds(c, log, cq.clk, cq.queues[idx], 0);
      ChooseFinds(c, log, cq.(idx := idx), n - 1);
    }
  }

  // ---- whose turn it is --------------------------------------------------------------------------

  /** No entry of the queue can issue anything. */
  ghost predicate Barren(c: Config, log: Log, clk: int, q: seq<Command>)
    requires AllAskable(q)
  {
    forall j :: 0 <= j < |q| ==> Candidate(c, log, clk, q, j).None?
  }

  /** Entry `j` can issue `cmd`, and no entry before it can issue anything. */
  ghost predicate FirstCandidate(c: Config, log: Log, clk: int, q: seq<Command>, j: nat, cmd: Command)
    requires AllAskable(q)
  {
    && j < |q| && Candidate(c, log, clk, q, j) == Some(cmd)
    && forall i :: 0 <= i < j ==> Candidate(c, log, clk, q, i).None?
  }

  lemma {:induction false} FirstReadyIsFirst(c: Config, log: Log, clk: int, q: seq<Command>, i: nat)
    requires i <= |q| && AllAskable(q) && forall j :: 0 <= j < i ==> Candidate(c, log, clk, q, j).None?
    ensures var r := FirstReady(c, log, clk, q, i);
      if r.None? then Barren(c, log, clk, q) else exists j: nat :: FirstCandidate(c, log, clk, q, j, r.value)
    decreases |q| - i
  {
    hide Candidate;
    if i < |q| {
      if Candidate(c, log, clk, q, i).None? {
        FirstReadyIsFirst(c, log, clk, q, i + 1);
      } else {
        assert FirstCandidate(c, log, clk, q, i, Candidate(c, log, clk, q, i).value);
      }
    }
  }

  /** The queue `n` places on. */
  function Ahead(c: Config, idx: int, n: nat): (q: int)
    requires NumQueues(c) > 0
    ensures 0 <= q < NumQueues(c)
  {
    (idx + n) % NumQueues(c)
  }

  predicate SetAside(cq: QueueState, q: int) {
    cq.inRef && q in cq.refIdx
  }

  /** The queue `n` places on has nothing to issue, or must not. */
  ghost predicate Passed(c: Config, log: Log, cq: QueueState, n: nat)
    requires QueuesOk(c, cq)
  {
    var q := Ahead(c, cq.idx, n);
    SetAside(cq, q) || Barren(c, log, cq.clk, cq.queues[q])
  }

  /** The queue `n` places on is the first that may and can issue, and entry `j` is its first. */
  ghost predicate NextInTurn(c: Config, log: Log, cq: QueueState, n: nat, j: nat, cmd: Command)
    requires QueuesOk(c, cq)
  {
    var q := Ahead(c, cq.idx, n);
    && n >= 1 && !SetAside(cq, q) && FirstCandidate(c, log, cq.clk, cq.queues[q], j, cmd)
    && forall m :: 1 <= m < n ==> Passed(c, log, cq, m)
  }

  lemma AheadNext(c: Config, idx: int, n: nat)
    requires 0 <= idx < NumQueues(c)
    ensures NextIdx(c, Ahead(c, idx, n)) == Ahead(c, idx, n + 1)
    ensures Ahead(c, idx, 0) == idx && Ahead(c, idx, NumQueues(c)) == idx
  {
    hide NumQueues;
    ModStep(idx + n, NumQueues(c));
    DivideUnique(idx, NumQueues(c), 0);
    DivideUnique(idx + NumQueues(c), NumQueues(c), 1);
    var k := Ahead(c, idx, n) + 1;
    DivideUnique(k, NumQueues(c), if k == NumQueues(c) then 1 else 0);
  }

  /** Every queue is some places on. */
  lemma PlacesOn(c: Config, idx: int, q: int) returns (n: nat)
    requires 0 <= idx < NumQueues(c) && 0 <= q < NumQueues(c)
    ensures 1 <= n <= NumQueues(c) && Ahead(c, idx, n) == q
  {
    hide NumQueues;
    n := if q > idx then q - idx else q + NumQueues(c) - idx;
    DivideUnique(idx + n, NumQueues(c), if q > idx then 0 else 1);
  }

  /** The loop, `n` rounds before its end. */
  lemma {:induction false} ChooseInTurn(c: Config, log: Log, cq: QueueState, n: nat)
    requires QueuesOk(c, cq) && n <= NumQueues(c)
    requires forall m :: 1 <= m <= NumQueues(c) - n ==> Passed(c, log, cq, m)
    ensures var (r, idx) := Choose(c, log, cq.(idx := Ahead(c, cq.idx, NumQueues(c) - n)), n);
      if r.None? then
        idx == cq.idx && forall m :: 1 <= m <= NumQueues(c) ==> Passed(c, log, cq, m)
      else
        exists m: nat, j: nat :: NextInTurn(c, log, cq, m, j, r.value) && idx == Ahead(c, cq.idx, m)
    decreases n
  {
    hide NumQueues, Candidate, FirstReady, Barren, FirstCandidate;
    var m := NumQueues(c) - n;
    AheadNext(c, cq.idx, m);
    if n > 0 {
      var q := Ahead(c, cq.idx, m + 1);
      FirstReadyIsFirst(c, log, cq.clk, cq.queues[q], 0);
      var r := FirstReady(c, log, cq.clk, cq.queues[q], 0);
      if SetAside(cq, q) || r.None? {
        assert Passed(c, log, cq, m + 1);
        ChooseInTurn(c, log, cq, n - 1);
      } else {
        var j: nat :| FirstCandidate(c, log, cq.clk, cq.queues[q], j, r.value);
        assert NextInTurn(c, log, cq, m + 1, j, r.value);
      }
    }
  }

  /** Round robin: the first queue after the last one used that may and can issue, and its first entry. */
  lemma ChoiceIsNext(c: Config, log: Log, cq: QueueState)
    requires QueuesOk(c, cq)
    ensures var (r, idx) := Choose(c, log, cq, NumQueues(c));
      if r.None? then
        idx == cq.idx && forall q :: 0 <= q < NumQueues(c) ==> SetAside(cq, q) || Barren(c, log, cq.clk, cq.queues[q])
      else
        exists n: nat, j: nat :: NextInTurn(c, log, cq, n, j, r.value) && idx == Ahead(c, cq.idx, n)
  {
    hide NumQueues, Choose, Barren, NextInTurn;
    AheadNext(c, cq.idx, 0);
    assert cq.(idx := Ahead(c, cq.idx, 0)) == cq;
    ChooseInTurn(c, log, cq, NumQueues(c));
    if Choose(c, log, cq, NumQueues(c)).0.None? {
      forall q | 0 <= q < NumQueues(c) ensures SetAside(cq, q) || Barren(c, log, cq.clk, cq.queues[q]) {
        var n := PlacesOn(c, cq.idx, q);
        assert Passed(c, log, cq, n);
      }
    }
  }

  /** A column command is issued exactly as it was queued; a row command keeps its coordinates. */
  lemma CandidateIsEntry(c: Config, log: Log, clk: int, q: seq<Command>, j: nat)
    requires j < |q| && AllAskable(q) && q[j].kind.IsColumn()
    ensures var r := Candidate(c, log, clk, q, j);
      r.Some? ==> r == ReadyCommand(c, log, q[j], clk) && r.value.addr == q[j].addr
    ensures var r := Candidate(c, log, clk, q, j);
      r.Some? && r.value.kind.IsColumn() ==> r.value == q[j]
    ensures var r := Candidate(c, log, clk, q, j);
      r.Some? && !r.value.kind.IsColumn() ==> r.value.kind.Activate? || r.value.kind.Precharge?
  {
    hide RowOf, Earliest, Window, MayPrecharge, HasRWDependency;
  }

  predicate SameJob(a: Command, b: Command) {
    a.hex == b.hex && a.kind == b.kind
  }

  lemma {:induction false} FindCommandFinds(q: seq<Command>, cmd: Command, i: nat, j: nat)
    requires i <= j < |q| && q[j] == cmd
    ensures var r := FindCommand(q, cmd, i);
      r.Some? && r.value < |q| && q[r.value].hex == cmd.hex && q[r.value].kind == cmd.kind
    decreases |q| - i
  {
    if i < j {
      FindCommandFinds(q, cmd, i + 1, j);
    }
  }
}

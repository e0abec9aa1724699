/** The configuration of one channel, and the delay tables derived from it. */
module DramConfig {
  import opened DramTypes
  import opened BitFields
  import opened AddressMap

  datatype Config = Config(
    protocol: Protocol,
    ranks: nat, bankgroups: nat, banksPerGroup: nat,
    layout: Layout,
    burstCycle: int, AL: int, CL: int, CWL: int,
    tCCD_L: int, tCCD_S: int, tRTRS: int, tRTP: int, tWTR_L: int, tWTR_S: int, tWR: int, tRP: int,
    tRRD_L: int, tRRD_S: int, tRAS: int, tRCD: int, tRFC: int, tRFCb: int,
    tREFI: int, tREFIb: int, tFAW: int, tPPD: int, t32AW: int, tRCDRD: int, tRCDWR: int,
    refreshPolicy: RefreshPolicy, queueStructure: QueueStructure, closePage: bool, unifiedQueue: bool,
    cmdQueueSize: int, transQueueSize: int)
  {
    predicate IsGDDR() {
      protocol.GDDR5? || protocol.GDDR5X? || protocol.GDDR6?
    }

    predicate IsHBM() {
      protocol.HBM? || protocol.HBM2?
    }

    function Banks(): nat {
      bankgroups * banksPerGroup
    }

    function RL(): int {
      AL + CL
    }

    function WL(): int {
      AL + CWL
    }

    function ReadDelay(): int {
      RL() + burstCycle
    }

    function WriteDelay(): int {
      WL() + burstCycle
    }

    function TRC(): int {
      tRAS + tRP
    }

    /** `Refresh::refresh_interval_`: cycles between two requests. */
    function RefreshInterval(): int
      requires ranks > 0
    {
      match refreshPolicy
      case RankLevelSimultaneous => tREFI
      case BankLevelStaggered => tREFIb
      case RankLevelStaggered => tREFI / ranks
    }

    /** The structure is not empty, the refresh timer has a period and every decoded address lies
        inside the structure (`AddressMap.DecodedInRange`). */
    predicate Valid() {
      && ranks > 0 && bankgroups > 0 && banksPerGroup > 0
      && RefreshInterval() > 0
      && Pow2(layout.ra.width) <= ranks
      && Pow2(layout.bg.width) <= bankgroups
      && Pow2(layout.ba.width) <= banksPerGroup
    }

    predicate HasBank(b: BankId) {
      0 <= b.rank < ranks && 0 <= b.group < bankgroups && 0 <= b.bank < banksPerGroup
    }
  }

  /** The layout of every accepted mapping string makes a valid configuration of a channel of that structure. */
  lemma AcceptedMappingIsValid(s: Shape, order: seq<Field>, c: Config)
    requires s.ColumnBits() >= 0 && s.Positive() && Permutation(order) && Lays(s, order, c.layout)
    requires c.ranks == s.ranks && c.bankgroups == s.bankgroups && c.banksPerGroup == s.banksPerGroup
    ensures c.Valid() <==> c.RefreshInterval() > 0
  {
    hide Log2, Widths, Sum;
    RangeWidth(s, order, c.layout, Ra);
    RangeWidth(s, order, c.layout, Bg);
    RangeWidth(s, order, c.layout, Ba);
  }

  lemma RangeWidth(s: Shape, order: seq<Field>, l: Layout, f: Field)
    requires s.ColumnBits() >= 0 && s.Positive() && Permutation(order) && Lays(s, order, l)
    ensures Pow2(l.Range(f).width) <= s.Size(f)
  {
    hide Log2, Widths, Sum;
    Listed(f);
    assert f in multiset(order);
    var m :| 0 <= m < |order| && order[m] == f;
    WidthFits(s, f);
  }

  /** One line of a delay table: a later command of `kind` must wait `delay` cycles. */
  datatype Delay = Delay(kind: Kind, delay: int)

  function SameGroupOr(c: Config, long: int, short: int): int {
    if c.bankgroups == 1 then short else long
  }

  function ReadToReadL(c: Config): int {
    Max(c.burstCycle, SameGroupOr(c, c.tCCD_L, c.tCCD_S))
  }

  function ReadToReadS(c: Config): int {
    Max(c.burstCycle, c.tCCD_S)
  }

  function ReadToReadO(c: Config): int {
    c.burstCycle + c.tRTRS
  }

  function ReadToWrite(c: Config): int {
    c.RL() + c.burstCycle - c.WL() + c.tRTRS
  }

  function ReadToWriteO(c: Config): int {
    c.ReadDelay() + c.burstCycle + c.tRTRS - c.WriteDelay()
  }

  function ReadToPrecharge(c: Config): int {
    c.AL + c.tRTP
  }

  function ReadpToActivate(c: Config): int {
    c.AL + c.burstCycle + c.tRTP + c.tRP
  }

  function WriteToReadL(c: Config): int {
    c.WriteDelay() + SameGroupOr(c, c.tWTR_L, c.tWTR_S)
  }

  function WriteToReadS(c: Config): int {
    c.WriteDelay() + c.tWTR_S
  }

  function WriteToReadO(c: Config): int {
    c.WriteDelay() + c.burstCycle + c.tRTRS - c.ReadDelay()
  }

  function WriteToWriteL(c: Config): int {
    Max(c.burstCycle, SameGroupOr(c, c.tCCD_L, c.tCCD_S))
  }

  function WriteToWriteS(c: Config): int {
    Max(c.burstCycle, c.tCCD_S)
  }

  function WriteToPrecharge(c: Config): int {
    c.WL() + c.burstCycle + c.tWR
  }

  function ReadToActivate(c: Config): int {
    ReadToPrecharge(c) + c.tRP
  }

  function WriteToActivate(c: Config): int {
    WriteToPrecharge(c) + c.tRP
  }

  function ActivateToRead(c: Config): int {
    if c.IsGDDR() || c.IsHBM() then c.tRCDRD else c.tRCD - c.AL
  }

  function ActivateToWrite(c: Config): int {
    if c.IsGDDR() || c.IsHBM() then c.tRCDWR else c.tRCD - c.AL
  }

  /** Delays for the four column commands. */
  function Columns(read: int, write: int): seq<Delay> {
    [Delay(Read, read), Delay(Write, write), Delay(ReadPrecharge, read), Delay(WritePrecharge, write)]
  }

  /** Delays for everything a closed bank can do next. */
  function Reopen(activate: int, refresh: int): seq<Delay> {
    [Delay(Activate, activate), Delay(Refresh, refresh), Delay(RefreshBank, refresh)]
  }

  function SameBank(c: Config, k: Kind): seq<Delay> {
    match k
    case Read => Columns(ReadToReadL(c), ReadToWrite(c)) + [Delay(Precharge, ReadToPrecharge(c))]
    case Write => Columns(WriteToReadL(c), WriteToWriteL(c)) + [Delay(Precharge, WriteToPrecharge(c))]
    case ReadPrecharge => Reopen(ReadpToActivate(c), ReadToActivate(c))
    case WritePrecharge => Reopen(WriteToActivate(c), WriteToActivate(c))
    case Activate =>
      [Delay(Activate, c.TRC())] + Columns(ActivateToRead(c), ActivateToWrite(c)) + [Delay(Precharge, c.tRAS)]
    case Precharge => Reopen(c.tRP, c.tRP)
    case _ => []
  }

  function OtherBanksSameGroup(c: Config, k: Kind): seq<Delay> {
    match k
    case Read => Columns(ReadToReadL(c), ReadToWrite(c))
    case ReadPrecharge => Columns(ReadToReadL(c), ReadToWrite(c))
    case Write => Columns(WriteToReadL(c), WriteToWriteL(c))
    case WritePrecharge => Columns(WriteToReadL(c), WriteToWriteL(c))
    case Activate =>
      [Delay(Activate, SameGroupOr(c, c.tRRD_L, c.tRRD_S)), Delay(RefreshBank, c.TRC())]
    case Precharge => PrechargeToPrecharge(c)
    case RefreshBank => [Delay(Activate, c.tRFC), Delay(RefreshBank, c.tREFI)]
    case _ => []
  }

  function OtherGroupsSameRank(c: Config, k: Kind): seq<Delay> {
    match k
    case Read => Columns(ReadToReadS(c), ReadToWrite(c))
    case ReadPrecharge => Columns(ReadToReadS(c), ReadToWrite(c))
    case Write => Columns(WriteToReadS(c), WriteToWriteS(c))
    case WritePrecharge => Columns(WriteToReadS(c), WriteToWriteS(c))
    case Activate => [Delay(Activate, c.tRRD_S), Delay(RefreshBank, c.TRC())]
    case Precharge => PrechargeToPrecharge(c)
    case RefreshBank => [Delay(Activate, c.tRFC), Delay(RefreshBank, c.tREFI)]
    case _ => []
  }

  function PrechargeToPrecharge(c: Config): seq<Delay> {
    if c.IsGDDR() || c.protocol.LPDDR4? then [Delay(Precharge, c.tPPD)] else []
  }

  function OtherRanks(c: Config, k: Kind): seq<Delay> {
    match k
    case Read => Columns(ReadToReadO(c), ReadToWriteO(c))
    case ReadPrecharge => Columns(ReadToReadO(c), ReadToWriteO(c))
    case Write => Columns(WriteToReadO(c), c.burstCycle)
    case WritePrecharge => Columns(WriteToReadO(c), c.burstCycle)
    case _ => []
  }

  function SameRank(c: Config, k: Kind): seq<Delay> {
    match k
    case RefreshBank => Reopen(c.tRFCb, c.tRFCb)
    case Refresh => [Delay(Activate, c.tRFC), Delay(Refresh, c.tRFC)]
    case _ => []
  }

  /** The table that command `cmd` applies to bank `b` (`ChannelState::UpdateTiming`). Rank commands
      use the rank table for every bank of the rank, all others the table of the bank's relation. */
  function DelaysFor(c: Config, cmd: Command, b: BankId): seq<Delay> {
    if cmd.kind.IsRank() then
      if b.rank == cmd.addr.rank then SameRank(c, cmd.kind) else []
    else if b.rank != cmd.addr.rank then OtherRanks(c, cmd.kind)
    else if b.group != cmd.addr.group then OtherGroupsSameRank(c, cmd.kind)
    else if b.bank != cmd.addr.bank then OtherBanksSameGroup(c, cmd.kind)
    else SameBank(c, cmd.kind)
  }
}

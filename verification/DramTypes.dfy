/** The values the memory controller passes around: DRAM coordinates, commands,
    transactions and the configuration they are interpreted under. */
module DramTypes {

  datatype Option<+T> = None | Some(value: T)

  /** What a function that may call `AbruptExit` or `exit(1)` yields. */
  datatype Outcome<+T> = Ok(value: T) | Abort(site: Site) {
    predicate IsFailure() {
      Abort?
    }

    function PropagateFailure<U>(): Outcome<U>
      requires Abort?
    {
      Abort(site)
    }

    function Extract(): T
      requires Ok?
    {
      value
    }
  }

  /** The places where the simulator gives up. */
  datatype Site =
    | IllegalBankCommand
    | CannotFindCommand
    | NotInReadQueue
    | NotInWriteQueue

  datatype Protocol =
    | DDR3 | DDR4 | GDDR5 | GDDR5X | GDDR6 | LPDDR | LPDDR3 | LPDDR4 | LPDDR5 | HBM | HBM2 | HMC

  datatype RefreshPolicy = RankLevelSimultaneous | RankLevelStaggered | BankLevelStaggered

  datatype QueueStructure = PerRank | PerBank

  datatype Kind =
    | Read
    | ReadPrecharge
    | Write
    | WritePrecharge
    | Activate
    | Precharge
    | RefreshBank
    | Refresh
  {
    predicate IsRead() {
      Read? || ReadPrecharge?
    }

    predicate IsWrite() {
      Write? || WritePrecharge?
    }

    predicate IsColumn() {
      IsRead() || IsWrite()
    }

    predicate IsRefresh() {
      Refresh? || RefreshBank?
    }

    /** Commands that address every bank of a rank. */
    predicate IsRank() {
      Refresh?
    }

    /** Commands that close an open row. */
    predicate Closes() {
      ReadPrecharge? || WritePrecharge? || Precharge?
    }
  }

  datatype Address = Address(channel: int, rank: int, group: int, bank: int, row: int, column: int)

  datatype BankId = BankId(rank: int, group: int, bank: int)

  datatype Command = Command(kind: Kind, addr: Address, hex: int) {
    function Bank(): BankId {
      BankId(addr.rank, addr.group, addr.bank)
    }

    /** Whether this command acts on bank `b`. */
    predicate Touches(b: BankId) {
      if kind.IsRank() then addr.rank == b.rank else Bank() == b
    }
  }

  /** `id` is the position in the order of acceptance; the simulator keeps no such number,
      it only lets the theorems tell equal transactions apart. */
  datatype Transaction = Transaction(addr: int, isWrite: bool, added: int, complete: int, id: nat)

  function Max(a: int, b: int): int {
    if a < b then b else a
  }
}

/** `BankState`: the row state machine of one bank and its table of earliest times. */
module Banks {
  import opened DramTypes
  import opened DramConfig
  import opened History

  /** A timing table raised by every line of a delay list. */
  ghost function RaiseAll(m: map<Kind, int>, ds: seq<Delay>, clk: int): map<Kind, int> {
    map k | k in m :: Raise(m[k], ds, clk, k)
  }

  const INITIAL_TIMING: map<Kind, int> :=
    map[Read := 0, ReadPrecharge := 0, Write := 0, WritePrecharge := 0, Activate := 0,
        Precharge := 0, RefreshBank := 0, Refresh := 0]

  lemma InitiallyZero(k: Kind)
    ensures k in INITIAL_TIMING && INITIAL_TIMING[k] == 0
  {
    match k
    case Read =>
    case ReadPrecharge =>
    case Write =>
    case WritePrecharge =>
    case Activate =>
    case Precharge =>
    case RefreshBank =>
    case Refresh =>
  }

  class BankState {
    /** The place of this bank in the channel. */
    ghost const id: BankId
    var isOpen: bool
    var cmdTiming: map<Kind, int>
    var openRow: int
    var rowHitCount: nat

    ghost predicate Valid()
      reads this
    {
      (forall k: Kind :: k in cmdTiming) && (!isOpen ==> openRow == -1 && rowHitCount == 0)
    }

    ghost function View(): Row
      reads this`isOpen, this`openRow, this`rowHitCount
    {
      if isOpen then Open(openRow, rowHitCount) else Closed
    }

    /** A bank no command has reached yet. */
    ghost predicate Fresh()
      reads this
    {
      Valid() && View() == Closed && forall k: Kind :: cmdTiming[k] == 0
    }

    constructor (ghost id: BankId)
      ensures Fresh() && this.id == id
    {
      this.id := id;
      isOpen, openRow, rowHitCount := false, -1, 0;
      cmdTiming := INITIAL_TIMING;
      forall k: Kind ensures k in INITIAL_TIMING && INITIAL_TIMING[k] == 0 { InitiallyZero(k); }
    }

    method GetReadyCommand(cmd: Command, clk: int) returns (r: Option<Command>)
      requires Valid() && Askable(cmd.kind)
      ensures r == if clk >= cmdTiming[Required(View(), cmd)]
                   then Some(cmd.(kind := Required(View(), cmd))) else None
    {
      var requiredType;
      if !isOpen {
        if cmd.kind.IsColumn() {
          requiredType := Activate;
        } else {
          requiredType := cmd.kind;
        }
      } else if cmd.kind.IsColumn() {
        if cmd.addr.row == openRow {
          requiredType := cmd.kind;
        } else {
          requiredType := Precharge;
        }
      } else {
        requiredType := Precharge;
      }
      if clk >= cmdTiming[requiredType] {
        return Some(Command(requiredType, cmd.addr, cmd.hex));
      }
      return None;
    }

    /** `ok` is false where the source aborts. */
    method UpdateState(cmd: Command) returns (ok: bool)
      requires Valid()
      modifies this`isOpen, this`openRow, this`rowHitCount
      ensures Valid() && (ok <==> Advance(old(View()), cmd).Some?)
      ensures View() == if ok then Advance(old(View()), cmd).value else old(View())
    {
      if isOpen {
        match cmd.kind
        case Read | Write =>
          rowHitCount := rowHitCount + 1;
        case ReadPrecharge | WritePrecharge | Precharge =>
          isOpen := false;
          openRow := -1;
          rowHitCount := 0;
        case _ =>
          return false;
      } else {
        match cmd.kind
        case Refresh | RefreshBank =>
        case Activate =>
          isOpen := true;
          openRow := cmd.addr.row;
        case _ =>
          return false;
      }
      return true;
    }

    method UpdateTiming(kind: Kind, time: int)
      requires Valid()
      modifies this`cmdTiming
      ensures Valid() && cmdTiming == old(cmdTiming)[kind := Max(old(cmdTiming)[kind], time)]
    {
      cmdTiming := cmdTiming[kind := Max(cmdTiming[kind], time)];
    }
  }
}

/** `Refresh`: the timer that asks for refreshes. */
module RefreshEngine {
  import opened DramTypes
  import opened DramConfig
  import opened History
  import opened Channel
  import opened Scheduler

  class Refresh {
    const c: Config
    const chan: ChannelState
    var clk: int
    var nextRank: int
    var nextGroup: int
    var nextBank: int

    ghost function View(): RefreshState
      reads this
    {
      RefreshState(clk, nextRank, nextGroup, nextBank)
    }

    constructor (c: Config, chan: ChannelState)
      ensures this.c == c && this.chan == chan && View() == RefreshState(0, 0, 0, 0)
    {
      this.c, this.chan := c, chan;
      clk, nextRank, nextGroup, nextBank := 0, 0, 0, 0;
    }

    method ClockTick()
      requires c.Valid()
      modifies this, chan`refreshQ
      ensures (View(), chan.refreshQ) == RefreshAfter(c, old(View()), old(chan.refreshQ))
    {
      if clk % c.RefreshInterval() == 0 && clk > 0 {
        InsertRefresh();
      }
      clk := clk + 1;
    }

    method InsertRefresh()
      requires c.Valid()
      modifies this`nextRank, this`nextGroup, this`nextBank, chan`refreshQ
      ensures View() == IterateNext(c, old(View()))
      ensures chan.refreshQ == old(chan.refreshQ) + [NextRequest(c, old(View()))]
    {
      match c.refreshPolicy
      case RankLevelSimultaneous =>
        chan.RankNeedRefresh(0, true);
      case RankLevelStaggered =>
        chan.RankNeedRefresh(nextRank, true);
        Iterate();
      case BankLevelStaggered =>
        chan.BankNeedRefresh(nextRank, nextGroup, nextBank, true);
        Iterate();
    }

    method Iterate()
      requires c.Valid()
      modifies this`nextRank, this`nextGroup, this`nextBank
      ensures View() == IterateNext(c, old(View()))
    {
      match c.refreshPolicy
      case RankLevelSimultaneous =>
      case RankLevelStaggered =>
        nextRank := (nextRank + 1) % c.ranks;
      case BankLevelStaggered =>
        nextGroup := (nextGroup + 1) % c.bankgroups;
        if nextGroup == 0 {
          nextBank := (nextBank + 1) % c.banksPerGroup;
          if nextBank == 0 {
            nextRank := (nextRank + 1) % c.ranks;
          }
        }
    }
  }
}

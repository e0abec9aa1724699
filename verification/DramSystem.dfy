/** One controller per channel, with the operations of `JedecDRAMSystem`. Each memory cycle first calls back what
    is due in every channel and then ticks every channel, so each channel sees exactly the runs of
    `Scheduler.Step`. */
module DramSystem {
  import opened DramTypes
  import opened BitFields
  import opened DramConfig
  import opened History
  import opened Channel
  import opened Scheduler
  import opened Turns
  import opened Runs
  import opened Controllers

  class BaseDRAMSystem {
    const c: Config
    const ctrls: seq<Controller>
    ghost const footprint: set<object>
    var clk: int

    ghost predicate Apart()
    {
      && this in footprint
      && (forall i :: 0 <= i < |ctrls| ==> this !in ctrls[i].Repr() && ctrls[i].Repr() <= footprint)
      && (forall i, j :: 0 <= i < j < |ctrls| ==> ctrls[i].Repr() !! ctrls[j].Repr())
    }

    ghost predicate Valid()
      reads footprint
    {
      && Apart() && Pow2(c.layout.ch.width) <= |ctrls|
      && forall i :: 0 <= i < |ctrls| ==> ctrls[i].c == c && ctrls[i].Valid() && ctrls[i].clk == clk
    }

    /** The states of the channels. */
    ghost function States(): (vs: seq<Ctrl>)
      requires Apart()
      reads footprint
      ensures |vs| == |ctrls| && forall i :: 0 <= i < |ctrls| ==> vs[i] == ctrls[i].State()
    {
      seq(|ctrls|, i requires 0 <= i < |ctrls| && Apart() reads footprint => ctrls[i].State())
    }

    constructor (config: Config, channels: nat)
      requires config.Valid() && Pow2(config.layout.ch.width) <= channels
      ensures Valid() && c == config && |ctrls| == channels && clk == 0 && fresh(footprint)
      ensures forall i :: 0 <= i < channels ==> ctrls[i].State() == Initial(config)
    {
      hide Good, Controller.Valid, Controller.Repr, Controller.State, Initial, Pow2;
      c, clk := config, 0;
      var all: seq<Controller> := [];
      ghost var objects: set<object> := {};
      var i := 0;
      while i < channels
        invariant 0 <= i <= channels && |all| == i && fresh(objects)
        invariant forall k :: 0 <= k < i ==> all[k].Repr() <= objects
        invariant forall k :: 0 <= k < i ==>
          all[k].c == config && all[k].Valid() && all[k].State() == Initial(config) && all[k].clk == 0
        invariant forall k, m :: 0 <= k < m < i ==> all[k].Repr() !! all[m].Repr()
      {
        var ctrl := new Controller(config);
        all, objects := all + [ctrl], objects + ctrl.Repr();
        i := i + 1;
      }
      ctrls, footprint := all, objects + {this};
    }

    method GetChannel(hex: nat) returns (channel: nat)
      requires Pow2(c.layout.ch.width) <= |ctrls|
      ensures channel == c.layout.Decode(hex).channel && channel < |ctrls|
    {
      channel := c.layout.GetChannel(hex);
    }

    /** A transaction for one channel, if that has room; no other channel moves. */
    method InsertAt(channel: nat, hex: nat, isWrite: bool, ghost data: int) returns (ok: bool)
      requires Valid() && channel < |ctrls|
      modifies footprint
      ensures Valid() && clk == old(clk)
      ensures ok == WillAcceptTransaction(c, old(ctrls[channel].State()), isWrite)
      ensures ctrls[channel].State() == Offered(c, old(ctrls[channel].State()), hex, isWrite, data)
      ensures forall i :: 0 <= i < |ctrls| && i != channel ==> ctrls[i].State() == old(ctrls[i].State())
    {
      hide Good, Scheduler.AddTransaction, ChannelState.Valid, Pow2;
      var ctrl := ctrls[channel];
      ok := ctrl.WillAcceptTransaction(isWrite);
      if ok {
        ctrl.AddTransaction(hex, isWrite, data);
        AcceptKeepsClock(c, old(ctrl.State()), hex, isWrite, data);
      }
    }

    /** A transaction goes to the channel its address decodes to. */
    method AddTransaction(hex: nat, isWrite: bool, ghost data: int) returns (ok: bool)
      requires Valid()
      modifies footprint
      ensures Valid() && clk == old(clk)
      ensures var channel := c.layout.GetChannel(hex);
        && ok == WillAcceptTransaction(c, old(ctrls[channel].State()), isWrite)
        && Stepped(c, old(ctrls[channel].State()), Accept(hex, isWrite, data), ctrls[channel].State())
        && forall i :: 0 <= i < |ctrls| && i != channel ==> ctrls[i].State() == old(ctrls[i].State())
    {
      hide Good, Scheduler.AddTransaction, Controller.State, ChannelState.Valid, Pow2, Steppable;
      var channel := GetChannel(hex);
      OfferSteps(c, ctrls[channel].State(), hex, isWrite, data);
      ok := InsertAt(channel, hex, isWrite, data);
    }

    /** The callbacks of one channel. */
    method CallBack(ctrl: Controller)
      requires ctrl.Valid()
      modifies ctrl`returnQ, ctrl`rec
      ensures ctrl.Returned() && ctrl.State() == ReturnDone(old(ctrl.State()), ctrl.clk)
    {
      hide Good, Sound, ReturnDone, ChannelState.Valid;
      ghost var s := ctrl.State();
      GoodReturns(ctrl.c, s);
      var r := ctrl.ReturnDoneTrans(ctrl.clk);
      while r.Some?
        invariant ctrl.Wired() && ReturnDone(ctrl.State(), ctrl.clk) == ReturnDone(s, ctrl.clk)
        invariant r.None? ==> ctrl.State() == ReturnDone(s, ctrl.clk)
        decreases |ctrl.returnQ|, r.Some?
      {
        r := ctrl.ReturnDoneTrans(ctrl.clk);
      }
    }

    method CallBackAll()
      requires Valid()
      modifies footprint
      ensures Apart() && clk == old(clk)
      ensures forall k :: 0 <= k < |ctrls| ==> ctrls[k].Returned() && ctrls[k].clk == clk
      ensures forall k :: 0 <= k < |ctrls| ==> ctrls[k].State() == ReturnDone(old(ctrls[k].State()), clk)
    {
      hide Good, Sound, ReturnDone, Tick, Controller.Valid, Controller.Returned, Pow2, Controller.State;
      var i := 0;
      while i < |ctrls|
        invariant 0 <= i <= |ctrls| && clk == old(clk)
        invariant forall k :: 0 <= k < |ctrls| ==> ctrls[k].clk == clk
        invariant forall k :: 0 <= k < i ==>
          ctrls[k].Returned() && ctrls[k].State() == ReturnDone(old(ctrls[k].State()), clk)
        invariant forall k :: i <= k < |ctrls| ==> ctrls[k].Valid() && ctrls[k].State() == old(ctrls[k].State())
      {
        CallBack(ctrls[i]);
        i := i + 1;
      }
    }

    method TickOne(ctrl: Controller)
      requires ctrl.Returned()
      modifies ctrl.Repr()
      ensures ctrl.Valid() && ctrl.clk == old(ctrl.clk) + 1 && Ticked(ctrl.c, old(ctrl.State()), ctrl.State())
    {
      hide Good, Sound, Tick, Controller.Valid, Controller.Returned, Steppable, Controller.State;
      ctrl.ClockTick();
    }

    method TickAll()
      requires Apart() && forall k :: 0 <= k < |ctrls| ==> ctrls[k].Returned() && ctrls[k].clk == clk
      modifies footprint
      ensures Apart() && clk == old(clk)
      ensures forall k :: 0 <= k < |ctrls| ==> ctrls[k].Valid() && ctrls[k].clk == clk + 1
      ensures forall k :: 0 <= k < |ctrls| ==> Ticked(ctrls[k].c, old(ctrls[k].State()), ctrls[k].State())
    {
      hide Ticked, Controller.Valid, Controller.Returned, Controller.State;
      var i := 0;
      while i < |ctrls|
        invariant 0 <= i <= |ctrls| && clk == old(clk)
        invariant forall k :: 0 <= k < i ==> ctrls[k].Valid() && ctrls[k].clk == clk + 1
        invariant forall k :: 0 <= k < i ==> Ticked(ctrls[k].c, old(ctrls[k].State()), ctrls[k].State())
        invariant forall k :: i <= k < |ctrls| ==>
          ctrls[k].Returned() && ctrls[k].clk == clk && ctrls[k].State() == old(ctrls[k].State())
      {
        TickOne(ctrls[i]);
        i := i + 1;
      }
    }

    /** One memory cycle steps every channel. */
    method ClockTick()
      requires Valid()
      modifies footprint
      ensures Valid() && clk == old(clk) + 1
      ensures forall k :: 0 <= k < |ctrls| ==> Stepped(c, old(ctrls[k].State()), Cycle, ctrls[k].State())
    {
      hide Good, Sound, ReturnDone, Tick, Pow2, Steppable, Stepped, Ticked, Controller.Wired;
      forall k | 0 <= k < |ctrls|
        ensures forall s' :: Ticked(c, ReturnDone(ctrls[k].State(), clk), s') ==>
          Stepped(c, ctrls[k].State(), Cycle, s')
      {
        CycleIsTick(c, ctrls[k].State());
      }
      CallBackAll();
      TickAll();
      clk := clk + 1;
    }
  }

  ghost predicate Ticked(c: Config, s: Ctrl, s': Ctrl) {
    Steppable(c, s) && Tick(c, s) == Ok(s')
  }

  ghost predicate Stepped(c: Config, s: Ctrl, e: Event, s': Ctrl) {
    Steppable(c, s) && Step(c, s, e) == Ok(s')
  }

  /** The channel after it was offered a transaction. */
  ghost function Offered(c: Config, s: Ctrl, hex: nat, isWrite: bool, data: int): Ctrl {
    if WillAcceptTransaction(c, s, isWrite) then Scheduler.AddTransaction(c, s, hex, isWrite, data) else s
  }

  lemma OfferSteps(c: Config, s: Ctrl, hex: nat, isWrite: bool, data: int)
    requires Good(c, s)
    ensures Stepped(c, s, Accept(hex, isWrite, data), Offered(c, s, hex, isWrite, data))
  {
    hide Good, Scheduler.AddTransaction;
    GoodSteps(c, s);
  }

  lemma CycleIsTick(c: Config, s: Ctrl)
    requires Good(c, s)
    ensures forall s' :: Ticked(c, ReturnDone(s, s.clk), s') ==> Stepped(c, s, Cycle, s')
  {
    hide Good, Tick, ReturnDone;
    GoodSteps(c, s);
  }

  lemma AcceptKeepsClock(c: Config, s: Ctrl, addr: nat, isWrite: bool, data: int)
    ensures Scheduler.AddTransaction(c, s, addr, isWrite, data).clk == s.clk
  {
  }

  lemma GoodReturns(c: Config, s: Ctrl)
    requires Good(c, s)
    ensures var s' := ReturnDone(s, s.clk);
      Sound(c, s', s.clk + 1) && s'.clk == s.clk && s'.log == s.log && s'.ref.clk == s.clk && s.clk >= 0
        && IssuedBefore(s.log, s.clk)
  {
    hide Sound;
    SoundReturn(c, s);
    ReturnFrame(s, s.clk);
  }
}

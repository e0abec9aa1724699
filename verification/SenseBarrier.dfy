/** The sense-reversing barrier that harts share, for any number of harts and rounds: every shared
    access is one step, and harts take steps in any order. */
module SenseBarrier {
  import opened HartSets

  /** `Arriving`: own sense flipped, about to add. `Resetting`, `Releasing`: the hart that came last. */
  datatype Pc = Outside | Arriving | Resetting | Releasing | Spinning

  datatype Hart = Hart(pc: Pc, sense: bool, round: nat)

  /** `round` of a hart counts its finished barrier calls and `releases` the stores to `sense`; neither is
      part of the program. */
  datatype State = State(sense: bool, count: int, harts: seq<Hart>, releases: nat)

  function Put(s: State, i: nat, h: Hart): State
    requires i < |s.harts|
  {
    s.(harts := s.harts[i := h])
  }

  /** The next step of hart `i`. */
  function Step(n: nat, s: State, i: nat): State
    requires i < |s.harts|
  {
    var h := s.harts[i];
    match h.pc
    case Outside => Put(s, i, h.(sense := !h.sense, pc := Arriving))
    case Arriving => Put(s.(count := s.count + 1), i, h.(pc := if s.count == n - 1 then Resetting else Spinning))
    case Resetting => Put(s.(count := 0), i, h.(pc := Releasing))
    case Releasing =>
      Put(s.(sense := h.sense, releases := s.releases + 1), i, h.(pc := Outside, round := h.round + 1))
    case Spinning =>
      if s.sense != h.sense then s else Put(s, i, h.(pc := Outside, round := h.round + 1))
  }

  function Initial(n: nat): State {
    State(false, 0, seq(n, _ => Hart(Outside, false, 0)), 0)
  }

  /** The state after the harts stepped in this order. */
  ghost function Run(n: nat, order: seq<nat>): (s: State)
    requires Schedule(n, order)
    ensures |s.harts| == n
  {
    if order == [] then Initial(n) else Step(n, Run(n, order[..|order| - 1]), order[|order| - 1])
  }

  // ---- invariant ------------------------------------------------------------------------------------------

  predicate Odd(k: nat) {
    k % 2 == 1
  }

  /** The sense a hart carries through round `k`. */
  predicate SenseOf(k: nat) {
    Odd(k + 1)
  }

  predicate IsLeader(h: Hart) {
    h.pc.Resetting? || h.pc.Releasing?
  }

  ghost predicate HartOk(h: Hart, g: nat) {
    match h.pc
    case Outside => h.round == g && h.sense == Odd(g)
    case Spinning => (h.round == g && h.sense == SenseOf(g)) || (h.round + 1 == g && h.sense == Odd(g))
    case _ => h.round == g && h.sense == SenseOf(g)
  }

  /** Harts that wait for the round in progress. */
  ghost function Waiters(s: State): set<int> {
    set i | 0 <= i < |s.harts| && s.harts[i].pc.Spinning? && s.harts[i].round == s.releases
  }

  ghost predicate HartsOk(n: nat, s: State) {
    |s.harts| == n && s.sense == Odd(s.releases) && forall i :: 0 <= i < n ==> HartOk(s.harts[i], s.releases)
  }

  /** The round is still filling up. */
  ghost predicate Gathering(n: nat, s: State)
    requires |s.harts| == n
  {
    && (forall i :: 0 <= i < n ==> !IsLeader(s.harts[i]))
    && s.count == |Waiters(s)| && Waiters(s) != Upto(n)
  }

  /** Hart `l` came last and all others wait. */
  ghost predicate Led(n: nat, s: State, l: int)
    requires |s.harts| == n
  {
    && 0 <= l < n && IsLeader(s.harts[l]) && Waiters(s) == Upto(n) - {l}
    && s.count == if s.harts[l].pc.Resetting? then n else 0
  }

  ghost predicate Inv(n: nat, s: State) {
    HartsOk(n, s) && (Gathering(n, s) || exists l :: Led(n, s, l))
  }

  lemma InitialOk(n: nat)
    requires n > 0
    ensures Inv(n, Initial(n))
  {
    hide Upto;
    assert Waiters(Initial(n)) == {};
    assert 0 in Upto(n);
  }

  lemma HartsStay(n: nat, s: State, i: nat)
    requires HartsOk(n, s) && i < n && !s.harts[i].pc.Releasing?
    ensures HartsOk(n, Step(n, s, i))
  {
    var s' := Step(n, s, i);
    forall j | 0 <= j < n ensures HartOk(s'.harts[j], s'.releases) {
      assert HartOk(s.harts[j], s.releases);
    }
  }

  lemma OutsideOk(n: nat, s: State, i: nat)
    requires HartsOk(n, s) && Gathering(n, s) && i < n && s.harts[i].pc.Outside?
    ensures Inv(n, Step(n, s, i))
  {
    hide Upto;
    assert Waiters(Step(n, s, i)) == Waiters(s);
  }

  lemma ArriveOk(n: nat, s: State, i: nat)
    requires HartsOk(n, s) && Gathering(n, s) && i < n && s.harts[i].pc.Arriving?
    ensures Inv(n, Step(n, s, i))
  {
    hide Upto;
    var s' := Step(n, s, i);
    HartsStay(n, s, i);
    AllBut(Waiters(s), i, n);
    assert HartOk(s.harts[i], s.releases);
    if s.count == n - 1 {
      assert Waiters(s') == Waiters(s);
      assert Led(n, s', i);
    } else {
      assert Waiters(s') == Waiters(s) + {i};
      assert |Waiters(s')| < n;
    }
  }

  lemma LeaveOk(n: nat, s: State, i: nat)
    requires HartsOk(n, s) && Gathering(n, s) && i < n && s.harts[i].pc.Spinning?
    ensures Inv(n, Step(n, s, i))
  {
    hide Upto;
    if s.sense == s.harts[i].sense {
      assert i !in Waiters(s);
      assert Waiters(Step(n, s, i)) == Waiters(s);
    }
  }

  lemma ResetOk(n: nat, s: State, l: nat)
    requires HartsOk(n, s) && Led(n, s, l) && s.harts[l].pc.Resetting?
    ensures Inv(n, Step(n, s, l))
  {
    hide Upto;
    var s' := Step(n, s, l);
    assert Waiters(s') == Waiters(s);
    assert Led(n, s', l);
  }

  lemma ReleaseOk(n: nat, s: State, l: nat)
    requires HartsOk(n, s) && Led(n, s, l) && s.harts[l].pc.Releasing?
    ensures Inv(n, Step(n, s, l))
  {
    hide Upto;
    var s' := Step(n, s, l);
    forall j | 0 <= j < n && j != l ensures s.harts[j].pc.Spinning? && s.harts[j].round == s.releases {
      assert j in Waiters(s);
    }
    assert Waiters(s') == {};
    assert l in Upto(n);
  }

  /** Under a leader all others spin in vain. */
  lemma SpinOk(n: nat, s: State, l: nat, i: nat)
    requires HartsOk(n, s) && Led(n, s, l) && i < n && i != l
    ensures Step(n, s, i) == s
  {
    hide Upto;
    assert i in Waiters(s);
  }

  lemma StepOk(n: nat, s: State, i: nat)
    requires Inv(n, s) && i < n
    ensures Inv(n, Step(n, s, i))
  {
    hide HartOk, Gathering, Led, Step;
    if Gathering(n, s) {
      match s.harts[i].pc {
        case Outside => OutsideOk(n, s, i);
        case Arriving => ArriveOk(n, s, i);
        case Spinning => LeaveOk(n, s, i);
        case _ => NoLeader(n, s, i);
      }
    } else {
      var l :| Led(n, s, l);
      LeaderIs(n, s, l);
      if i != l {
        SpinOk(n, s, l, i);
      } else if s.harts[l].pc.Resetting? {
        ResetOk(n, s, l);
      } else {
        ReleaseOk(n, s, l);
      }
    }
  }

  lemma NoLeader(n: nat, s: State, i: nat)
    requires |s.harts| == n && Gathering(n, s) && i < n
    ensures !IsLeader(s.harts[i])
  {
  }

  lemma LeaderIs(n: nat, s: State, l: int)
    requires |s.harts| == n && Led(n, s, l)
    ensures 0 <= l < n && IsLeader(s.harts[l])
  {
  }

  lemma {:induction false} RunOk(n: nat, order: seq<nat>)
    requires Schedule(n, order) && n > 0
    ensures Inv(n, Run(n, order))
  {
    hide Inv, Step;
    if order == [] {
      InitialOk(n);
    } else {
      RunOk(n, order[..|order| - 1]);
      StepOk(n, Run(n, order[..|order| - 1]), order[|order| - 1]);
    }
  }

  // ---- what the barrier promises ------------------------------------------------------------------------------

  /** Hart `h` has announced itself in round `k`. */
  predicate Entered(h: Hart, k: nat) {
    h.round > k || (h.round == k && (h.pc.Spinning? || IsLeader(h)))
  }

  /** No hart leaves round k before all have entered it. */
  lemma NobodyLeavesEarly(n: nat, order: seq<nat>, i: nat, j: nat)
    requires Schedule(n, order) && i < n && j < n
    requires var s := Run(n, order); Step(n, s, i).harts[i].round > s.harts[i].round
    ensures Entered(Run(n, order).harts[j], Run(n, order).harts[i].round)
  {
    hide Run, Upto;
    var s := Run(n, order);
    RunOk(n, order);
    assert HartOk(s.harts[i], s.releases) && HartOk(s.harts[j], s.releases);
    if !Gathering(n, s) {
      var l :| Led(n, s, l);
      assert j == l || j in Waiters(s);
    }
  }

  /** No two harts are ever more than one round apart. */
  lemma RoundsStayClose(n: nat, order: seq<nat>, i: nat, j: nat)
    requires Schedule(n, order) && i < n && j < n
    ensures Run(n, order).harts[i].round <= Run(n, order).harts[j].round + 1
  {
    hide Run, Gathering, Led;
    var s := Run(n, order);
    RunOk(n, order);
    assert HartOk(s.harts[i], s.releases) && HartOk(s.harts[j], s.releases);
  }

  /** Hart `l` releases the round within two steps, and then hart `i` leaves at its next look at `sense`. */
  ghost predicate LeaderFrees(n: nat, s: State, l: nat, i: nat)
    requires |s.harts| == n && l < n && i < n
  {
    var s1 := if s.harts[l].pc.Resetting? then Step(n, s, l) else s;
    s1.harts[l].pc.Releasing? && Step(n, Step(n, s1, l), i).harts[i].round == s.harts[i].round + 1
  }

  /** Once all have entered round k, whoever still waits can leave now, or as soon as the hart that came last
      has taken its remaining steps. */
  lemma EveryoneCanLeave(n: nat, order: seq<nat>, k: nat, i: nat)
    requires Schedule(n, order) && i < n
    requires forall j :: 0 <= j < n ==> Entered(Run(n, order).harts[j], k)
    requires Run(n, order).harts[i].round == k && Run(n, order).harts[i].pc.Spinning?
    ensures var s := Run(n, order);
      Step(n, s, i).harts[i].round == k + 1 || exists l: nat :: l < n && LeaderFrees(n, s, l, i)
  {
    hide Run, Upto;
    var s := Run(n, order);
    RunOk(n, order);
    assert HartOk(s.harts[i], s.releases);
    if s.releases == k {
      AllEnteredIsFull(n, s);
      var l: nat :| Led(n, s, l);
      assert LeaderFrees(n, s, l, i);
    }
  }

  /** A round everyone has entered is no longer filling up. */
  lemma AllEnteredIsFull(n: nat, s: State)
    requires HartsOk(n, s) && forall j :: 0 <= j < n ==> Entered(s.harts[j], s.releases)
    ensures !Gathering(n, s)
  {
    hide Upto;
    if forall j :: 0 <= j < n ==> !IsLeader(s.harts[j]) {
      forall j | 0 <= j < n ensures j in Waiters(s) {
        assert HartOk(s.harts[j], s.releases) && Entered(s.harts[j], s.releases);
      }
      Everyone(Waiters(s), n);
    }
  }
}

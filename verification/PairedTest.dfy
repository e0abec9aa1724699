/** The pairwise AMO tests: two harts that meet three times per iteration through counters only they write.
    In every interleaving the left hart's check succeeds, provided the AMOs are atomic and the check accepts
    what they leave behind in either order. */
module PairedTest {

  /** The three stretches between two meetings. */
  datatype Phase = Setup | Act | Verify

  datatype Pc =
    | Initialise   // left: store the initial value
    | Publish      // store the operand
    | Operate      // the AMO
    | Restore      // swap test: store what the AMO returned
    | Load         // left: load the partner's operand
    | Check        // left: compare
    | Signal       // sync_with_partner: bump own counter
    | Wait         // sync_with_partner: look at the partner's counter

  /** `last` is `partner_last_signal`. */
  datatype Hart<T> = Hart(iter: nat, phase: Phase, pc: Pc, last: nat, operand: T, seen: T)

  datatype State<T> = State(word: T, operands: seq<T>, signals: seq<nat>, harts: seq<Hart<T>>, failed: bool)

  /** What a test is made of. `op` takes the word and the operand and gives both back; `stores` says whether the
      operand is stored after the AMO; `accepts` is the left hart's check of its operand, the partner's and the
      word; `rand` gives the operand of each hart in each iteration. */
  datatype Test<!T> = Test(op: (T, T) -> (T, T), stores: bool, accepts: (T, T, T) -> bool, initval: T,
                           rand: (nat, nat) -> T)

  /** Where hart `h` starts a stretch. */
  function Start(h: nat, p: Phase): Pc {
    match p
    case Setup => if h == 0 then Initialise else Publish
    case Act => Operate
    case Verify => if h == 0 then Load else Signal
  }

  /** The stretch after a meeting. */
  function Meet<T>(h: nat, x: Hart<T>): Hart<T> {
    var (iter, phase) := match x.phase
      case Setup => (x.iter, Act)
      case Act => (x.iter, Verify)
      case Verify => (x.iter + 1, Setup);
    x.(iter := iter, phase := phase, pc := Start(h, phase), last := x.last + 1)
  }

  predicate TwoHarts<T>(s: State<T>) {
    |s.operands| == |s.signals| == |s.harts| == 2
  }

  function Put<T>(s: State<T>, h: nat, x: Hart<T>): State<T>
    requires TwoHarts(s) && h < 2
  {
    s.(harts := s.harts[h := x])
  }

  /** The next shared access of hart `h`. */
  function Step<T>(test: Test<T>, s: State<T>, h: nat): (r: State<T>)
    requires TwoHarts(s) && h < 2
    ensures TwoHarts(r)
  {
    var x := s.harts[h];
    match x.pc
    case Initialise => Put(s.(word := test.initval), h, x.(pc := Publish))
    case Publish =>
      var v := test.rand(h, x.iter);
      Put(s.(operands := s.operands[h := v]), h, x.(operand := v, pc := Signal))
    case Operate =>
      var (word, operand) := test.op(s.word, x.operand);
      Put(s.(word := word), h, x.(operand := operand, pc := if test.stores then Restore else Signal))
    case Restore => Put(s.(operands := s.operands[h := x.operand]), h, x.(pc := Signal))
    case Load => Put(s, h, x.(seen := s.operands[1 - h], pc := Check))
    case Check => Put(s.(failed := s.failed || !test.accepts(x.operand, x.seen, s.word)), h, x.(pc := Signal))
    case Signal => Put(s.(signals := s.signals[h := s.signals[h] + 1]), h, x.(pc := Wait))
    case Wait => if s.signals[1 - h] == x.last then s else Put(s, h, Meet(h, x))
  }

  /** Two harts about to start, after any number of iterations that each has already done with some partner. */
  ghost predicate IsInitial<T>(s: State<T>) {
    && TwoHarts(s) && !s.failed && s.harts[0].iter == s.harts[1].iter
    && forall h :: 0 <= h < 2 ==>
      var x := s.harts[h]; x.phase == Setup && x.pc == Start(h, Setup) && x.last == s.signals[h] == 3 * x.iter
  }

  ghost function Run<T>(test: Test<T>, s: State<T>, order: seq<nat>): (r: State<T>)
    requires TwoHarts(s) && forall k :: 0 <= k < |order| ==> order[k] < 2
    ensures TwoHarts(r)
  {
    if order == [] then s else Step(test, Run(test, s, order[..|order| - 1]), order[|order| - 1])
  }

  // ---- meeting ------------------------------------------------------------------------------------------

  /** Stretches finished by a hart. */
  function Meetings<T>(x: Hart<T>): nat {
    3 * x.iter + match x.phase case Setup => 0 case Act => 1 case Verify => 2
  }

  ghost predicate Plausible<T>(h: nat, x: Hart<T>) {
    match x.pc
    case Initialise => x.phase == Setup && h == 0
    case Publish => x.phase == Setup
    case Operate => x.phase == Act
    case Restore => x.phase == Act
    case Load => x.phase == Verify && h == 0
    case Check => x.phase == Verify && h == 0
    case _ => true
  }

  /** The counter tells how far hart `h` is, and the partner has signalled every meeting it left. */
  ghost predicate HartInStep<T>(s: State<T>, h: nat)
    requires TwoHarts(s) && h < 2
  {
    var x := s.harts[h];
    && Plausible(h, x) && x.last == Meetings(x)
    && s.signals[h] == Meetings(x) + (if x.pc == Wait then 1 else 0)
    && Meetings(x) <= s.signals[1 - h]
  }

  ghost predicate InStep<T>(s: State<T>) {
    TwoHarts(s) && HartInStep(s, 0) && HartInStep(s, 1)
  }

  lemma MeetCounts<T>(h: nat, x: Hart<T>)
    ensures Meetings(Meet(h, x)) == Meetings(x) + 1 && Plausible(h, Meet(h, x)) && Meet(h, x).pc != Wait
  {
  }

  lemma OwnStep<T>(test: Test<T>, s: State<T>, h: nat)
    requires InStep(s) && h < 2
    ensures HartInStep(Step(test, s, h), h)
  {
    hide Meet;
    MeetCounts(h, s.harts[h]);
    MeetAdvances(h, s.harts[h]);
  }

  lemma MeetAdvances<T>(h: nat, x: Hart<T>)
    ensures Meet(h, x).last == x.last + 1
  {
  }

  lemma PartnerStep<T>(test: Test<T>, s: State<T>, h: nat)
    requires InStep(s) && h < 2
    ensures HartInStep(Step(test, s, h), 1 - h)
  {
    hide Meet, Meetings, Plausible;
  }

  lemma StaysInStep<T>(test: Test<T>, s: State<T>, h: nat)
    requires InStep(s) && h < 2
    ensures InStep(Step(test, s, h))
  {
    hide HartInStep, Step;
    OwnStep(test, s, h);
    PartnerStep(test, s, h);
  }

  // ---- data -----------------------------------------------------------------------------------------------

  /** The operand of this iteration is out. */
  predicate Published<T>(x: Hart<T>) {
    !(x.pc == Initialise || x.pc == Publish)
  }

  /** The AMO of this iteration is done. */
  predicate Operated<T>(x: Hart<T>) {
    x.phase == Verify || (x.phase == Act && x.pc != Operate)
  }

  /** Nothing of this iteration matters to the left hart any more. */
  predicate Checked<T>(x: Hart<T>) {
    x.phase == Verify && (x.pc == Signal || x.pc == Wait)
  }

  /** Both AMOs ran on the initial value, in one order or the other. */
  ghost predicate BothRan<T>(test: Test<T>, k: nat, left: T, right: T, word: T) {
    var a, b := test.rand(0, k), test.rand(1, k);
    var (w0, a0) := test.op(test.initval, a);
    var (w1, b1) := test.op(test.initval, b);
    ((word, right) == test.op(w0, b) && left == a0) || ((word, left) == test.op(w1, a) && right == b1)
  }

  /** From the left hart's store of the initial value to its check, the word and the operands are what the AMOs
      of this iteration made of them. */
  ghost predicate WordOk<T>(test: Test<T>, s: State<T>)
    requires TwoHarts(s)
  {
    var x, y := s.harts[0], s.harts[1];
    x.pc != Initialise && !Checked(x) ==>
      var r := y.iter == x.iter && Operated(y);
      if Operated(x) && r then BothRan(test, x.iter, x.operand, y.operand, s.word)
      else if Operated(x) then (s.word, x.operand) == test.op(test.initval, test.rand(0, x.iter))
      else if r then (s.word, y.operand) == test.op(test.initval, test.rand(1, x.iter))
      else s.word == test.initval
  }

  ghost predicate OperandOk<T>(test: Test<T>, s: State<T>, h: nat)
    requires TwoHarts(s) && h < 2
  {
    var x := s.harts[h];
    && (Published(x) && !Operated(x) ==> x.operand == test.rand(h, x.iter))
    && (Published(x) && x.pc != Restore ==> s.operands[h] == x.operand)
  }

  ghost predicate SeenOk<T>(s: State<T>)
    requires TwoHarts(s)
  {
    s.harts[0].pc == Check ==> s.harts[0].seen == s.harts[1].operand
  }

  ghost predicate Inv<T>(test: Test<T>, s: State<T>) {
    InStep(s) && WordOk(test, s) && OperandOk(test, s, 0) && OperandOk(test, s, 1) && SeenOk(s) && !s.failed
  }

  /** An operand that is not stored again comes back unchanged. */
  ghost predicate Keeps<T(!new)>(test: Test<T>) {
    test.stores || forall w, v :: test.op(w, v).1 == v
  }

  /** The check accepts everything the two AMOs can leave behind, in either order. */
  ghost predicate AcceptsOutcomes<T(!new)>(test: Test<T>) {
    forall k: nat, left, right, word :: BothRan(test, k, left, right, word) ==> test.accepts(left, right, word)
  }

  ghost predicate Agrees<T(!new)>(test: Test<T>) {
    AcceptsOutcomes(test) && Keeps(test)
  }

  lemma InitialOk<T>(test: Test<T>, s: State<T>)
    requires IsInitial(s)
    ensures Inv(test, s)
  {
  }

  /** Who is where while hart `h` works. */
  lemma PartnerIsNear<T>(s: State<T>, h: nat)
    requires InStep(s) && h < 2 && s.harts[h].pc != Wait
    ensures var x, y := s.harts[h], s.harts[1 - h];
      Meetings(y) == Meetings(x) || (Meetings(y) + 1 == Meetings(x) && y.pc == Wait)
  {
    hide Meetings;
    assert HartInStep(s, h) && HartInStep(s, 1 - h);
  }

  lemma OperateOk<T>(test: Test<T>, s: State<T>, h: nat)
    requires Inv(test, s) && h < 2 && s.harts[h].pc == Operate
    ensures WordOk(test, Step(test, s, h))
  {
    PartnerIsNear(s, h);
  }

  lemma WordStays<T>(test: Test<T>, s: State<T>, h: nat)
    requires Inv(test, s) && h < 2 && s.harts[h].pc != Operate
    ensures WordOk(test, Step(test, s, h))
  {
    hide BothRan;
    if s.harts[h].pc != Wait {
      PartnerIsNear(s, h);
    } else if s.harts[1 - h].pc != Wait {
      PartnerIsNear(s, 1 - h);
    }
  }

  lemma CheckOk<T(!new)>(test: Test<T>, s: State<T>)
    requires Inv(test, s) && Agrees(test) && s.harts[0].pc == Check
    ensures !Step(test, s, 0).failed
  {
    hide BothRan;
    PartnerIsNear(s, 0);
  }

  lemma SeenStays<T>(test: Test<T>, s: State<T>, h: nat)
    requires Inv(test, s) && h < 2
    ensures SeenOk(Step(test, s, h))
  {
    hide WordOk;
    if s.harts[0].pc == Load || s.harts[0].pc == Check {
      PartnerIsNear(s, 0);
    }
  }

  lemma OperandStays<T(!new)>(test: Test<T>, s: State<T>, h: nat, g: nat)
    requires Inv(test, s) && Agrees(test) && h < 2 && g < 2
    ensures OperandOk(test, Step(test, s, h), g)
  {
    hide WordOk, BothRan, Meetings;
  }

  lemma StepOk<T(!new)>(test: Test<T>, s: State<T>, h: nat)
    requires Inv(test, s) && Agrees(test) && h < 2
    ensures Inv(test, Step(test, s, h))
  {
    hide HartInStep, WordOk, OperandOk, Agrees, SeenOk;
    StaysInStep(test, s, h);
    OperandStays(test, s, h, 0);
    OperandStays(test, s, h, 1);
    SeenStays(test, s, h);
    if s.harts[h].pc == Operate {
      OperateOk(test, s, h);
    } else {
      WordStays(test, s, h);
    }
    assert h == 0 || Plausible(1, s.harts[1]) by { RightIsPlausible(s); }
    if h == 0 && s.harts[0].pc == Check {
      CheckOk(test, s);
    }
  }

  lemma RightIsPlausible<T>(s: State<T>)
    requires InStep(s)
    ensures Plausible(1, s.harts[1])
  {
  }

  // ---- what the test promises --------------------------------------------------------------------------------

  /** In no interleaving does the left hart report an error. */
  lemma {:induction false} NeverFails<T(!new)>(test: Test<T>, s: State<T>, order: seq<nat>)
    requires IsInitial(s) && Agrees(test) && forall k :: 0 <= k < |order| ==> order[k] < 2
    ensures Inv(test, Run(test, s, order)) && !Run(test, s, order).failed
  {
    hide Inv, Step, Agrees;
    if order == [] {
      InitialOk(test, s);
    } else {
      NeverFails(test, s, order[..|order| - 1]);
      StepOk(test, Run(test, s, order[..|order| - 1]), order[|order| - 1]);
    }
    InvMeans(test, Run(test, s, order));
  }

  lemma InvMeans<T>(test: Test<T>, s: State<T>)
    requires Inv(test, s)
    ensures !s.failed
  {
  }

  lemma {:induction false} RunInStep<T>(test: Test<T>, s: State<T>, order: seq<nat>)
    requires IsInitial(s) && forall k :: 0 <= k < |order| ==> order[k] < 2
    ensures InStep(Run(test, s, order))
  {
    hide HartInStep, Step;
    if order == [] {
      InitialOk(test, s);
    } else {
      RunInStep(test, s, order[..|order| - 1]);
      StaysInStep(test, Run(test, s, order[..|order| - 1]), order[|order| - 1]);
    }
  }

  /** Whatever the operation and the check, the harts are never more than one stretch apart. */
  lemma StayClose<T>(test: Test<T>, s: State<T>, order: seq<nat>)
    requires IsInitial(s) && forall k :: 0 <= k < |order| ==> order[k] < 2
    ensures var r := Run(test, s, order);
      Meetings(r.harts[0]) <= Meetings(r.harts[1]) + 1 && Meetings(r.harts[1]) <= Meetings(r.harts[0]) + 1
  {
    hide Run, Meetings, Plausible;
    RunInStep(test, s, order);
  }
}

/** The pairwise tests are as sharp as they can be: a test reports an error in some interleaving if and only if its
    check rejects one of the two outcomes the operations can have. So a unit that computes something else is found.
    */
module PairedFaults {
  import opened HartSets
  import opened PairedTest

  /** Some interleaving reports an error. */
  ghost predicate CanFail<T(!new)>(test: Test<T>) {
    exists s: State<T>, order: seq<nat> :: IsInitial(s) && Schedule(2, order) && Run(test, s, order).failed
  }

  lemma RunSnoc<T>(test: Test<T>, s: State<T>, order: seq<nat>, h: nat)
    requires TwoHarts(s) && Schedule(2, order) && h < 2
    ensures Schedule(2, order + [h]) && Run(test, s, order + [h]) == Step(test, Run(test, s, order), h)
  {
    assert (order + [h])[..|order|] == order;
  }

  lemma NoSteps<T>(test: Test<T>, s: State<T>)
    requires TwoHarts(s)
    ensures Run(test, s, []) == s
  {
  }

  lemma OneStep<T>(test: Test<T>, s: State<T>, order: seq<nat>, h: nat) returns (more: seq<nat>)
    requires TwoHarts(s) && Schedule(2, order) && h < 2
    ensures Schedule(2, more) && Run(test, s, more) == Step(test, Run(test, s, order), h)
  {
    hide Run, Step;
    RunSnoc(test, s, order, h);
    more := order + [h];
  }

  lemma TwoSteps<T>(test: Test<T>, s: State<T>, order: seq<nat>, g: nat, h: nat) returns (more: seq<nat>)
    requires TwoHarts(s) && Schedule(2, order) && g < 2 && h < 2
    ensures Schedule(2, more) && Run(test, s, more) == Step(test, Step(test, Run(test, s, order), g), h)
  {
    hide Run, Step;
    more := OneStep(test, s, order, g);
    more := OneStep(test, s, more, h);
  }

  lemma {:induction false} RunAppend<T>(test: Test<T>, s: State<T>, a: seq<nat>, b: seq<nat>)
    requires TwoHarts(s) && Schedule(2, a) && Schedule(2, b)
    ensures Schedule(2, a + b) && Run(test, s, a + b) == Run(test, Run(test, s, a), b)
  {
    hide Step;
    if b == [] {
      assert a + b == a;
    } else {
      var n := |b| - 1;
      RunAppend(test, s, a, b[..n]);
      RunSnoc(test, s, a + b[..n], b[n]);
      assert a + b[..n] + [b[n]] == a + b && b[..n] + [b[n]] == b;
      RunSnoc(test, Run(test, s, a), b[..n], b[n]);
    }
  }

  // ---- one iteration, in the order of our choice ------------------------------------------------------------------

  /** Both harts are in iteration `k`, at `pc` of a stretch, `m` meetings done. */
  ghost predicate Abreast<T>(s: State<T>, k: nat, phase: Phase, m: nat) {
    && TwoHarts(s) && !s.failed
    && forall h :: 0 <= h < 2 ==>
      var x := s.harts[h]; x.iter == k && x.phase == phase && x.last == s.signals[h] == m && x.pc == Start(h, phase)
  }

  /** Setup up to the first meeting. */
  lemma SetUp<T>(test: Test<T>, s: State<T>, k: nat) returns (order: seq<nat>)
    requires IsInitial(s) && s.harts[0].iter == k
    ensures Schedule(2, order)
    ensures var r := Run(test, s, order);
      && Abreast(r, k, Act, 3 * k + 1) && r.word == test.initval
      && forall h :: 0 <= h < 2 ==> r.harts[h].operand == test.rand(h, k) && r.operands[h] == test.rand(h, k)
  {
    hide Run;
    var s1 := Step(test, s, 0);
    var s2 := Step(test, s1, 0);
    var s3 := Step(test, s2, 0);
    var s4 := Step(test, s3, 1);
    var s5 := Step(test, s4, 1);
    order := TwoSteps(test, s, [], 0, 0);
    order := TwoSteps(test, s, order, 0, 1);
    order := TwoSteps(test, s, order, 1, 0);
    order := OneStep(test, s, order, 1);
    NoSteps(test, s);
  }

  /** Hart `h` performs its operation and is about to signal. */
  lemma Performs<T(!new)>(test: Test<T>, s: State<T>, h: nat) returns (order: seq<nat>)
    requires TwoHarts(s) && h < 2 && s.harts[h].pc == Operate && s.operands[h] == s.harts[h].operand && Keeps(test)
    ensures Schedule(2, order)
    ensures var r, (word, operand) := Run(test, s, order), test.op(s.word, s.harts[h].operand);
      && r.word == word && r.failed == s.failed && r.signals == s.signals
      && r.harts == s.harts[h := s.harts[h].(operand := operand, pc := Signal)]
      && r.operands == s.operands[h := operand]
  {
    hide Run;
    NoSteps(test, s);
    order := OneStep(test, s, [], h);
    if test.stores {
      order := OneStep(test, s, order, h);
    }
    var r := Run(test, s, order);
    assert r.harts == s.harts[h := s.harts[h].(operand := test.op(s.word, s.harts[h].operand).1, pc := Signal)];
    assert r.operands == s.operands[h := test.op(s.word, s.harts[h].operand).1];
  }

  /** From both operations done to the left hart's verdict. */
  lemma Judges<T>(test: Test<T>, s: State<T>, k: nat) returns (order: seq<nat>)
    requires TwoHarts(s) && !s.failed && s.signals[0] == s.signals[1] == s.harts[0].last == 3 * k + 1
    requires s.harts[0].pc == s.harts[1].pc == Signal && s.harts[0].phase == Act && s.operands[1] == s.harts[1].operand
    ensures Schedule(2, order)
    ensures Run(test, s, order).failed == !test.accepts(s.harts[0].operand, s.harts[1].operand, s.word)
  {
    hide Run;
    order := TwoSteps(test, s, [], 0, 1);
    order := TwoSteps(test, s, order, 0, 0);
    order := OneStep(test, s, order, 0);
    NoSteps(test, s);
  }

  /** An iteration in which hart `h` operates first. */
  lemma Iteration<T(!new)>(test: Test<T>, s: State<T>, k: nat, h: nat) returns (order: seq<nat>)
    requires IsInitial(s) && s.harts[0].iter == k && h < 2 && Keeps(test)
    ensures Schedule(2, order)
    ensures var (w, x) := test.op(test.initval, test.rand(h, k)); var (word, y) := test.op(w, test.rand(1 - h, k));
      Run(test, s, order).failed == !test.accepts(if h == 0 then x else y, if h == 0 then y else x, word)
  {
    hide Run, Step, Keeps;
    var a := SetUp(test, s, k);
    var s1 := Run(test, s, a);
    var b := Performs(test, s1, h);
    var s2 := Run(test, s1, b);
    var c := Performs(test, s2, 1 - h);
    var s3 := Run(test, s2, c);
    var d := Judges(test, s3, k);
    RunAppend(test, s, a, b);
    RunAppend(test, s, a + b, c);
    RunAppend(test, s, a + b + c, d);
    order := a + b + c + d;
  }

  /** Two harts about to start iteration `k`. */
  ghost function Fresh<T>(k: nat, v: T): State<T> {
    State(v, [v, v], [3 * k, 3 * k],
          [Hart(k, Setup, Initialise, 3 * k, v, v), Hart(k, Setup, Publish, 3 * k, v, v)], false)
  }

  /** An outcome the check rejects comes about in some interleaving. */
  lemma RejectedOutcome<T(!new)>(test: Test<T>, k: nat, left: T, right: T, word: T)
    requires Keeps(test) && BothRan(test, k, left, right, word) && !test.accepts(left, right, word)
    ensures CanFail(test)
  {
    hide Run, Keeps;
    var s := Fresh(k, test.initval);
    var a := Iteration(test, s, k, 0);
    var b := Iteration(test, s, k, 1);
    assert Run(test, s, a).failed || Run(test, s, b).failed;
  }

  /** A test can report an error if and only if its check rejects something the two operations can leave behind. */
  lemma FailsExactly<T(!new)>(test: Test<T>)
    requires Keeps(test)
    ensures CanFail(test) <==> !AcceptsOutcomes(test)
  {
    hide Run, BothRan;
    if !AcceptsOutcomes(test) {
      var k: nat, left, right, word :| BothRan(test, k, left, right, word) && !test.accepts(left, right, word);
      RejectedOutcome(test, k, left, right, word);
    } else if CanFail(test) {
      var s: State<T>, order: seq<nat> :| IsInitial(s) && Schedule(2, order) && Run(test, s, order).failed;
      NeverFails(test, s, order);
    }
  }
}

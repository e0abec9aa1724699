/** The coherency checker reports what it finds: from any memory contents, a wrong word or payload at a check leads
    to the failed flag in every interleaving, unless the check belongs to the last circuit, whose errors the program
    drops. */
module CoherencyFaults {
  import opened CoherencyChecker
  import opened HartSets
  import opened Words

  /** Errors are counted for exactly the words that differ. */
  lemma {:induction false} WrongWordsFound(tmp: seq<Word>, base: Word)
    ensures WrongWords(tmp, base) > 0 <==> exists i :: 0 <= i < |tmp| && tmp[i] != base
    ensures WrongWords(tmp, base) <= |tmp|
  {
    if tmp != [] {
      WrongWordsFound(tmp[1..], base);
      if i :| 0 <= i < |tmp[1..]| && tmp[1..][i] != base {
        assert tmp[i + 1] != base;
      }
      if i :| 0 <= i < |tmp| && tmp[i] != base && tmp[0] == base {
        assert tmp[1..][i - 1] != base;
      }
    }
  }

  /** Own steps left until a hart that has counted an error reports it; 0 when it is not on its way. */
  function StepsToReport(x: Hart): nat {
    if x.pc.Fail? then 1
    else if x.errors > 0 && x.pc.Hold? && x.pc.hold.Own? then
      match x.pc.hold.own
      case CheckPayload => 0
      case CheckPrivate => 10
      case CheckHops => 9
      case CountCircuit => 8
      case LoadCircuits => 7
      case StopNow => 0
      case ResetHops => 6
      case ResetLimit => 5
      case ResetPayload => 4
      case ResetPrivate => 3
      case Restart => 2
    else 0
  }

  /** The hart is about to end the test. */
  predicate AtStop(x: Hart) {
    x.pc == Hold(Own(StopNow))
  }

  lemma OtherStep(p: Params, s: State, h: nat, g: nat)
    requires Shape(p, s) && h < p.rows && g < p.rows && g != h
    ensures Step(p, s, g).harts[h] == s.harts[h] && (s.failed ==> Step(p, s, g).failed)
  {
    hide InitStep, HoldStep;
  }

  lemma FailedStays(p: Params, s: State, g: nat)
    requires Shape(p, s) && g < p.rows && s.failed
    ensures Step(p, s, g).failed
  {
    hide InitStep, HoldStep;
  }

  /** A hart on its way to report gets closer with every step of its own. */
  lemma OwnStepReports(p: Params, s: State, h: nat)
    requires Shape(p, s) && h < p.rows && StepsToReport(s.harts[h]) > 0
    ensures var t := Step(p, s, h);
      || t.failed || AtStop(t.harts[h])
      || 0 < StepsToReport(t.harts[h]) < StepsToReport(s.harts[h])
  {
  }

  /** How often hart `h` steps. */
  function StepsOf(order: seq<nat>, h: nat): nat {
    if order == [] then 0 else StepsOf(order[..|order| - 1], h) + if order[|order| - 1] == h then 1 else 0
  }

  /** Somewhere along the way hart `h` is about to end the test. */
  ghost predicate Stops(p: Params, s: State, order: seq<nat>, h: nat)
    requires Shape(p, s) && Schedule(p.rows, order) && h < p.rows
  {
    exists n: nat :: n <= |order| && AtStop(Run(p, s, order[..n]).harts[h])
  }

  lemma StopsStill(p: Params, s: State, order: seq<nat>, h: nat)
    requires Shape(p, s) && Schedule(p.rows, order) && h < p.rows && order != []
    requires Stops(p, s, order[..|order| - 1], h) || AtStop(Run(p, s, order).harts[h])
    ensures Stops(p, s, order, h)
  {
    hide Run, AtStop;
    var pre := order[..|order| - 1];
    if Stops(p, s, pre, h) {
      var n: nat :| n <= |pre| && AtStop(Run(p, s, pre[..n]).harts[h]);
      assert pre[..n] == order[..n];
    } else {
      assert order[..|order|] == order;
    }
  }

  /** From there on, in every interleaving. */
  lemma {:induction false} OnTheWay(p: Params, s: State, order: seq<nat>, h: nat)
    requires Shape(p, s) && Schedule(p.rows, order) && h < p.rows && StepsToReport(s.harts[h]) > 0
    ensures var t := Run(p, s, order);
      || t.failed || Stops(p, s, order, h)
      || (StepsToReport(t.harts[h]) > 0 && StepsToReport(t.harts[h]) + StepsOf(order, h) <= StepsToReport(s.harts[h]))
  {
    hide Step, Stops, AtStop, StepsToReport;
    if order != [] {
      var pre, g := order[..|order| - 1], order[|order| - 1];
      OnTheWay(p, s, pre, h);
      var r := Run(p, s, pre);
      if Stops(p, s, pre, h) {
        StopsStill(p, s, order, h);
      } else if r.failed {
        FailedStays(p, r, g);
      } else if g != h {
        OtherStep(p, r, h, g);
      } else {
        OwnStepReports(p, r, h);
        if AtStop(Step(p, r, h).harts[h]) {
          StopsStill(p, s, order, h);
        }
      }
    }
  }

  /** A saved word or a payload that the check finds wrong. */
  ghost predicate FindsWrong(p: Params, s: State, h: nat)
    requires Shape(p, s) && h < p.rows
  {
    var x := s.harts[h];
    || (x.pc == Hold(Own(CheckPayload)) && exists i :: 0 <= i < |x.tmp| && x.tmp[i] != p.data(x.row))
    || (x.pc == Hold(Own(CheckHops)) && x.word != (x.number + s.rows[x.row].numHops) % WORDS)
  }

  lemma FindsAndCounts(p: Params, s: State, h: nat)
    requires Shape(p, s) && h < p.rows && FindsWrong(p, s, h)
    ensures 0 < StepsToReport(Step(p, s, h).harts[h]) <= 10
  {
    WrongWordsFound(s.harts[h].tmp, p.data(s.harts[h].row));
  }

  /** Once a check has found something wrong, ten more steps of that hart, however interleaved, set the failed flag,
      unless it was about to end the test. */
  lemma FaultIsReported(p: Params, s: State, order: seq<nat>, h: nat)
    requires Shape(p, s) && Schedule(p.rows, order) && h < p.rows && FindsWrong(p, s, h) && StepsOf(order, h) >= 10
    ensures Run(p, Step(p, s, h), order).failed || Stops(p, Step(p, s, h), order, h)
  {
    hide Run, Step, Stops, StepsToReport, FindsWrong, Shape;
    FindsAndCounts(p, s, h);
    OnTheWay(p, Step(p, s, h), order, h);
  }
}

/** What a circuit breaker's counter means: the streak of failures whose codes match what is stored. */
module Circuits {
  import opened Tables
  import opened Records
  import opened Limits
  import opened Controls

  /** A run of the breaker's worker and profile has finished, or an operator reset the breaker. */
  datatype Mark = Finished(run: Run, limits: ControlLimits, now: Time) | Reset

  function After(circuit: Circuit, mark: Mark): Circuit {
    match mark
    case Finished(run, limits, now) => Tripped(circuit, run, limits, now)
    case Reset => FRESH_CIRCUIT
  }

  /** A breaker after further verdicts. */
  function Onto(circuit: Circuit, marks: seq<Mark>): Circuit {
    if marks == [] then circuit else After(Onto(circuit, marks[..|marks| - 1]), marks[|marks| - 1])
  }

  function Fold(marks: seq<Mark>): Circuit {
    Onto(FRESH_CIRCUIT, marks)
  }

  lemma {:induction false} OntoSplit(circuit: Circuit, a: seq<Mark>, b: seq<Mark>)
    ensures Onto(circuit, a + b) == Onto(Onto(circuit, a), b)
  {
    if b == [] {
      assert a + b == a;
    } else {
      assert (a + b)[..|a + b| - 1] == a + b[..|b| - 1];
      OntoSplit(circuit, a, b[..|b| - 1]);
    }
  }

  predicate Fails(mark: Mark) {
    mark.Finished? && mark.run.status in {Failed, TimedOut}
  }

  predicate Clears(mark: Mark) {
    mark.Reset? || mark.run.status == Completed
  }

  // ---- The counter ----------------------------------------------------------------------------

  /** The failed runs since the last success or reset, in order. */
  function Since(marks: seq<Mark>): seq<Run> {
    if marks == [] then []
    else
      var last := marks[|marks| - 1];
      if Clears(last) then []
      else if Fails(last) then Since(marks[..|marks| - 1]) + [last.run]
      else Since(marks[..|marks| - 1])
  }

  /** What a breaker remembers of its failures: nothing until one of them has a code, then the last one's label. */
  function Remembered(failures: seq<Run>): Option<string> {
    if forall run :: run in failures ==> run.errorCode.None? then None
    else
      var last := failures[|failures| - 1];
      Some(OrElse(last.errorCode, StatusName(last.status)))
  }

  /** The `j`-th failure carries exactly the code that was remembered of those before it. */
  predicate Repeats(failures: seq<Run>, j: nat)
    requires j < |failures|
  {
    failures[j].errorCode == Remembered(failures[..j])
  }

  /** The longest stretch at the end in which every failure but the first repeats; it begins at `s`. */
  ghost predicate Stretch(failures: seq<Run>, s: nat) {
    && s <= |failures| && (failures != [] ==> s < |failures|)
    && (forall j :: s < j < |failures| ==> Repeats(failures, j))
    && (0 < s < |failures| ==> !Repeats(failures, s))
  }

  lemma RememberedNext(failures: seq<Run>, run: Run)
    ensures Remembered(failures + [run]) ==
            if Remembered(failures).None? && run.errorCode.None? then None
            else Some(OrElse(run.errorCode, StatusName(run.status)))
  {
    var more := failures + [run];
    assert more[|failures|] == run;
    if run.errorCode.None? && forall r :: r in failures ==> r.errorCode.None? {
      assert forall r :: r in more ==> r in failures || r == run;
    } else if r :| r in failures && r.errorCode.Some? {
      assert r in more;
    } else {
      assert run in more;
    }
  }

  lemma StretchNext(failures: seq<Run>, run: Run, s: nat) returns (t: nat)
    requires Stretch(failures, s)
    ensures Stretch(failures + [run], t)
    ensures t == if failures != [] && run.errorCode == Remembered(failures) then s else |failures|
  {
    var more := failures + [run];
    t := if failures != [] && run.errorCode == Remembered(failures) then s else |failures|;
    forall j | 0 <= j < |more| ensures Repeats(more, j) == if j < |failures| then Repeats(failures, j)
                                                            else run.errorCode == Remembered(failures) {
      assert more[..j] == if j < |failures| then failures[..j] else failures;
    }
  }

  lemma TrippedCounter(circuit: Circuit, mark: Mark, after: Circuit)
    requires after == After(circuit, mark)
    ensures Clears(mark) ==> after == FRESH_CIRCUIT
    ensures Fails(mark) ==>
              && after.failures == (if mark.run.errorCode == circuit.lastError then circuit.failures + 1 else 1)
              && after.lastError == (if mark.run.errorCode == circuit.lastError then circuit.lastError
                                     else Some(OrElse(mark.run.errorCode, StatusName(mark.run.status))))
    ensures !Clears(mark) && !Fails(mark) ==> after == circuit
  {
  }

  /** No code that was stored is empty. */
  lemma RememberedCodes(failures: seq<Run>)
    ensures Remembered(failures) != Some("")
  {
  }

  /**
    The breaker counts the failures of the longest stretch, since the last success or reset, in which each
    failure carries the code remembered of the ones before it.
   */
  lemma {:induction false} CounterIsTheStretch(marks: seq<Mark>) returns (s: nat)
    ensures Stretch(Since(marks), s) && Fold(marks).failures == |Since(marks)| - s
    ensures Fold(marks).lastError == Remembered(Since(marks))
  {
    if marks == [] {
      s := 0;
    } else {
      var init, last := marks[..|marks| - 1], marks[|marks| - 1];
      s := CounterIsTheStretch(init);
      TrippedCounter(Fold(init), last, Fold(marks));
      if Clears(last) {
        s := 0;
      } else if Fails(last) {
        RememberedNext(Since(init), last.run);
        RememberedCodes(Since(init));
        s := StretchNext(Since(init), last.run, s);
      }
    }
  }

  /** Where every failure has a code, repeating means having the code of the failure before. */
  lemma CodedRepeats(failures: seq<Run>, j: nat)
    requires 0 < j < |failures|
    requires forall run :: run in failures ==> run.errorCode.Some? && run.errorCode.value != ""
    ensures Repeats(failures, j) <==> failures[j].errorCode == failures[j - 1].errorCode
  {
    assert failures[..j][j - 1] in failures;
  }

  // ---- Failures without a code ----------------------------------------------------------------

  predicate Codeless(mark: Mark) {
    Fails(mark) && mark.run.errorCode.None?
  }

  /**
    Failures without an error code add up only on a breaker that remembers no code. On any other each of
    them counts as the first, because the status stored in place of the missing code never matches the next.
   */
  lemma {:induction false} CodelessCount(circuit: Circuit, marks: seq<Mark>)
    requires marks != [] && forall i :: 0 <= i < |marks| ==> Codeless(marks[i])
    ensures Onto(circuit, marks).failures == if circuit.lastError.None? then circuit.failures + |marks| else 1
    ensures Onto(circuit, marks).lastError.None? <==> circuit.lastError.None?
  {
    var init, last := marks[..|marks| - 1], marks[|marks| - 1];
    if init != [] {
      CodelessCount(circuit, init);
    }
    TrippedCounter(Onto(circuit, init), last, Onto(circuit, marks));
  }

  lemma OpensNow(circuit: Circuit, mark: Mark)
    requires Fails(mark)
    ensures After(circuit, mark).open <==> circuit.open || After(circuit, mark).failures >= mark.limits.circuitThreshold
  {
  }

  /** The threshold in force at the `k`-th of these failures is no more than it makes the breaker count. */
  predicate CodelessTrip(circuit: Circuit, marks: seq<Mark>, k: nat) {
    && k < |marks| && marks[k].Finished?
    && marks[k].limits.circuitThreshold <= if circuit.lastError.None? then circuit.failures + k + 1 else 1
  }

  /**
    So a sequence of them opens the breaker exactly when it was open already or the threshold is reached: at
    the `k`-th on a breaker that remembers no code, but on any other only by a threshold of one.
   */
  lemma {:induction false} CodelessOpens(circuit: Circuit, marks: seq<Mark>)
    requires forall i :: 0 <= i < |marks| ==> Codeless(marks[i])
    ensures Onto(circuit, marks).open <==>
              circuit.open || exists k: nat :: CodelessTrip(circuit, marks, k)
  {
    if marks != [] {
      var n := |marks| - 1;
      var init := marks[..n];
      CodelessOpens(circuit, init);
      CodelessCount(circuit, marks);
      OpensNow(Onto(circuit, init), marks[n]);
      assert forall k: nat :: k < n ==> CodelessTrip(circuit, marks, k) == CodelessTrip(circuit, init, k);
      assert CodelessTrip(circuit, marks, n) <==>
             Onto(circuit, marks).failures >= marks[n].limits.circuitThreshold;
    }
  }

  // ---- Opening --------------------------------------------------------------------------------

  /** Since `k`, nothing cleared the breaker. */
  ghost predicate Uncleared(marks: seq<Mark>, k: nat) {
    forall i :: k <= i < |marks| ==> !Clears(marks[i])
  }

  /** The breaker reached its threshold at mark `k`. */
  ghost predicate TripsAt(marks: seq<Mark>, k: nat) {
    k < |marks| && Fails(marks[k]) && Fold(marks[..k + 1]).failures >= marks[k].limits.circuitThreshold
  }

  /** A breaker is open exactly when it reached its threshold and no success or reset came after. */
  lemma {:induction false} OpenExactly(marks: seq<Mark>)
    ensures Fold(marks).open <==> exists k: nat :: TripsAt(marks, k) && Uncleared(marks, k)
  {
    if marks != [] {
      var n := |marks| - 1;
      var init, last := marks[..n], marks[n];
      OpenExactly(init);
      assert marks[..n + 1] == marks;
      if Fold(marks).open {
        if Fails(last) && Fold(marks).failures >= last.limits.circuitThreshold {
          assert TripsAt(marks, n) && Uncleared(marks, n);
        } else {
          var k: nat :| TripsAt(init, k) && Uncleared(init, k);
          assert init[..k + 1] == marks[..k + 1];
          assert TripsAt(marks, k) && Uncleared(marks, k);
        }
      }
      if k: nat :| TripsAt(marks, k) && Uncleared(marks, k) {
        if k < n {
          assert init[..k + 1] == marks[..k + 1];
          assert TripsAt(init, k) && Uncleared(init, k);
        }
      }
    }
  }
}

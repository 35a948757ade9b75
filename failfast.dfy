/** The fail-fast chain of MSV_RETURN_FAILED: a sequence of calls made in order,
    stopping at the first whose code fails, and returning that code (or success). */
module FailFast {
  import opened ErrorCodes
  import opened Collaborators

  /** `run` is exactly what a fail-fast chain over `steps` issues: a prefix of the
      steps, every call but the last answered without failure, and the chain stops
      early only at a failure. */
  ghost predicate IsChain(t: FailureTest, steps: seq<Request>, run: seq<Call>) {
    |run| <= |steps|
    && (forall i | 0 <= i < |run| :: run[i].request == steps[i])
    && (forall i | 0 <= i < |run| - 1 :: !IsFailed(t, run[i].code))
    && (|run| < |steps| ==> |run| > 0 && IsFailed(t, run[|run| - 1].code))
  }

  /** The code a fail-fast chain returns: the failing code that stopped it, else success. */
  function ChainResult(t: FailureTest, run: seq<Call>): (r: ErrorCode) {
    if |run| > 0 && IsFailed(t, run[|run| - 1].code) then run[|run| - 1].code else Success
  }

  /** Index of the first failing code, or |codes| when none fails. */
  function FirstFailure(t: FailureTest, codes: seq<ErrorCode>): (k: nat)
    ensures k <= |codes|
    ensures forall i | 0 <= i < k :: !IsFailed(t, codes[i])
    ensures k < |codes| ==> IsFailed(t, codes[k])
  {
    if codes == [] then 0
    else if IsFailed(t, codes[0]) then 0
    else 1 + FirstFailure(t, codes[1..])
  }

  /** FirstFailure of a code followed by more codes. */
  lemma FirstFailureCons(t: FailureTest, a: ErrorCode, rest: seq<ErrorCode>)
    ensures FirstFailure(t, [a] + rest) == if IsFailed(t, a) then 0 else 1 + FirstFailure(t, rest)
  {
    assert ([a] + rest)[1..] == rest;
  }

  /** FirstFailure of four codes, written out. */
  lemma FirstFailureOfFour(t: FailureTest, a: ErrorCode, b: ErrorCode, c: ErrorCode, d: ErrorCode)
    ensures FirstFailure(t, [a, b, c, d]) ==
      if IsFailed(t, a) then 0 else if IsFailed(t, b) then 1 else if IsFailed(t, c) then 2 else if IsFailed(t, d) then 3 else 4
  {
    FirstFailureOfThree(t, b, c, d);
    FirstFailureCons(t, a, [b, c, d]);
    assert [a, b, c, d] == [a] + [b, c, d];
  }

  lemma FirstFailureOfThree(t: FailureTest, b: ErrorCode, c: ErrorCode, d: ErrorCode)
    ensures FirstFailure(t, [b, c, d]) ==
      if IsFailed(t, b) then 0 else if IsFailed(t, c) then 1 else if IsFailed(t, d) then 2 else 3
  {
    FirstFailureCons(t, c, [d]);
    FirstFailureCons(t, b, [c, d]);
    assert [c, d] == [c] + [d] && [b, c, d] == [b] + [c, d];
  }

  /** Reference definition: the calls issued when step i would answer answers[i]. */
  function Issue(t: FailureTest, steps: seq<Request>, answers: seq<ErrorCode>): (run: seq<Call>)
    requires |answers| == |steps|
  {
    if steps == [] then []
    else if IsFailed(t, answers[0]) then [Call(steps[0], answers[0])]
    else [Call(steps[0], answers[0])] + Issue(t, steps[1..], answers[1..])
  }

  /** The reference issue is a chain, of the length the first failure determines. */
  lemma {:induction false} IssueIsChain(t: FailureTest, steps: seq<Request>, answers: seq<ErrorCode>)
    requires |answers| == |steps|
    ensures IsChain(t, steps, Issue(t, steps, answers))
    ensures |Issue(t, steps, answers)| == if FirstFailure(t, answers) < |steps| then FirstFailure(t, answers) + 1 else |steps|
    ensures forall i | 0 <= i < |Issue(t, steps, answers)| :: Issue(t, steps, answers)[i].code == answers[i]
  {
    if steps != [] && !IsFailed(t, answers[0]) {
      IssueIsChain(t, steps[1..], answers[1..]);
    }
  }

  /** Conversely every chain is the reference issue for the answers it received
      (answers of steps never reached are arbitrary). */
  lemma {:induction false} ChainIsIssue(t: FailureTest, steps: seq<Request>, run: seq<Call>, rest: seq<ErrorCode>)
    requires IsChain(t, steps, run)
    requires |rest| == |steps| - |run|
    ensures Issue(t, steps, seq(|run|, i requires 0 <= i < |run| => run[i].code) + rest) == run
  {
    var answers := seq(|run|, i requires 0 <= i < |run| => run[i].code) + rest;
    if steps == [] {
    } else if |run| == 0 {
      assert false;
    } else if IsFailed(t, answers[0]) {
      assert |run| == 1;
    } else {
      var tail := run[1..];
      assert IsChain(t, steps[1..], tail);
      ChainIsIssue(t, steps[1..], tail, rest);
      assert answers[1..] == seq(|tail|, i requires 0 <= i < |tail| => tail[i].code) + rest;
      assert run == [Call(steps[0], answers[0])] + tail;
    }
  }

  /** A chain's result fails exactly when one of its calls failed, and a chain that
      does not fail ran every step and returns success. */
  lemma ChainResultMeaning(t: FailureTest, steps: seq<Request>, run: seq<Call>)
    requires IsChain(t, steps, run)
    ensures IsFailed(t, ChainResult(t, run)) <==> exists i | 0 <= i < |run| :: IsFailed(t, run[i].code)
    ensures !IsFailed(t, ChainResult(t, run)) ==> ChainResult(t, run) == Success && |run| == |steps|
  {
    if exists i | 0 <= i < |run| :: IsFailed(t, run[i].code) {
      var i :| 0 <= i < |run| && IsFailed(t, run[i].code);
      assert i == |run| - 1;
    }
  }

  /** A fail-fast chain in progress: a prefix of the steps, each answered without failure. */
  ghost predicate Progress(t: FailureTest, steps: seq<Request>, run: seq<Call>) {
    |run| <= |steps|
    && forall i | 0 <= i < |run| :: run[i].request == steps[i] && !IsFailed(t, run[i].code)
  }

  /** The outcome of a fail-fast chain whose steps can also be refused before their call
      is made, with a code from `cut` (a failed allocation, a missing argument): the calls
      form a chain prefix, and the result is the failing code of the last call, or else
      success after every step, or else a refusal of the step after the last call. */
  ghost predicate IsCutChain(t: FailureTest, steps: seq<Request>, cut: set<ErrorCode>, run: seq<Call>, r: ErrorCode) {
    |run| <= |steps|
    && (forall i | 0 <= i < |run| :: run[i].request == steps[i])
    && (forall i | 0 <= i < |run| - 1 :: !IsFailed(t, run[i].code))
    && if |run| > 0 && IsFailed(t, run[|run| - 1].code) then r == run[|run| - 1].code
       else if r == Success then |run| == |steps|
       else r in cut && |run| < |steps|
  }

  /** One step of a cut chain over the log suffix that starts at `start`: the step is
      either refused with a code from `cut` before its call, or makes its call. */
  lemma CutStep(t: FailureTest, steps: seq<Request>, cut: set<ErrorCode>, start: nat, before: seq<Call>, r: ErrorCode, after: seq<Call>)
    requires forall c | c in cut :: IsFailed(t, c)
    requires start <= |before| && Progress(t, steps, before[start..]) && |before| - start < |steps|
    requires (r in cut && after == before) || after == before + [Call(steps[|before| - start], r)]
    ensures start <= |after|
    ensures IsFailed(t, r) ==> IsCutChain(t, steps, cut, after[start..], r)
    ensures !IsFailed(t, r) ==> after == before + [Call(steps[|before| - start], r)] && Progress(t, steps, after[start..])
  {
    if after != before {
      assert after[start..] == before[start..] + [Call(steps[|before| - start], r)];
    }
  }

  /** A chain in progress that has made every step succeeds. */
  lemma CutDone(t: FailureTest, steps: seq<Request>, cut: set<ErrorCode>, run: seq<Call>)
    requires Progress(t, steps, run) && |run| == |steps|
    ensures IsCutChain(t, steps, cut, run, Success)
  {
  }

  /** A cut chain returns success exactly when it made every step and none failed, and
      otherwise returns a failing code. */
  lemma CutChainMeaning(t: FailureTest, steps: seq<Request>, cut: set<ErrorCode>, run: seq<Call>, r: ErrorCode)
    requires forall c | c in cut :: IsFailed(t, c)
    requires IsCutChain(t, steps, cut, run, r)
    ensures r == Success || IsFailed(t, r)
    ensures r == Success <==> |run| == |steps| && forall i | 0 <= i < |run| :: !IsFailed(t, run[i].code)
  {
  }

  /** A cut chain that nothing can cut is a plain fail-fast chain with its result. */
  lemma UncutChain(t: FailureTest, steps: seq<Request>, run: seq<Call>, r: ErrorCode)
    requires IsCutChain(t, steps, {}, run, r)
    ensures IsChain(t, steps, run) && r == ChainResult(t, run)
  {
  }
}

/**
 * Two fail-fast shapes the charm uses:
 *  - a chain of routines `if not step(): return`, where each step returns a
 *    boolean or raises (`FailFast`);
 *  - a `try:` block of calls where the first call that raises ends the block
 *    (`UntilRaise`).
 */
module Pipeline {
  import opened Host

  predicate Passed(r: Run<bool>)
  {
    r.outcome == Returned(true)
  }

  /** All effects of a sequence of runs, in order. */
  function Concat(runs: seq<Run<bool>>): seq<Effect>
  {
    if runs == [] then [] else Concat(runs[..|runs| - 1]) + runs[|runs| - 1].effects
  }

  /** Index of the first step that did not return True (or `|runs|` when all did). */
  function FirstFailure(runs: seq<Run<bool>>): (k: nat)
    ensures k <= |runs|
    ensures forall i :: 0 <= i < k ==> Passed(runs[i])
    ensures k < |runs| ==> !Passed(runs[k])
  {
    if runs == [] || !Passed(runs[0]) then 0 else 1 + FirstFailure(runs[1..])
  }

  /** How many steps the chain calls: up to and including the first failing one. */
  function Called(runs: seq<Run<bool>>): (n: nat)
    ensures n <= |runs|
  {
    var k := FirstFailure(runs);
    if k < |runs| then k + 1 else k
  }

  /** The chain `for step in runs: if not step(): return step's outcome`, as one run. */
  function FailFast(runs: seq<Run<bool>>): Run<bool>
  {
    if runs == [] then Run(Returned(true), [])
    else if !Passed(runs[0]) then runs[0]
    else
      var rest := FailFast(runs[1..]);
      Run(rest.outcome, runs[0].effects + rest.effects)
  }

  lemma {:induction false} ConcatCons(runs: seq<Run<bool>>)
    requires runs != []
    ensures Concat(runs) == runs[0].effects + Concat(runs[1..])
  {
    if |runs| > 1 {
      var init := runs[..|runs| - 1];
      ConcatCons(init);
      assert init[1..] == runs[1..][..|runs[1..]| - 1];
    } else {
      assert runs[..0] == [];
    }
  }

  /** The chain runs exactly the steps up to the first failure, makes exactly their
      calls, and ends as the first failing step ended (True when none failed). */
  lemma {:induction false} FailFastSpec(runs: seq<Run<bool>>)
    ensures FailFast(runs).effects == Concat(runs[..Called(runs)])
    ensures FailFast(runs).outcome ==
              if FirstFailure(runs) == |runs| then Returned(true) else runs[FirstFailure(runs)].outcome
  {
    if runs != [] {
      var n := Called(runs);
      assert n >= 1;
      ConcatCons(runs[..n]);
      assert runs[..n][0] == runs[0];
      if Passed(runs[0]) {
        FailFastSpec(runs[1..]);
        assert runs[..n][1..] == runs[1..][..Called(runs[1..])];
      } else {
        assert runs[..n][1..] == [];
      }
    }
  }

  /** The chain passes exactly when every step returned True. */
  lemma FailFastPasses(runs: seq<Run<bool>>)
    ensures Passed(FailFast(runs)) <==> forall i :: 0 <= i < |runs| ==> Passed(runs[i])
  {
    FailFastSpec(runs);
  }

  /** Steps after the first failing one are never called: replacing them changes
      nothing in what the chain does. */
  lemma {:induction false} FailFastIgnoresLater(runs: seq<Run<bool>>, other: seq<Run<bool>>, k: nat)
    requires k < |runs| && k < |other| && !Passed(runs[k])
    requires runs[..k + 1] == other[..k + 1]
    ensures FailFast(runs) == FailFast(other)
  {
    assert runs[0] == other[0];
    if k > 0 && Passed(runs[0]) {
      assert runs[1..][..k] == other[1..][..k];
      FailFastIgnoresLater(runs[1..], other[1..], k - 1);
    }
  }

  lemma ConcatSnoc(runs: seq<Run<bool>>, i: nat)
    requires i < |runs|
    ensures Concat(runs[..i + 1]) == Concat(runs[..i]) + runs[i].effects
  {
    assert runs[..i + 1][..i] == runs[..i];
  }

  /** One more step of a chain whose earlier steps all returned True: its calls
      follow theirs; if it fails the chain ends with it; if it is the last step
      and passes, the chain passes. */
  lemma ChainStep(runs: seq<Run<bool>>, i: nat)
    requires i < |runs|
    requires forall j :: 0 <= j < i ==> Passed(runs[j])
    ensures Concat(runs[..i + 1]) == Concat(runs[..i]) + runs[i].effects
    ensures !Passed(runs[i]) ==> FailFast(runs) == Run(runs[i].outcome, Concat(runs[..i + 1]))
    ensures Passed(runs[i]) && i == |runs| - 1 ==> FailFast(runs) == Run(Returned(true), Concat(runs))
  {
    ConcatSnoc(runs, i);
    FailFastSpec(runs);
    var k := FirstFailure(runs);
    if !Passed(runs[i]) {
      assert k == i;
      assert Called(runs) == i + 1;
    } else if i == |runs| - 1 {
      assert k == |runs|;
      assert runs[..|runs|] == runs;
    }
  }

  /** Index of the first call in `calls` that raises (or `|calls|` when none does). */
  function FirstRaise(calls: seq<Effect>, ok: Effect -> bool): (k: nat)
    ensures k <= |calls|
    ensures forall i :: 0 <= i < k ==> ok(calls[i])
    ensures k < |calls| ==> !ok(calls[k])
  {
    if calls == [] || !ok(calls[0]) then 0 else 1 + FirstRaise(calls[1..], ok)
  }

  /** A `try:` block of calls: the calls made are those up to and including the
      first that raises; the block completes when none raises. */
  function UntilRaise(calls: seq<Effect>, ok: Effect -> bool): (r: Run<bool>)
    ensures r.outcome == Returned(true) <==> forall i :: 0 <= i < |calls| ==> ok(calls[i])
    ensures r.outcome == Returned(true) || r.outcome == Raised
    ensures r.effects == calls[..if FirstRaise(calls, ok) < |calls| then FirstRaise(calls, ok) + 1 else |calls|]
  {
    var k := FirstRaise(calls, ok);
    if k < |calls| then Run(Raised, calls[..k + 1]) else Run(Returned(true), calls)
  }

  /** Makes the calls of a `try:` block on the node, in order, until one raises;
      tells whether the block completed. */
  method Attempt(host: Machine, calls: seq<Effect>, env: Env) returns (completed: bool)
    modifies host
    ensures host.log == old(host.log) + UntilRaise(calls, env.ok).effects
    ensures completed == Passed(UntilRaise(calls, env.ok))
  {
    var i := 0;
    while i < |calls|
      invariant i <= |calls|
      invariant forall j :: 0 <= j < i ==> env.ok(calls[j])
      invariant host.log == old(host.log) + calls[..i]
    {
      var done := host.Call(calls[i], env);
      if !done {
        assert FirstRaise(calls, env.ok) == i;
        assert calls[..i + 1] == calls[..i] + [calls[i]];
        return false;
      }
      assert calls[..i + 1] == calls[..i] + [calls[i]];
      i := i + 1;
    }
    assert calls[..i] == calls;
    return true;
  }
}

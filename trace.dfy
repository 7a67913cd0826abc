/**
  A straight-line host program as a table of steps. Each step issues one
  command whose status is either good or bad; a bad status either lets the
  program go on (the error is reported or ignored) or makes it stop with an
  exit code, possibly after a few closing commands. `Interpret` gives the
  commands issued and the exit code.
 */
module Trace {
  import opened CTypes

  /** What a bad status makes the program do. */
  datatype OnFailure<C> = Continue | Abort(exitCode: int, epilogue: seq<C>)

  datatype Step<C> = Step(command: C, ok: bool, onFailure: OnFailure<C>)

  /** The commands issued, in order, and the process exit code. */
  datatype Outcome<C> = Outcome(trace: seq<C>, exitCode: int)

  predicate Aborts<C>(s: Step<C>)
  {
    !s.ok && s.onFailure.Abort?
  }

  /**
    Runs the table: every command up to the first aborting one is issued.
    The first command is always issued, and a run that does not succeed
    ends with the exit code of a step that aborted.
   */
  function Interpret<C>(steps: seq<Step<C>>): (o: Outcome<C>)
    ensures |steps| > 0 ==> 0 < |o.trace| && o.trace[0] == steps[0].command
    ensures o.exitCode == ExitSuccess ||
      exists k :: 0 <= k < |steps| && Aborts(steps[k]) && steps[k].onFailure.exitCode == o.exitCode
  {
    if |steps| == 0 then Outcome([], ExitSuccess)
    else if Aborts(steps[0]) then
      Outcome([steps[0].command] + steps[0].onFailure.epilogue, steps[0].onFailure.exitCode)
    else
      var rest := Interpret(steps[1..]);
      Outcome([steps[0].command] + rest.trace, rest.exitCode)
  }

  /** None of the first `k` steps aborts. */
  predicate Passes<C>(steps: seq<Step<C>>, k: nat)
    requires k <= |steps|
  {
    k == 0 || (Passes(steps, k - 1) && !Aborts(steps[k - 1]))
  }

  /** `Passes` says exactly that no step before `k` aborts. */
  lemma {:induction false} PassesIffNoAbort<C>(steps: seq<Step<C>>, k: nat)
    requires k <= |steps|
    ensures Passes(steps, k) <==> forall j :: 0 <= j < k ==> !Aborts(steps[j])
  {
    if k > 0 {
      PassesIffNoAbort(steps, k - 1);
    }
  }

  /** The commands of the first `k` steps, in table order. */
  function Issued<C>(steps: seq<Step<C>>, k: nat): seq<C>
    requires k <= |steps|
  {
    if k == 0 then [] else Issued(steps, k - 1) + [steps[k - 1].command]
  }

  lemma {:induction false} IssuedElements<C>(steps: seq<Step<C>>, k: nat)
    requires k <= |steps|
    ensures |Issued(steps, k)| == k
    ensures forall i :: 0 <= i < k ==> Issued(steps, k)[i] == steps[i].command
  {
    if k > 0 {
      IssuedElements(steps, k - 1);
    }
  }

  /** The index of the first aborting step, or the table's length if none aborts. */
  function FirstAbort<C>(steps: seq<Step<C>>): (k: nat)
    ensures k <= |steps| && Passes(steps, k)
    ensures k < |steps| ==> Aborts(steps[k])
  {
    ScanFrom(steps, 0)
  }

  /** Looks for the first aborting step at or after `i`, all before `i` passing. */
  function ScanFrom<C>(steps: seq<Step<C>>, i: nat): (k: nat)
    requires i <= |steps| && Passes(steps, i)
    ensures i <= k <= |steps| && Passes(steps, k)
    ensures k < |steps| ==> Aborts(steps[k])
    decreases |steps| - i
  {
    if i == |steps| || Aborts(steps[i]) then i else ScanFrom(steps, i + 1)
  }

  /**
    When the first `k` steps pass, the outcome is their commands followed by
    the outcome of the steps that remain.
   */
  lemma {:induction false} Resume<C>(steps: seq<Step<C>>, k: nat)
    requires k <= |steps| && Passes(steps, k)
    ensures var rest := Interpret(steps[k..]);
      Interpret(steps) == Outcome(Issued(steps, k) + rest.trace, rest.exitCode)
  {
    if k == 0 {
      assert steps[0..] == steps;
    } else {
      Resume(steps, k - 1);
      var s, here := steps[k - 1], steps[k - 1..];
      assert here[0] == s && here[1..] == steps[k..];
      var rest := Interpret(steps[k..]);
      assert Issued(steps, k - 1) + ([s.command] + rest.trace) == Issued(steps, k) + rest.trace;
    }
  }

  /** Issuing step `k` after the first `k`: the commands of the first `k + 1`. */
  lemma Issue<C>(steps: seq<Step<C>>, done: seq<C>, k: nat)
    requires k < |steps| && done == Issued(steps, k)
    ensures done + [steps[k].command] == Issued(steps, k + 1)
  {
  }

  /** Step `k` passes too: the program goes on to step `k + 1`. */
  lemma Advance<C>(steps: seq<Step<C>>, k: nat)
    requires k < |steps| && Passes(steps, k) && !Aborts(steps[k])
    ensures Passes(steps, k + 1)
  {
  }

  /**
    Step `k` aborts after every earlier one passed: the program stops after
    its command and its closing commands, with its exit code.
   */
  lemma Halt<C>(steps: seq<Step<C>>, done: seq<C>, k: nat)
    requires k < |steps| && Passes(steps, k) && Aborts(steps[k])
    requires done == Issued(steps, k + 1)
    ensures Interpret(steps) == Outcome(done + steps[k].onFailure.epilogue, steps[k].onFailure.exitCode)
  {
    Resume(steps, k);
    var before := Issued(steps, k);
    Issue(steps, before, k);
    StopAt(steps, before, k);
  }

  lemma StopAt<C>(steps: seq<Step<C>>, done: seq<C>, k: nat)
    requires k < |steps| && Aborts(steps[k])
    requires var rest := Interpret(steps[k..]); Interpret(steps) == Outcome(done + rest.trace, rest.exitCode)
    ensures Interpret(steps) == Outcome(done + [steps[k].command] + steps[k].onFailure.epilogue, steps[k].onFailure.exitCode)
  {
    var s, here := steps[k], steps[k..];
    assert here[0] == s;
    assert done + ([s.command] + s.onFailure.epilogue) == done + [s.command] + s.onFailure.epilogue;
  }

  /** Every step passed: all commands were issued and the program exits successfully. */
  lemma Complete<C>(steps: seq<Step<C>>, done: seq<C>)
    requires Passes(steps, |steps|) && done == Issued(steps, |steps|)
    ensures Interpret(steps) == Outcome(done, ExitSuccess)
  {
    Resume(steps, |steps|);
    assert steps[|steps|..] == [];
  }

  /**
    The outcome in closed form: when some step aborts, the trace is the
    commands of the steps up to and including the first aborting one, then
    its closing commands, and the exit code is that step's; nothing later is
    issued. Otherwise every command is issued and the program exits
    successfully.
   */
  lemma InterpretStopsAtFirstAbort<C>(steps: seq<Step<C>>)
    ensures var k := FirstAbort(steps);
      Interpret(steps) ==
        if k < |steps| then
          Outcome(Issued(steps, k + 1) + steps[k].onFailure.epilogue, steps[k].onFailure.exitCode)
        else
          Outcome(Issued(steps, |steps|), ExitSuccess)
  {
    var k := FirstAbort(steps);
    if k < |steps| {
      Halt(steps, Issued(steps, k + 1), k);
    } else {
      Complete(steps, Issued(steps, |steps|));
    }
  }

  /**
    A bad status on a step whose failures are only reported or ignored
    changes nothing: the outcome is the one the good status gives.
   */
  lemma {:induction false} ContinuedFailureIsHarmless<C>(steps: seq<Step<C>>, i: nat)
    requires i < |steps| && steps[i].onFailure.Continue?
    ensures Interpret(steps[i := steps[i].(ok := true)]) == Interpret(steps)
  {
    var fixed := steps[i := steps[i].(ok := true)];
    if i == 0 {
      assert fixed[1..] == steps[1..];
    } else {
      ContinuedFailureIsHarmless(steps[1..], i - 1);
      assert fixed[1..] == steps[1..][i - 1 := steps[i].(ok := true)];
    }
  }
}

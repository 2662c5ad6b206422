/** The probe runner: `run_tests` of rbac.py, which executes every compiled probe, compares
    the trimmed output with the expected answer and collects one error line per mismatch. */
module Runner {
  import opened Text
  import opened Probes

  /** The shell: the standard output `kubectl` prints for a command line (empty when the
      command fails). */
  type Shell = string -> string

  /** What a probe observed: the command's output with surrounding whitespace stripped. */
  function Observed(probe: Template, shell: Shell): string {
    Strip(shell(probe.command))
  }

  /** A probe passes when the observed answer equals the expected one, case-sensitively. */
  predicate Passes(probe: Template, shell: Shell) {
    Observed(probe, shell) == probe.expected
  }

  function FailsUnder(shell: Shell): Template -> bool {
    probe => !Passes(probe, shell)
  }

  /** The error line reported for a probe that observed `result`. */
  function ErrorLine(probe: Template, result: string): string {
    "Expected " + probe.expected + ", but returns " + result + ". " + probe.command
  }

  /** Reference definition of the error list for a probe list. */
  function Errors(probes: seq<Template>, shell: Shell): seq<string> {
    if probes == [] then []
    else
      var n := |probes| - 1;
      Errors(probes[..n], shell) +
        (if Passes(probes[n], shell) then [] else [ErrorLine(probes[n], Observed(probes[n], shell))])
  }

  /** `run_tests`: runs every probe, in order, and returns the error lines of those whose
      answer differs from the expected one. */
  method RunTests(tests: seq<Template>, shell: Shell) returns (errors: seq<string>)
    ensures errors == Errors(tests, shell)
  {
    errors := [];
    for i := 0 to |tests|
      invariant errors == Errors(tests[..i], shell)
    {
      assert tests[..i + 1][..i] == tests[..i];
      var test := tests[i];
      var command := test.command;
      var expected := test.expected;
      var result := Strip(shell(command));
      if result != expected {
        errors := errors + ["Expected " + expected + ", but returns " + result + ". " + command];
      }
    }
    assert tests[..|tests|] == tests;
  }

  /** Exactly one error per failing probe, in probe order: the k-th error line reports the
      k-th failing probe (its expected answer, what it observed, its command), wherever the
      failures sit in the list; passing probes contribute nothing. */
  lemma {:induction false} ErrorsReportFailuresInOrder(probes: seq<Template>, shell: Shell)
    ensures var failing := Positions(probes, FailsUnder(shell));
      var errors := Errors(probes, shell);
      && |errors| == |failing|
      && forall k :: 0 <= k < |errors| ==>
           errors[k] == ErrorLine(probes[failing[k]], Observed(probes[failing[k]], shell))
  {
    if probes != [] {
      var n := |probes| - 1;
      ErrorsReportFailuresInOrder(probes[..n], shell);
      var failing := Positions(probes[..n], FailsUnder(shell));
      forall k | 0 <= k < |failing|
        ensures probes[..n][failing[k]] == probes[failing[k]]
      {
      }
    }
  }

  /** The run reports no error exactly when every probe passes. */
  lemma NoErrorsIffAllPass(probes: seq<Template>, shell: Shell)
    ensures Errors(probes, shell) == [] <==> forall i :: 0 <= i < |probes| ==> Passes(probes[i], shell)
  {
    ErrorsReportFailuresInOrder(probes, shell);
    var failing := Positions(probes, FailsUnder(shell));
    if i :| 0 <= i < |probes| && !Passes(probes[i], shell) {
      assert FailsUnder(shell)(probes[i]);
      assert i in failing;
    }
  }

  /** Running two lists of probes back to back reports the errors of the first, then those of
      the second: the runner never stops early and keeps no state between probes. */
  lemma {:induction false} ErrorsOfConcatenation(first: seq<Template>, second: seq<Template>, shell: Shell)
    ensures Errors(first + second, shell) == Errors(first, shell) + Errors(second, shell)
  {
    if second != [] {
      var n := |second| - 1;
      var whole := first + second;
      assert whole != [] && |whole| - 1 == |first| + n;
      assert whole[..|first| + n] == first + second[..n];
      assert whole[|first| + n] == second[n];
      ErrorsOfConcatenation(first, second[..n], shell);
    } else {
      assert first + second == first;
    }
  }
}

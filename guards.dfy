/** Ordered chains of guards, as the DTO and entity constructors write them:
    each guard either passes or ends the constructor with its own message.
    `FirstFailure` is the reference meaning of such a chain. */
module Guards {
  import opened Outcomes

  /** One guard: whether it passes, and the message it reports when it does not. */
  datatype Check = Check(passes: bool, message: string)

  /** Check `i` is the earliest one that fails. */
  predicate FailsFirstAt(checks: seq<Check>, i: int)
  {
    0 <= i < |checks| && !checks[i].passes &&
    forall j :: 0 <= j < i ==> checks[j].passes
  }

  /** The message of the earliest failing check, or `None` when every check passes. */
  function FirstFailure(checks: seq<Check>): (r: Option<string>)
    ensures r.None? <==> forall i :: 0 <= i < |checks| ==> checks[i].passes
    ensures r.Some? ==> exists i :: FailsFirstAt(checks, i) && r.value == checks[i].message
    ensures forall i :: FailsFirstAt(checks, i) ==> r == Some(checks[i].message)
  {
    if checks == [] then None
    else if !checks[0].passes then Some(checks[0].message)
    else
      var rest := FirstFailure(checks[1..]);
      assert forall i :: 1 <= i < |checks| ==> checks[i] == checks[1..][i - 1];
      assert rest.Some? ==> exists i :: FailsFirstAt(checks, i) && rest.value == checks[i].message by {
        if rest.Some? {
          var k :| FailsFirstAt(checks[1..], k) && rest.value == checks[1..][k].message;
          assert FailsFirstAt(checks, k + 1);
        }
      }
      assert forall i :: FailsFirstAt(checks, i) ==> FailsFirstAt(checks[1..], i - 1);
      rest
  }

  /** Guards after the first failing one are never consulted: replacing them
      leaves the outcome as it is. */
  lemma {:induction false} LaterChecksIrrelevant(prefix: seq<Check>, suffix1: seq<Check>, suffix2: seq<Check>)
    requires FirstFailure(prefix).Some?
    ensures FirstFailure(prefix + suffix1) == FirstFailure(prefix + suffix2) == FirstFailure(prefix)
  {
    var i :| FailsFirstAt(prefix, i) && FirstFailure(prefix).value == prefix[i].message;
    assert FailsFirstAt(prefix + suffix1, i);
    assert FailsFirstAt(prefix + suffix2, i);
  }
}

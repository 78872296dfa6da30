/**
 * The validation style of the forms: a fixed list of checks, each with the
 * message shown when it fails, tried in order; the first failing one decides
 * the message and nothing after it is looked at.
 */
module Guards {
  import opened Options

  datatype Check = Check(passes: bool, message: string)

  /** The message of the first failing check, or `None` when all pass. */
  function FirstFailure(checks: seq<Check>): (r: Option<string>)
    ensures r.None? <==> forall k :: 0 <= k < |checks| ==> checks[k].passes
    ensures r.Some? ==>
      exists k :: 0 <= k < |checks| && !checks[k].passes && checks[k].message == r.value
        && forall j :: 0 <= j < k ==> checks[j].passes
    decreases |checks|
  {
    if checks == [] then None
    else if !checks[0].passes then Some(checks[0].message)
    else
      var r := FirstFailure(checks[1..]);
      assert forall j :: 1 <= j < |checks| ==> checks[j] == checks[1..][j - 1];
      r
  }

  /** The failing check that comes first decides, whatever comes after. */
  lemma FirstFailureAt(checks: seq<Check>, k: int)
    requires 0 <= k < |checks| && !checks[k].passes
    requires forall j :: 0 <= j < k ==> checks[j].passes
    ensures FirstFailure(checks) == Some(checks[k].message)
  {
    var r := FirstFailure(checks);
    var k' :| 0 <= k' < |checks| && !checks[k'].passes && checks[k'].message == r.value
      && forall j :: 0 <= j < k' ==> checks[j].passes;
    assert !(k' < k) && !(k < k');
  }
}

/** The business runner: an ordered list of checks evaluated fail-fast.
    The runner's own file is not part of this model; its contract is taken
    from how the services use it: checks run in order, the first one that
    does not succeed is returned as it is, and success means every check
    succeeded. The checks are pure reads, so evaluating the list up front
    and selecting the first non-success is the same as stopping early. */
module BusinessRunner {
  import opened Results

  function Run(checks: seq<Result>): (r: Result)
    ensures r.IsSuccess() <==> forall i :: 0 <= i < |checks| ==> checks[i].IsSuccess()
    ensures !r.IsSuccess() ==>
      exists i :: 0 <= i < |checks| && checks[i] == r && forall j :: 0 <= j < i ==> checks[j].IsSuccess()
  {
    if |checks| == 0 then SuccessResult
    else if !checks[0].IsSuccess() then checks[0]
    else
      var rest := Run(checks[1..]);
      assert forall i :: 1 <= i < |checks| ==> checks[i] == checks[1..][i - 1];
      rest
  }

  /** A two-check chain: the second check decides only when the first passes. */
  lemma RunTwo(a: Result, b: Result)
    ensures Run([a, b]) == if a.IsSuccess() then b else a
  {
    assert [a, b][1..] == [b];
    assert [b][1..] == [];
  }

  /** A three-check chain, as used by the update operation. */
  lemma RunThree(a: Result, b: Result, c: Result)
    ensures Run([a, b, c]) == if !a.IsSuccess() then a else if !b.IsSuccess() then b else c
  {
    assert [a, b, c][1..] == [b, c];
    RunTwo(b, c);
  }

  lemma RunOne(a: Result)
    ensures Run([a]) == a
  {
    assert [a][1..] == [];
  }
}

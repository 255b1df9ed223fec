/** An ordered list of validation rules evaluated with early return: the
    verdict is the reason of the first rule that fails. */
module Pipeline {
  import opened Wrappers

  /** One rule, already evaluated on the submission: whether it passes, and
      the rejection reported when it does not. */
  datatype Rule<R> = Rule(passes: bool, reason: R)

  predicate AllPass<R>(rules: seq<Rule<R>>)
  {
    forall i :: 0 <= i < |rules| ==> rules[i].passes
  }

  /** Rule `i` is the first one that fails. */
  predicate FirstFailingAt<R>(rules: seq<Rule<R>>, i: int)
  {
    && 0 <= i < |rules|
    && !rules[i].passes
    && forall j :: 0 <= j < i ==> rules[j].passes
  }

  function FirstFailure<R>(rules: seq<Rule<R>>): (r: Option<R>)
    ensures r.None? <==> AllPass(rules)
    ensures forall i :: FirstFailingAt(rules, i) ==> r == Some(rules[i].reason)
  {
    if |rules| == 0 then None
    else if !rules[0].passes then Some(rules[0].reason)
    else
      var rest := FirstFailure(rules[1..]);
      assert forall i :: FirstFailingAt(rules, i) ==> i > 0 && FirstFailingAt(rules[1..], i - 1);
      assert AllPass(rules[1..]) ==> AllPass(rules) by {
        if AllPass(rules[1..]) {
          forall i | 0 <= i < |rules| ensures rules[i].passes {
            if i > 0 { assert rules[i] == rules[1..][i - 1]; }
          }
        }
      }
      rest
  }
}

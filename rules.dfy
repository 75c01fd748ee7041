/**
 * An ordered table of guarded answers and its first-hit reading: the meaning
 * of an `if ...: return ...` chain that ends in a fallback.
 */
module Rules {
  import opened Wrappers

  datatype Rule<A> = Rule(fires: bool, answer: A)

  /** Python truthiness of an optional answer, as in `if rule_answer:`: present and not `""`. */
  predicate Truthy(answer: Option<string>)
  {
    answer.Some? && answer.value != ""
  }

  /** The answer of the first rule that fires, or None when none does. */
  function FirstHit<A>(rules: seq<Rule<A>>): (r: Option<A>)
    ensures r.None? <==> forall k :: 0 <= k < |rules| ==> !rules[k].fires
    ensures r.Some? ==> exists k :: 0 <= k < |rules| && rules[k].fires && rules[k].answer == r.value
                                    && forall j :: 0 <= j < k ==> !rules[j].fires
  {
    if rules == [] then None
    else if rules[0].fires then Some(rules[0].answer)
    else
      var r := FirstHit(rules[1..]);
      assert forall k :: 1 <= k < |rules| ==> rules[k] == rules[1..][k - 1];
      r
  }

  /** A rule that fires after rules that do not decides the result: first hit wins. */
  lemma {:induction false} FirstHitAt<A>(rules: seq<Rule<A>>, k: nat)
    requires k < |rules| && rules[k].fires
    requires forall j :: 0 <= j < k ==> !rules[j].fires
    ensures FirstHit(rules) == Some(rules[k].answer)
  {
    if k > 0 {
      assert forall j :: 0 <= j < k - 1 ==> rules[1..][j] == rules[j + 1];
      FirstHitAt(rules[1..], k - 1);
    }
  }
}

/**
 * The intent catalog read from `intents.json`, its first-match lookup by tag,
 * and `random.choice`, modelled by an explicit draw from the random source.
 */
module Catalog {
  import opened Wrappers

  /** The `responses` of an intent: a flat list, or a mapping from sub-category to list. */
  datatype Responses = Flat(list: seq<string>) | Categorized(sub: map<string, seq<string>>)

  /** One element of `intents['intents']`; `patterns` is only used at training time. */
  datatype Intent = Intent(tag: string, patterns: seq<string>, responses: Responses)

  const General := "general"
  /** The default list of `responses.get("general", [...])`. */
  const HelpDefault := "I can help with that!"

  /**
   * The responses of the first intent carrying `tag`, or None when no intent does;
   * both resolvers scan `intents['intents']` in order and stop at the first match.
   */
  function Lookup(intents: seq<Intent>, tag: string): (r: Option<Responses>)
    ensures r.None? <==> forall k :: 0 <= k < |intents| ==> intents[k].tag != tag
    ensures r.Some? ==> exists k :: 0 <= k < |intents| && intents[k].tag == tag
                                    && r.value == intents[k].responses
                                    && forall j :: 0 <= j < k ==> intents[j].tag != tag
  {
    if intents == [] then None
    else if intents[0].tag == tag then Some(intents[0].responses)
    else
      var r := Lookup(intents[1..], tag);
      assert forall k :: 1 <= k < |intents| ==> intents[k] == intents[1..][k - 1];
      r
  }

  /** When the first intent with `tag` sits at index `k`, its responses are the ones found. */
  lemma {:induction false} LookupFirst(intents: seq<Intent>, tag: string, k: nat)
    requires k < |intents| && intents[k].tag == tag
    requires forall j :: 0 <= j < k ==> intents[j].tag != tag
    ensures Lookup(intents, tag) == Some(intents[k].responses)
  {
    if k > 0 {
      assert forall j :: 0 <= j < k - 1 ==> intents[1..][j] == intents[j + 1];
      LookupFirst(intents[1..], tag, k - 1);
    }
  }

  /** `random.choice(pool)`: the reply is the element that the draw selects. */
  function Choose(pool: seq<string>, draw: nat): (r: string)
    requires pool != []
    ensures r in pool
  {
    pool[draw % |pool|]
  }

  /** Every element of the pool is the reply of some draw. */
  lemma ChooseCovers(pool: seq<string>, k: nat)
    requires k < |pool|
    ensures Choose(pool, k) == pool[k]
  {
  }

  /**
   * The list the shared default branch draws from: the flat list itself, or the
   * `"general"` sub-list, or the one-element default when `"general"` is absent.
   */
  function DefaultPool(responses: Responses): (pool: seq<string>)
    ensures responses.Flat? ==> pool == responses.list
    ensures responses.Categorized? && General in responses.sub ==> pool == responses.sub[General]
    ensures responses.Categorized? && General !in responses.sub ==> pool == [HelpDefault]
  {
    match responses
    case Flat(list) => list
    case Categorized(sub) => if General in sub then sub[General] else [HelpDefault]
  }

  /** `random.choice` in the default branch does not fail: the list it draws from is not empty. */
  predicate DefaultServable(responses: Responses)
  {
    match responses
    case Flat(list) => list != []
    case Categorized(sub) => General in sub ==> sub[General] != []
  }

  lemma DefaultPoolNonEmpty(responses: Responses)
    requires DefaultServable(responses)
    ensures DefaultPool(responses) != []
  {
  }
}

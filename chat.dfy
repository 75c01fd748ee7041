/**
 * chat.py: the command-line variant. Its quick rules, its keyword helper, its
 * response resolver with per-tag sub-category triggers, and the decision the
 * chat loop takes for one input line.
 */
module Chat {
  import opened Wrappers
  import opened PyStr
  import opened Catalog
  import opened Rules
  import opened Preprocess

  // ------------------------------------------------------------ quick_rules

  const SocietiesAnswer := "You can join coding, robotics, AI or cybersecurity societies."
  const SportsAnswer := "Sports clubs include football, cricket and badminton teams."
  const CulturalAnswer := "Cultural societies include dance, drama and music clubs."
  const SgpaFormulaAnswer := "SGPA = Sum of (Grade Point × Subject Credits) ÷ Total Semester Credits."
  const CgpaFormulaAnswer := "CGPA = Total Grade Points ÷ Total Credits."
  const GoodCgpaAnswer := "CGPA above 7 is considered good, above 8 is very strong."

  const RuleTechnical := ["technical", "coding", "robot", "ai"]
  const RuleSports := ["sports", "football", "cricket", "badminton"]
  const RuleCultural := ["cultural", "dance", "music", "drama"]

  const QuickAnswers := [SocietiesAnswer, SportsAnswer, CulturalAnswer,
                         SgpaFormulaAnswer, CgpaFormulaAnswer, GoodCgpaAnswer]

  /** `quick_rules`: six substring tests on the lowercased input, in this order. */
  function QuickRules(userInput: string): (r: Option<string>)
    ensures r.Some? ==> r.value in QuickAnswers && r.value != ""
  {
    var text := Lower(userInput);
    if AnyIn(text, RuleTechnical) then Some(SocietiesAnswer)
    else if AnyIn(text, RuleSports) then Some(SportsAnswer)
    else if AnyIn(text, RuleCultural) then Some(CulturalAnswer)
    else if Contains(text, "sgpa formula") then Some(SgpaFormulaAnswer)
    else if Contains(text, "cgpa formula") then Some(CgpaFormulaAnswer)
    else if Contains(text, "good cgpa") then Some(GoodCgpaAnswer)
    else None
  }

  /** The six rules of `quick_rules` as an ordered table over the lowercased text. */
  function QuickRuleTable(text: string): seq<Rule<string>>
  {
    [ Rule(AnyIn(text, RuleTechnical), SocietiesAnswer),
      Rule(AnyIn(text, RuleSports), SportsAnswer),
      Rule(AnyIn(text, RuleCultural), CulturalAnswer),
      Rule(Contains(text, "sgpa formula"), SgpaFormulaAnswer),
      Rule(Contains(text, "cgpa formula"), CgpaFormulaAnswer),
      Rule(Contains(text, "good cgpa"), GoodCgpaAnswer) ]
  }

  /** `quick_rules` answers with the first rule of its table that fires, and None when none fires. */
  lemma QuickRulesFirstHit(userInput: string)
    ensures QuickRules(userInput) == FirstHit(QuickRuleTable(Lower(userInput)))
    ensures QuickRules(userInput).None? <==>
              forall k :: 0 <= k < 6 ==> !QuickRuleTable(Lower(userInput))[k].fires
  {
    var t := QuickRuleTable(Lower(userInput));
    var k := if t[0].fires then 0 else if t[1].fires then 1 else if t[2].fires then 2
             else if t[3].fires then 3 else if t[4].fires then 4 else 5;
    if t[k].fires {
      FirstHitAt(t, k);
    }
  }

  /** Every rule answer is a non-empty string, so `if rule_answer:` tests for a rule hit. */
  lemma RuleAnswerTruthy(userInput: string)
    ensures Truthy(QuickRules(userInput)) <==> QuickRules(userInput).Some?
  {
  }

  /** `quick_rules` sees only the lowercased input. */
  lemma QuickRulesIgnoresCase(userInput: string)
    ensures QuickRules(Lower(userInput)) == QuickRules(userInput)
  {
    LowerIdempotent(userInput);
  }

  /** Any "ai" in the text, even inside "said" or "email", gives the societies answer first. */
  lemma QuickRulesAiFirst(userInput: string)
    requires Contains(Lower(userInput), "ai")
    ensures QuickRules(userInput) == Some(SocietiesAnswer)
  {
    assert RuleTechnical[3] == "ai";
  }

  // ---------------------------------------------------------- keyword_match

  /**
   * `keyword_match`: some word is one of the tokens of `text.split()`, that is,
   * stands in the text delimited by whitespace or the ends.
   */
  function KeywordMatch(text: string, words: seq<string>): (r: bool)
    ensures r <==> exists k :: 0 <= k < |words| && IsToken(text, words[k])
  {
    SplitTokensAll(text, words);
    exists k :: 0 <= k < |words| && words[k] in Split(text)
  }

  lemma SplitTokensAll(text: string, words: seq<string>)
    ensures forall k :: 0 <= k < |words| ==> (words[k] in Split(text) <==> IsToken(text, words[k]))
  {
    forall k | 0 <= k < |words| ensures words[k] in Split(text) <==> IsToken(text, words[k]) {
      SplitTokens(text, words[k]);
    }
  }

  /**
   * A word matches only where it is delimited on both sides: if each of its
   * occurrences has a non-whitespace neighbour (as "ai" in "said", or "tech" in
   * "tech."), `keyword_match` fails.
   */
  lemma EmbeddedWordNoMatch(text: string, w: string)
    requires forall i :: OccursAt(text, w, i) ==>
               (0 < i && !IsSpace(text[i - 1])) || (i + |w| < |text| && !IsSpace(text[i + |w|]))
    ensures !KeywordMatch(text, [w])
  {
    forall i | TokenAt(text, w, i) ensures false {
    }
    assert [w][0] == w;
  }

  // ------------------------------------------------------------ get_response

  const SocietiesTag := "societies_clubs"
  const InternshipTag := "internship_guidance"
  const ExamTag := "exam_timetable"
  const CgpaTag := "cgpa_details"
  const StudyTag := "study_tips"

  const TechTokens := ["technical", "coding", "robot", "ai", "tech"]
  const CulturalTokens := ["cultural", "dance", "music", "drama"]
  const SportsTokens := ["sports", "football", "cricket", "badminton"]

  /** The answer of a resolver that does not know the tag. */
  const NotUnderstood := "Sorry, I didn’t understand."

  predicate IsSpecialTag(tag: string)
  {
    tag in {SocietiesTag, InternshipTag, ExamTag, CgpaTag, StudyTag}
  }

  /**
   * The named sub-list a special tag's trigger chain picks for the lowercased
   * text; None for the other tags, which take the default branch.
   */
  function SubCategory(tag: string, text: string): (r: Option<string>)
    ensures r.Some? <==> IsSpecialTag(tag)
  {
    if tag == SocietiesTag then
      Some(if KeywordMatch(text, TechTokens) then "technical"
           else if KeywordMatch(text, CulturalTokens) then "cultural"
           else if KeywordMatch(text, SportsTokens) then "sports"
           else General)
    else if tag == InternshipTag then
      Some(if Contains(text, "government") || Contains(text, "govt") then "government"
           else if Contains(text, "private") || Contains(text, "company") then "private"
           else if Contains(text, "resume") then "resume"
           else if Contains(text, "skill") || Contains(text, "learn") then "skills"
           else General)
    else if tag == ExamTag then
      Some(if Contains(text, "mid") then "midsem"
           else if Contains(text, "end") || Contains(text, "final") then "endsem"
           else if Contains(text, "holiday") then "holiday"
           else if Contains(text, "time") || Contains(text, "class") then "timetable"
           else General)
    else if tag == CgpaTag then
      Some(if Contains(text, "cgpa") && Contains(text, "formula") then "cgpa_formula"
           else if Contains(text, "cgpa") then "sgpa_formula"
           else if Contains(text, "sgpa") && Contains(text, "formula") then "sgpa_formula"
           else if Contains(text, "sgpa") then "sgpa_formula"
           else if Contains(text, "good") then "good"
           else if Contains(text, "improve") then "improve"
           else General)
    else if tag == StudyTag then
      Some(if Contains(text, "focus") then "focus"
           else if Contains(text, "hour") then "hours"
           else if Contains(text, "revise") || Contains(text, "revision") then "revision"
           else General)
    else None
  }

  /** Each special tag's triggers as an ordered table of (test, sub-category). */
  function TriggerTable(tag: string, text: string): seq<Rule<string>>
  {
    if tag == SocietiesTag then
      [ Rule(KeywordMatch(text, TechTokens), "technical"),
        Rule(KeywordMatch(text, CulturalTokens), "cultural"),
        Rule(KeywordMatch(text, SportsTokens), "sports") ]
    else if tag == InternshipTag then
      [ Rule(Contains(text, "government") || Contains(text, "govt"), "government"),
        Rule(Contains(text, "private") || Contains(text, "company"), "private"),
        Rule(Contains(text, "resume"), "resume"),
        Rule(Contains(text, "skill") || Contains(text, "learn"), "skills") ]
    else if tag == ExamTag then
      [ Rule(Contains(text, "mid"), "midsem"),
        Rule(Contains(text, "end") || Contains(text, "final"), "endsem"),
        Rule(Contains(text, "holiday"), "holiday"),
        Rule(Contains(text, "time") || Contains(text, "class"), "timetable") ]
    else if tag == CgpaTag then
      [ Rule(Contains(text, "cgpa") && Contains(text, "formula"), "cgpa_formula"),
        Rule(Contains(text, "cgpa"), "sgpa_formula"),
        Rule(Contains(text, "sgpa") && Contains(text, "formula"), "sgpa_formula"),
        Rule(Contains(text, "sgpa"), "sgpa_formula"),
        Rule(Contains(text, "good"), "good"),
        Rule(Contains(text, "improve"), "improve") ]
    else if tag == StudyTag then
      [ Rule(Contains(text, "focus"), "focus"),
        Rule(Contains(text, "hour"), "hours"),
        Rule(Contains(text, "revise") || Contains(text, "revision"), "revision") ]
    else []
  }

  /** A special tag picks the sub-list of its first firing trigger, else `"general"`. */
  lemma SubCategoryFirstHit(tag: string, text: string)
    requires IsSpecialTag(tag)
    ensures SubCategory(tag, text) ==
              Some(match FirstHit(TriggerTable(tag, text)) case Some(key) => key case None => General)
  {
    var t := TriggerTable(tag, text);
    var k: nat;
    if |t| == 3 {
      k := if t[0].fires then 0 else if t[1].fires then 1 else 2;
    } else if |t| == 4 {
      k := if t[0].fires then 0 else if t[1].fires then 1 else if t[2].fires then 2 else 3;
    } else {
      k := if t[0].fires then 0 else if t[1].fires then 1 else if t[2].fires then 2
           else if t[3].fires then 3 else if t[4].fires then 4 else 5;
    }
    if t[k].fires {
      FirstHitAt(t, k);
    }
  }

  /** `random.choice` in the selected branch does not fail: the key exists and its list is not empty. */
  predicate Servable(tag: string, text: string, responses: Responses)
  {
    match SubCategory(tag, text)
    case Some(key) => responses.Categorized? && key in responses.sub && responses.sub[key] != []
    case None => DefaultServable(responses)
  }

  /** The list `get_response` draws from once it has found the intent. */
  function Pool(tag: string, text: string, responses: Responses): (pool: seq<string>)
    requires Servable(tag, text, responses)
    ensures pool != []
  {
    match SubCategory(tag, text)
    case Some(key) => responses.sub[key]
    case None => DefaultPoolNonEmpty(responses); DefaultPool(responses)
  }

  /** The inputs on which `get_response` does not raise. */
  predicate CanRespond(intents: seq<Intent>, tag: string, userText: string)
  {
    match Lookup(intents, tag)
    case None => true
    case Some(responses) => Servable(tag, Lower(userText), responses)
  }

  /** `get_response(tag, user_text)` with the random source's draw made explicit. */
  function Response(intents: seq<Intent>, tag: string, userText: string, draw: nat): (reply: string)
    requires CanRespond(intents, tag, userText)
    ensures Lookup(intents, tag).None? ==> reply == NotUnderstood
    ensures Lookup(intents, tag).Some? ==> reply in Pool(tag, Lower(userText), Lookup(intents, tag).value)
  {
    match Lookup(intents, tag)
    case None => NotUnderstood
    case Some(responses) => Choose(Pool(tag, Lower(userText), responses), draw)
  }

  /** The loop of `get_response`: scan the intents, answer from the first one with the tag. */
  method GetResponse(intents: seq<Intent>, tag: string, userText: string, draw: nat) returns (reply: string)
    requires CanRespond(intents, tag, userText)
    ensures reply == Response(intents, tag, userText, draw)
  {
    var text := Lower(userText);
    var i := 0;
    while i < |intents|
      invariant 0 <= i <= |intents|
      invariant Lookup(intents[i..], tag) == Lookup(intents, tag)
    {
      if intents[i].tag == tag {
        var responses := intents[i].responses;
        reply := Choose(Pool(tag, text, responses), draw);
        return;
      }
      assert intents[i..][1..] == intents[i + 1..];
      i := i + 1;
    }
    reply := NotUnderstood;
  }

  // ----------------------------------------------- properties of get_response

  /** A tag that no intent carries gets the fixed apology. */
  lemma UnknownTag(intents: seq<Intent>, tag: string, userText: string, draw: nat)
    requires forall k :: 0 <= k < |intents| ==> intents[k].tag != tag
    ensures Response(intents, tag, userText, draw) == NotUnderstood
  {
  }

  /** When several intents carry the tag, the first one in catalog order decides. */
  lemma FirstIntentDecides(intents: seq<Intent>, tag: string, userText: string, draw: nat, k: nat)
    requires k < |intents| && intents[k].tag == tag
    requires forall j :: 0 <= j < k ==> intents[j].tag != tag
    requires Servable(tag, Lower(userText), intents[k].responses)
    ensures CanRespond(intents, tag, userText)
    ensures Response(intents, tag, userText, draw) in Pool(tag, Lower(userText), intents[k].responses)
  {
    LookupFirst(intents, tag, k);
  }

  /** Societies: a technical word as a whole token wins over cultural and sports tokens. */
  lemma SocietiesTechnicalFirst(text: string, k: nat)
    requires k < |TechTokens| && IsToken(text, TechTokens[k])
    ensures SubCategory(SocietiesTag, text) == Some("technical")
  {
    assert IsToken(text, TechTokens[k]);
  }

  /** Societies: "ai" inside a longer token is no technical trigger. */
  lemma SocietiesNeedsWholeToken(text: string)
    requires forall k :: 0 <= k < |TechTokens| ==> !IsToken(text, TechTokens[k])
    requires forall k :: 0 <= k < |CulturalTokens| ==> !IsToken(text, CulturalTokens[k])
    requires forall k :: 0 <= k < |SportsTokens| ==> !IsToken(text, SportsTokens[k])
    ensures SubCategory(SocietiesTag, text) == Some(General)
  {
  }

  /** Exams: "mid" anywhere beats "end" and "final". */
  lemma ExamMidFirst(text: string)
    requires Contains(text, "mid")
    ensures SubCategory(ExamTag, text) == Some("midsem")
  {
  }

  /** CGPA: with "cgpa" present, "formula" selects `cgpa_formula` and its absence `sgpa_formula`. */
  lemma CgpaWithCgpa(text: string)
    requires Contains(text, "cgpa")
    ensures SubCategory(CgpaTag, text) == Some(if Contains(text, "formula") then "cgpa_formula" else "sgpa_formula")
  {
  }

  /** CGPA: the `good` and `improve` sub-lists are reached only without "cgpa" and "sgpa". */
  lemma CgpaGoodImprove(text: string)
    ensures SubCategory(CgpaTag, text) == Some("good") <==>
              !Contains(text, "cgpa") && !Contains(text, "sgpa") && Contains(text, "good")
    ensures SubCategory(CgpaTag, text) == Some("improve") <==>
              !Contains(text, "cgpa") && !Contains(text, "sgpa") && !Contains(text, "good") && Contains(text, "improve")
  {
  }

  /** A tag without triggers answers from its flat list. */
  lemma OtherTagFlat(intents: seq<Intent>, tag: string, userText: string, draw: nat)
    requires !IsSpecialTag(tag)
    requires Lookup(intents, tag).Some? && Lookup(intents, tag).value.Flat?
    requires Lookup(intents, tag).value.list != []
    ensures CanRespond(intents, tag, userText)
    ensures Response(intents, tag, userText, draw) in Lookup(intents, tag).value.list
  {
  }

  /** A tag without triggers answers from `"general"`, or with the built-in default when it is absent. */
  lemma OtherTagMapping(intents: seq<Intent>, tag: string, userText: string, draw: nat)
    requires !IsSpecialTag(tag)
    requires Lookup(intents, tag).Some? && Lookup(intents, tag).value.Categorized?
    requires CanRespond(intents, tag, userText)
    ensures var sub := Lookup(intents, tag).value.sub;
            if General in sub then Response(intents, tag, userText, draw) in sub[General]
            else Response(intents, tag, userText, draw) == HelpDefault
  {
  }

  /** A reply not fixed by the resolver itself comes verbatim from the tag's intent in the catalog. */
  lemma ReplyFromCatalog(intents: seq<Intent>, tag: string, userText: string, draw: nat)
    requires CanRespond(intents, tag, userText)
    ensures var reply := Response(intents, tag, userText, draw);
            reply == NotUnderstood || reply == HelpDefault ||
            exists k :: 0 <= k < |intents| && intents[k].tag == tag &&
              match intents[k].responses
              case Flat(list) => reply in list
              case Categorized(sub) => exists key :: key in sub && reply in sub[key]
  {
    var reply := Response(intents, tag, userText, draw);
    var found := Lookup(intents, tag);
    if found.Some? {
      var k :| 0 <= k < |intents| && intents[k].tag == tag && found.value == intents[k].responses
               && forall j :: 0 <= j < k ==> intents[j].tag != tag;
      var text := Lower(userText);
      match SubCategory(tag, text)
      case Some(key) =>
        assert reply in found.value.sub[key];
      case None =>
        if found.value.Categorized? && General in found.value.sub {
          assert reply in found.value.sub[General];
        }
    }
  }

  // --------------------------------------------------------------- chat loop

  const ExitWords := ["exit", "quit", "bye"]
  const Goodbye := "Goodbye!"
  /** The answer below the confidence threshold. */
  const LowConfidence := "Sorry, I didn’t understand that."
  const Threshold: real := 0.20

  /** What the classifier reports: the largest class probability and the predicted tag. */
  datatype Prediction = Prediction(confidence: real, tag: string)

  /** The outcome of one input line: leave the loop with a farewell, or reply and go on. */
  datatype Step = Quit(farewell: string) | Say(reply: string)

  /** The line reaches `get_response` only on the inputs where that call does not raise. */
  predicate LineServable(userInput: string, intents: seq<Intent>, nlp: Normalizer,
                         classify: string -> Prediction)
  {
    var p := classify(ClassifierInput(userInput, nlp));
    (Lower(userInput) !in ExitWords && !Truthy(QuickRules(userInput)) && p.confidence >= Threshold)
      ==> CanRespond(intents, p.tag, userInput)
  }

  /** The body of the `while True` loop for one input line, without its I/O. */
  function HandleLine(userInput: string, intents: seq<Intent>, nlp: Normalizer,
                      classify: string -> Prediction, draw: nat): (s: Step)
    requires LineServable(userInput, intents, nlp, classify)
    ensures s.Quit? <==> Lower(userInput) in ExitWords
    ensures s.Quit? ==> s.farewell == Goodbye
  {
    if Lower(userInput) in ExitWords then Quit(Goodbye)
    else
      var ruleAnswer := QuickRules(userInput);
      if Truthy(ruleAnswer) then Say(ruleAnswer.value)
      else
        var p := classify(ClassifierInput(userInput, nlp));
        if p.confidence < Threshold then Say(LowConfidence)
        else Say(Response(intents, p.tag, userInput, draw))
  }

  /** A rule answer is the reply, whatever the classifier, catalog or draw. */
  lemma RuleBypassesClassifier(userInput: string, intents: seq<Intent>, nlp: Normalizer,
                               classify: string -> Prediction, draw: nat)
    requires Lower(userInput) !in ExitWords && QuickRules(userInput).Some?
    ensures LineServable(userInput, intents, nlp, classify)
    ensures HandleLine(userInput, intents, nlp, classify, draw) == Say(QuickRules(userInput).value)
  {
  }

  /** Below the threshold the reply is the fixed apology, whatever the catalog or draw. */
  lemma LowConfidenceBypassesResolver(userInput: string, intents: seq<Intent>, nlp: Normalizer,
                                      classify: string -> Prediction, draw: nat)
    requires Lower(userInput) !in ExitWords && QuickRules(userInput).None?
    requires classify(ClassifierInput(userInput, nlp)).confidence < Threshold
    ensures LineServable(userInput, intents, nlp, classify)
    ensures HandleLine(userInput, intents, nlp, classify, draw) == Say(LowConfidence)
  {
  }

  /** Otherwise the reply is `get_response` of the predicted tag on the raw input. */
  lemma ConfidentLineResolves(userInput: string, intents: seq<Intent>, nlp: Normalizer,
                              classify: string -> Prediction, draw: nat)
    requires Lower(userInput) !in ExitWords && QuickRules(userInput).None?
    requires LineServable(userInput, intents, nlp, classify)
    requires classify(ClassifierInput(userInput, nlp)).confidence >= Threshold
    ensures var p := classify(ClassifierInput(userInput, nlp));
            HandleLine(userInput, intents, nlp, classify, draw) == Say(Response(intents, p.tag, userInput, draw))
  {
  }
}

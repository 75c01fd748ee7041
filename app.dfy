/**
 * app.py: the Streamlit variant. Its own quick rules (four of them, in another
 * order), a resolver without sub-category triggers, the reply decision for a
 * submitted message, and the transcript kept in the session state.
 */
module App {
  import opened Wrappers
  import opened PyStr
  import opened Catalog
  import opened Rules
  import opened Preprocess

  // ------------------------------------------------------------ quick_rules

  const SocietiesAnswer := "You can join coding, robotics, AI or cybersecurity societies."
  const SportsAnswer := "Sports clubs include football, cricket and badminton teams."
  const CgpaFormulaAnswer := "CGPA = Total Grade Points ÷ Total Credits."
  const SgpaFormulaAnswer := "SGPA = Sum of (Grade Point × Subject Credits) ÷ Total Semester Credits."

  const RuleTechnical := ["technical", "coding", "robot", "ai"]
  const RuleSports := ["sports", "football", "cricket", "badminton"]

  const QuickAnswers := [SocietiesAnswer, SportsAnswer, CgpaFormulaAnswer, SgpaFormulaAnswer]

  /** `quick_rules`: four substring tests on the lowercased input, in this order. */
  function QuickRules(userInput: string): (r: Option<string>)
    ensures r.Some? ==> r.value in QuickAnswers && r.value != ""
  {
    var text := Lower(userInput);
    if AnyIn(text, RuleTechnical) then Some(SocietiesAnswer)
    else if AnyIn(text, RuleSports) then Some(SportsAnswer)
    else if Contains(text, "cgpa formula") then Some(CgpaFormulaAnswer)
    else if Contains(text, "sgpa formula") then Some(SgpaFormulaAnswer)
    else None
  }

  /** The four rules of this variant as an ordered table over the lowercased text. */
  function QuickRuleTable(text: string): seq<Rule<string>>
  {
    [ Rule(AnyIn(text, RuleTechnical), SocietiesAnswer),
      Rule(AnyIn(text, RuleSports), SportsAnswer),
      Rule(Contains(text, "cgpa formula"), CgpaFormulaAnswer),
      Rule(Contains(text, "sgpa formula"), SgpaFormulaAnswer) ]
  }

  /** `quick_rules` answers with the first rule of its table that fires, and None when none fires. */
  lemma QuickRulesFirstHit(userInput: string)
    ensures QuickRules(userInput) == FirstHit(QuickRuleTable(Lower(userInput)))
    ensures QuickRules(userInput).None? <==>
              forall k :: 0 <= k < 4 ==> !QuickRuleTable(Lower(userInput))[k].fires
  {
    var t := QuickRuleTable(Lower(userInput));
    var k := if t[0].fires then 0 else if t[1].fires then 1 else if t[2].fires then 2 else 3;
    if t[k].fires {
      FirstHitAt(t, k);
    }
  }

  /** Every rule answer is a non-empty string, so `if rule_answer:` tests for a rule hit. */
  lemma RuleAnswerTruthy(userInput: string)
    ensures Truthy(QuickRules(userInput)) <==> QuickRules(userInput).Some?
  {
  }

  /** `quick_rules` sees only the lowercased input. */
  lemma QuickRulesIgnoresCase(userInput: string)
    ensures QuickRules(Lower(userInput)) == QuickRules(userInput)
  {
    LowerIdempotent(userInput);
  }

  /** A text with both formula phrases (and no club keyword) gets the CGPA answer. */
  lemma BothFormulasGiveCgpa(userInput: string)
    requires !AnyIn(Lower(userInput), RuleTechnical) && !AnyIn(Lower(userInput), RuleSports)
    requires Contains(Lower(userInput), "cgpa formula") && Contains(Lower(userInput), "sgpa formula")
    ensures QuickRules(userInput) == Some(CgpaFormulaAnswer)
  {
  }

  // ------------------------------------------------------------ get_response

  const NotUnderstood := "Sorry, I didn’t understand."

  /** The inputs on which `get_response` does not raise. */
  predicate CanRespond(intents: seq<Intent>, tag: string)
  {
    match Lookup(intents, tag)
    case None => true
    case Some(responses) => DefaultServable(responses)
  }

  /**
   * `get_response(tag, user_text)` with the random source's draw made explicit;
   * this variant takes `user_text` and never reads it.
   */
  function Response(intents: seq<Intent>, tag: string, userText: string, draw: nat): (reply: string)
    requires CanRespond(intents, tag)
    ensures Lookup(intents, tag).None? ==> reply == NotUnderstood
    ensures Lookup(intents, tag).Some? ==> reply in DefaultPool(Lookup(intents, tag).value)
  {
    match Lookup(intents, tag)
    case None => NotUnderstood
    case Some(responses) => DefaultPoolNonEmpty(responses); Choose(DefaultPool(responses), draw)
  }

  /** The loop of `get_response`: scan the intents, answer from the first one with the tag. */
  method GetResponse(intents: seq<Intent>, tag: string, userText: string, draw: nat) returns (reply: string)
    requires CanRespond(intents, tag)
    ensures reply == Response(intents, tag, userText, draw)
  {
    var i := 0;
    while i < |intents|
      invariant 0 <= i <= |intents|
      invariant Lookup(intents[i..], tag) == Lookup(intents, tag)
    {
      if intents[i].tag == tag {
        var responses := intents[i].responses;
        DefaultPoolNonEmpty(responses);
        reply := Choose(DefaultPool(responses), draw);
        return;
      }
      assert intents[i..][1..] == intents[i + 1..];
      i := i + 1;
    }
    reply := NotUnderstood;
  }

  /** The user's text does not influence the reply. */
  lemma ResponseIgnoresText(intents: seq<Intent>, tag: string, text1: string, text2: string, draw: nat)
    requires CanRespond(intents, tag)
    ensures Response(intents, tag, text1, draw) == Response(intents, tag, text2, draw)
  {
  }

  /** Reply by catalog entry: the flat list, `"general"` or its default, or the apology. */
  lemma ResponseByEntry(intents: seq<Intent>, tag: string, userText: string, draw: nat)
    requires CanRespond(intents, tag)
    ensures var reply := Response(intents, tag, userText, draw);
            match Lookup(intents, tag)
            case None => reply == NotUnderstood
            case Some(Flat(list)) => reply in list
            case Some(Categorized(sub)) =>
              if General in sub then reply in sub[General] else reply == HelpDefault
  {
  }

  // ---------------------------------------------------------- reply decision

  const LowConfidence := "Sorry, I didn’t understand that."
  const Threshold: real := 0.20

  /** What the classifier reports: the largest class probability and the predicted tag. */
  datatype Prediction = Prediction(confidence: real, tag: string)

  /** The message reaches `get_response` only on the inputs where that call does not raise. */
  predicate ReplyServable(userInput: string, intents: seq<Intent>, nlp: Normalizer,
                          classify: string -> Prediction)
  {
    var p := classify(ClassifierInput(userInput, nlp));
    (!Truthy(QuickRules(userInput)) && p.confidence >= Threshold) ==> CanRespond(intents, p.tag)
  }

  /** `bot_reply` for a submitted message. */
  function BotReply(userInput: string, intents: seq<Intent>, nlp: Normalizer,
                    classify: string -> Prediction, draw: nat): (reply: string)
    requires ReplyServable(userInput, intents, nlp, classify)
    ensures reply in QuickAnswers || reply == LowConfidence || reply == NotUnderstood
            || exists k :: 0 <= k < |intents| && reply in DefaultPool(intents[k].responses)
  {
    var ruleAnswer := QuickRules(userInput);
    if Truthy(ruleAnswer) then ruleAnswer.value
    else
      var p := classify(ClassifierInput(userInput, nlp));
      if p.confidence < Threshold then LowConfidence
      else Response(intents, p.tag, userInput, draw)
  }

  /** A rule answer is the reply, whatever the classifier, catalog or draw. */
  lemma RuleBypassesClassifier(userInput: string, intents: seq<Intent>, nlp: Normalizer,
                               classify: string -> Prediction, draw: nat)
    requires QuickRules(userInput).Some?
    ensures ReplyServable(userInput, intents, nlp, classify)
    ensures BotReply(userInput, intents, nlp, classify, draw) == QuickRules(userInput).value
  {
  }

  /** Below the threshold the reply is the fixed apology, whatever the catalog or draw. */
  lemma LowConfidenceBypassesResolver(userInput: string, intents: seq<Intent>, nlp: Normalizer,
                                      classify: string -> Prediction, draw: nat)
    requires QuickRules(userInput).None?
    requires classify(ClassifierInput(userInput, nlp)).confidence < Threshold
    ensures ReplyServable(userInput, intents, nlp, classify)
    ensures BotReply(userInput, intents, nlp, classify, draw) == LowConfidence
  {
  }

  /** Otherwise the reply is `get_response` of the predicted tag. */
  lemma ConfidentReplyResolves(userInput: string, intents: seq<Intent>, nlp: Normalizer,
                               classify: string -> Prediction, draw: nat)
    requires QuickRules(userInput).None?
    requires ReplyServable(userInput, intents, nlp, classify)
    requires classify(ClassifierInput(userInput, nlp)).confidence >= Threshold
    ensures var p := classify(ClassifierInput(userInput, nlp));
            BotReply(userInput, intents, nlp, classify, draw) == Response(intents, p.tag, userInput, draw)
  {
  }

  // -------------------------------------------------------------- transcript

  datatype Sender = You | Bot

  /** One `(sender, msg)` entry of `st.session_state.messages`. */
  datatype Message = Message(sender: Sender, text: string)

  /** Entries come in (You, Bot) pairs. */
  predicate Paired(messages: seq<Message>)
  {
    |messages| % 2 == 0 &&
    forall i :: 0 <= i < |messages| ==> messages[i].sender == if i % 2 == 0 then You else Bot
  }

  /** The transcript after one exchange: two entries appended, the user's first. */
  function Exchange(messages: seq<Message>, userInput: string, reply: string): (r: seq<Message>)
    ensures |r| == |messages| + 2 && r[..|messages|] == messages
    ensures r[|messages|] == Message(You, userInput) && r[|messages| + 1] == Message(Bot, reply)
  {
    messages + [Message(You, userInput), Message(Bot, reply)]
  }

  /** An exchange keeps the transcript in (You, Bot) pairs. */
  lemma ExchangeKeepsPairs(messages: seq<Message>, userInput: string, reply: string)
    requires Paired(messages)
    ensures Paired(Exchange(messages, userInput, reply))
  {
    var r := Exchange(messages, userInput, reply);
    forall i | 0 <= i < |r| ensures r[i].sender == if i % 2 == 0 then You else Bot {
      if i < |messages| {
        assert r[i] == messages[i];
      }
    }
  }

  /** `st.session_state`, as far as the transcript goes: `messages` may be absent. */
  class Session {
    var messages: Option<seq<Message>>

    ghost predicate Valid()
      reads this
    {
      messages.Some? ==> Paired(messages.value)
    }

    /** A new browser session: nothing stored yet. */
    constructor ()
      ensures Valid() && messages == None
    {
      messages := None;
    }

    /** The Clear Chat button. */
    method ClearChat()
      requires Valid()
      modifies this
      ensures Valid() && messages == Some([])
    {
      messages := Some([]);
    }

    /** `if "messages" not in st.session_state: st.session_state.messages = []`. */
    method InitMessages()
      requires Valid()
      modifies this
      ensures Valid()
      ensures messages == if old(messages).None? then Some([]) else old(messages)
    {
      if messages.None? {
        messages := Some([]);
      }
    }

    /** The two `append` calls that save one exchange. */
    method Save(userInput: string, reply: string)
      requires Valid() && messages.Some?
      modifies this
      ensures Valid()
      ensures messages == Some(Exchange(old(messages).value, userInput, reply))
    {
      ExchangeKeepsPairs(messages.value, userInput, reply);
      messages := Some(messages.value + [Message(You, userInput), Message(Bot, reply)]);
    }

    /**
     * One run of the script: the sidebar button, the transcript initialisation,
     * and, for a submitted message, the reply and the two saved entries.
     */
    method Run(clearClicked: bool, submitted: Option<string>, intents: seq<Intent>, nlp: Normalizer,
               classify: string -> Prediction, draw: nat)
      requires Valid()
      requires submitted.Some? ==> ReplyServable(submitted.value, intents, nlp, classify)
      modifies this
      ensures Valid() && messages.Some?
      ensures var before := if clearClicked || old(messages).None? then [] else old(messages).value;
              messages.value ==
                if Truthy(submitted)
                then Exchange(before, submitted.value, BotReply(submitted.value, intents, nlp, classify, draw))
                else before
    {
      if clearClicked {
        ClearChat();
      }
      InitMessages();
      if Truthy(submitted) {
        var userInput := submitted.value;
        var reply: string;
        var ruleAnswer := QuickRules(userInput);
        if Truthy(ruleAnswer) {
          reply := ruleAnswer.value;
        } else {
          var p := classify(ClassifierInput(userInput, nlp));
          if p.confidence < Threshold {
            reply := LowConfidence;
          } else {
            reply := GetResponse(intents, p.tag, userInput, draw);
          }
        }
        Save(userInput, reply);
      }
    }
  }
}

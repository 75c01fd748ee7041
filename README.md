# College help chatbot: intent resolution

This project models how the college help chatbot turns a student's message
into a reply, and proves properties of that model. The chatbot has two front
ends that share one text normaliser:

- `chat.py` is a command-line loop. For each line it:
  1. checks for an exit word;
  2. tries six hard-coded "quick rules" (substring tests on the lowercased line);
  3. otherwise asks a trained classifier for an intent tag and a confidence;
  4. below a confidence of 0.20, apologises;
  5. otherwise resolves the tag against the intent catalog `intents.json`. For five special tags, trigger words in the message pick a named sub-list of replies. A reply is drawn at random from the chosen list.
- `app.py` is a Streamlit page. It has four quick rules in a different order, and a resolver that ignores the message text. It keeps the conversation as a list of `("You", text)` / `("Bot", text)` entries in the session state. The list is created when absent, emptied by the Clear Chat button, and extended by two entries per submitted message.
- `preprocess.py` has `clean_text`, which the classifier input goes through. The steps are:
  1. lowercase;
  2. strip ASCII punctuation;
  3. tokenize;
  4. drop stop words;
  5. stem.

## Module layout

| file | module | contents |
|---|---|---|
| `wrappers.dfy` | `Wrappers` | `Option` |
| `pystr.dfy` | `PyStr` | the Python string operations used: `lower()` (ASCII), the `in` substring test, `any(w in text for w in [...])`, `split()`, `" ".join` |
| `catalog.dfy` | `Catalog` | intents and their responses, the first-match lookup by tag, `random.choice` as an explicit draw, the shared default branch |
| `rules.dfy` | `Rules` | an ordered table of guarded answers and its first-hit meaning, the reference definition for every `if ...: return` chain |
| `preprocess.dfy` | `Preprocess` | `clean_text`, with the tokenizer, stop words and stemmer as parameters |
| `chat.dfy` | `Chat` | `chat.py`: quick rules, `keyword_match`, `get_response` (a function and a search-loop method), the per-line decision |
| `app.dfy` | `App` | `app.py`: quick rules, `get_response`, the reply decision, and the transcript as the class `Session` |
| `samples.dfy`, `scenarios.dfy` | `Samples`, `Scenarios` | concrete messages and the replies both front ends give them |

Effects are passed in the same way everywhere:

- The random source is a `draw: nat`. `random.choice(pool)` is `pool[draw % |pool|]`; `Catalog.ChooseCovers` shows every element is reachable.
- The classifier is a function `classify` from the cleaned text to a `Prediction(confidence, tag)`.
- The catalog is an immutable `seq<Intent>`.

## Model

| member | source | states |
|---|---|---|
| `PyStr.LowerChar` | chat.py:16 | the result is no upper-case letter, and a character that is not one is unchanged |
| `PyStr.Lower` | chat.py:16 | same length; each character is mapped by ASCII lowercasing |
| `PyStr.LowerIdempotent` | chat.py:16 | lowercasing twice equals lowercasing once |
| `PyStr.LowerHasNoUpper` | preprocess.py:21 | a lowercased text has no upper-case letter |
| `PyStr.Contains` | chat.py:19 | the executable substring test `p in text` holds iff some slice of `text` equals `p` (both directions, including the empty pattern) |
| `PyStr.AnyIn` | chat.py:19 | `any(w in text for w in words)`: no contract of its own; it is `PyStr.Contains` for some word of the list, and `PyStr.AnyInFour` and `PyStr.NoneOfFour` state it for the rule lists |
| `PyStr.AnyInFour` | chat.py:19 | `any(w in text for w in [a, b, c, d])` is the disjunction of the four substring tests |
| `PyStr.NoneOfFour` | app.py:19 | no word of a four-word rule list occurs when each word has a character the text lacks |
| `PyStr.Split` | chat.py:43 | every token of `split()` is non-empty and free of whitespace |
| `PyStr.SplitTokens` | chat.py:43 | `w in text.split()` iff `w` is a maximal whitespace-free run of `text` (a token) |
| `PyStr.Join` | chat.py:147 | `sep.join(words)`: no contract of its own; `PyStr.SplitJoin` states what splitting the joined text gives |
| `PyStr.SplitJoin` | chat.py:147 | `" ".join(words).split() == words` when no word is empty or holds whitespace |
| `Rules.FirstHit` | chat.py:15-38 | None iff no rule fires; otherwise the answer of the first rule that fires |
| `Rules.FirstHitAt` | chat.py:15-38 | a firing rule preceded only by non-firing rules decides the result |
| `Rules.Truthy` | chat.py:142 | the test `if rule_answer:`: no contract of its own; `Chat.RuleAnswerTruthy` and `App.RuleAnswerTruthy` show it equals "a rule fired" |
| `Catalog.Lookup` | chat.py:51-53 | None iff no intent carries the tag; otherwise the responses of the first intent that does |
| `Catalog.LookupFirst` | chat.py:51-53 | the first intent with the tag, at index k, supplies the responses |
| `Catalog.Choose` | chat.py:58 | `random.choice` returns an element of the list |
| `Catalog.ChooseCovers` | chat.py:58 | every element of the list is returned by some draw |
| `Catalog.DefaultPool` | chat.py:121-125 | the default branch's list: the flat list itself, else the `"general"` sub-list, else `["I can help with that!"]` |
| `Catalog.DefaultPoolNonEmpty` | chat.py:121-125 | under the no-crash condition the default list is non-empty |
| `Preprocess.Filter` | preprocess.py:24 | a list comprehension with a condition: no longer than its input; keeps only input elements that pass |
| `Preprocess.FilterConcat` | preprocess.py:24 | filtering distributes over concatenation, so order is kept |
| `Preprocess.FilterCounts` | preprocess.py:24 | a kept value occurs as often as in the input; a dropped one does not occur |
| `Preprocess.FilterKeepsAll` | preprocess.py:24 | a list whose elements all pass is returned unchanged |
| `Preprocess.RemovePunctuation` | preprocess.py:22 | no punctuation remains; every other character keeps its number of occurrences |
| `Preprocess.RemovePunctuationConcat` | preprocess.py:22 | punctuation removal distributes over concatenation, so the other characters keep their order |
| `Preprocess.RemovePunctuationChar` | preprocess.py:22 | a single character is dropped exactly when it is one of the 32 marks of `string.punctuation` |
| `Preprocess.RemovePunctuationIdempotent` | preprocess.py:22 | removing punctuation twice equals removing it once |
| `Preprocess.TokenizerInput` | preprocess.py:21-23 | the tokenizer sees no upper-case letter and no punctuation |
| `Preprocess.StopFilter` | preprocess.py:24 | no stop word remains |
| `Preprocess.StopFilterExact` | preprocess.py:24 | a non-stop word keeps its number of occurrences; a stop word has none |
| `Preprocess.StopFilterConcat` | preprocess.py:24 | the stop-word filter keeps the tokens' order |
| `Preprocess.Filtered` | preprocess.py:23-24 | every element of the `filtered` list is a token of the tokenizer's output and no stop word |
| `Preprocess.CleanText` | preprocess.py:20-26 | the result has the filtered list's length, and element i is the stem of filtered token i |
| `Preprocess.ClassifierInput` | chat.py:147 | `" ".join(clean_text(user_input))`; when no stem is empty or holds whitespace, splitting it gives back exactly the stems |
| `Preprocess.CleanTextLength` | preprocess.py:23-25 | there are at most as many stems as tokens |
| `Preprocess.CleanTextIgnoresCase` | preprocess.py:21-24 | `clean_text(text.lower()) == clean_text(text)` |
| `Chat.QuickRules` | chat.py:15-38 | an answer, when given, is one of the six fixed non-empty strings |
| `Chat.QuickRulesFirstHit` | chat.py:15-38 | equals the first hit of the six-rule table in source order; None iff none of the six tests holds |
| `Chat.RuleAnswerTruthy` | chat.py:141-142 | every rule answer is non-empty, so `if rule_answer:` holds iff a rule fired |
| `Chat.QuickRulesIgnoresCase` | chat.py:16 | the answer depends only on the lowercased input |
| `Chat.QuickRulesAiFirst` | chat.py:19-20 | any "ai" substring, as in "said" or "email", gives the societies answer, ahead of all later rules |
| `Chat.KeywordMatch` | chat.py:42-44 | `keyword_match` holds iff some word is a whole whitespace-separated token of the text, delimited by whitespace or the ends on both sides |
| `Chat.EmbeddedWordNoMatch` | chat.py:42-44 | a word each of whose occurrences has a non-whitespace neighbour on the left or the right ("ai" in "said", "tech" in "tech.") does not match |
| `Chat.SubCategory` | chat.py:56-118 | a sub-list is named exactly for the five special tags |
| `Chat.SubCategoryFirstHit` | chat.py:56-118 | a special tag picks the first satisfied trigger of its table in source order, else `"general"` |
| `Chat.Pool` | chat.py:53-125 | under the no-crash condition, the selected list is non-empty |
| `Chat.Response` | chat.py:48-127 | an unknown tag gives "Sorry, I didn’t understand."; otherwise the reply is an element of the selected list |
| `Chat.GetResponse` | chat.py:48-127 | the scan over the intents returns exactly `Chat.Response` |
| `Chat.UnknownTag` | chat.py:127 | a tag carried by no intent gives the fixed apology |
| `Chat.FirstIntentDecides` | chat.py:51-53 | when several intents share the tag, the first in catalog order supplies the reply |
| `Chat.SocietiesTechnicalFirst` | chat.py:56-58 | a technical token in the text selects `technical`, whatever cultural or sports tokens appear too |
| `Chat.SocietiesNeedsWholeToken` | chat.py:56-64 | without any trigger word as a whole token, `societies_clubs` selects `"general"` |
| `Chat.ExamMidFirst` | chat.py:80-84 | "mid" anywhere selects `midsem`, ahead of "end" and "final" |
| `Chat.CgpaWithCgpa` | chat.py:93-97 | with "cgpa": `cgpa_formula` if "formula" occurs, else `sgpa_formula` |
| `Chat.CgpaGoodImprove` | chat.py:93-107 | `good` is selected iff neither "cgpa" nor "sgpa" occurs and "good" does; `improve` likewise, also without "good" |
| `Chat.OtherTagFlat` | chat.py:121-122 | a non-special tag with a flat list yields an element of that list |
| `Chat.OtherTagMapping` | chat.py:124-125 | a non-special tag with a mapping yields an element of `"general"`, or exactly "I can help with that!" when `"general"` is absent |
| `Chat.ReplyFromCatalog` | chat.py:51-127 | every reply is the apology, the built-in default, or an element of a list of an intent with that tag |
| `Chat.HandleLine` | chat.py:136-160 | the loop ends iff the lowercased line is exactly "exit", "quit" or "bye", and then says "Goodbye!" |
| `Chat.RuleBypassesClassifier` | chat.py:141-144 | a rule answer is the reply, whatever the classifier, catalog and draw |
| `Chat.LowConfidenceBypassesResolver` | chat.py:151-156 | confidence below 0.20 gives "Sorry, I didn’t understand that.", whatever the catalog and draw |
| `Chat.ConfidentLineResolves` | chat.py:158-160 | otherwise the reply is `get_response` of the predicted tag on the raw line |
| `App.QuickRules` | app.py:16-31 | an answer, when given, is one of the four fixed non-empty strings |
| `App.QuickRulesFirstHit` | app.py:16-31 | equals the first hit of the table technical > sports > "cgpa formula" > "sgpa formula"; None iff no test holds |
| `App.RuleAnswerTruthy` | app.py:188-190 | every rule answer is non-empty, so `if rule_answer:` holds iff a rule fired |
| `App.QuickRulesIgnoresCase` | app.py:17 | the answer depends only on the lowercased input |
| `App.BothFormulasGiveCgpa` | app.py:25-29 | a text with both formula phrases and no club word gets the CGPA formula |
| `App.Response` | app.py:34-42 | an unknown tag gives the apology; otherwise the reply is an element of the default list of the first intent with the tag |
| `App.GetResponse` | app.py:34-42 | the scan over the intents returns exactly `App.Response` |
| `App.ResponseIgnoresText` | app.py:34-42 | the reply does not depend on `user_text` |
| `App.ResponseByEntry` | app.py:35-42 | by catalog entry: a flat list's element; `"general"`'s element or "I can help with that!"; the apology for an unknown tag |
| `App.BotReply` | app.py:188-203 | the reply is a quick answer, the low-confidence apology, the resolver's apology, or an element of an intent's default list |
| `App.RuleBypassesClassifier` | app.py:188-191 | a rule answer is the reply, whatever the classifier, catalog and draw |
| `App.LowConfidenceBypassesResolver` | app.py:196-200 | confidence below 0.20 gives "Sorry, I didn’t understand that." |
| `App.ConfidentReplyResolves` | app.py:199-203 | otherwise the reply is `get_response` of the predicted tag |
| `App.Exchange` | app.py:209-210 | two entries are appended: `("You", input)`, then `("Bot", reply)`; earlier entries are unchanged |
| `App.ExchangeKeepsPairs` | app.py:209-210 | an exchange keeps the transcript in (You, Bot) pairs |
| `App.Session.constructor` | app.py:161 | a new session holds no transcript |
| `App.Session.ClearChat` | app.py:61-62 | Clear Chat sets the transcript to empty |
| `App.Session.InitMessages` | app.py:161-162 | an absent transcript becomes empty; an existing one is unchanged |
| `App.Session.Save` | app.py:209-210 | the transcript becomes the old one followed by the exchange, and stays paired |
| `App.Session.Run` | app.py:61-210 | after one run the transcript is (empty if cleared or absent, else old), extended by one exchange with `App.BotReply` exactly when a non-empty message was submitted |
| `Samples.TechWithFullStopIsNoTechToken` | chat.py:43 | "tech." keeps its full stop under `split()`, so "tech" is not one of its tokens |
| `Scenarios.FootballQuestionReply` | chat.py:22-23 | "Any football teams?" gets the sports answer from both front ends |
| `Scenarios.CgpaFormulaReply` | app.py:25-26 | "cgpa formula" gets the CGPA formula from both front ends, despite their different rule order |
| `Scenarios.GoodCgpaReply` | chat.py:35-36 | "good cgpa" is answered by the command-line rules and by none of the web rules |
| `Scenarios.DanceReply` | chat.py:25-26 | "dance" gets the cultural answer on the command line and no rule answer on the web page |
| `Scenarios.EmailReply` | chat.py:19-20 | "my email" gets the societies answer from both front ends, because it contains "ai" |
| `Scenarios.MidExamSubCategory` | chat.py:81-82 | "when is the mid exam" under `exam_timetable` draws from `midsem` |

## Left out

- Loading `model.pkl`, `vectorizer.pkl` and `intents.json` (chat.py:7-11, app.py:9-13) is file I/O. The catalog is a parameter.
- The sklearn vectorizer and model (`transform`, `predict_proba`, `predict`) are foreign, float-valued code. They are one function from the cleaned text to a confidence (a `real`) and a tag; only the comparison with 0.20 is modelled.
- `random.choice` draws from a random generator. The generator is replaced by the `draw` parameter; contracts state membership in the chosen list.
- The nltk downloads, `word_tokenize`, the English stop-word corpus and the Porter stemmer (preprocess.py:8-18) are library code. They are the fields of `Preprocess.Normalizer`.
- The command-line `input()`/`print()` loop (chat.py:131-162) is I/O. Only the decision for one line is modelled, as `Chat.HandleLine`.
- The Streamlit page is presentation and is left out:
  - page configuration, CSS, theme and sidebar text (app.py:46-154);
  - the display of earlier messages (app.py:165-171);
  - the chat bubbles and typing indicator, including `time.sleep(1)` (app.py:174-185, 205-206);
  - the footer (app.py:213).
- train_model.py is offline training with sklearn and is not part of this model.
- `str.lower` is modelled for ASCII letters only, because Unicode case mapping is out of scope. The exit-word check, the quick rules and `clean_text` all use this lowercasing.
- `split()` uses Python's whitespace set (the ASCII controls 9-13 and 28-31, the space, U+0085, U+00A0, the Unicode space separators U+1680, U+2000-U+200A, U+202F, U+205F and U+3000, and the line and paragraph separators U+2028 and U+2029). The characters are compared as Dafny `char`s, with no normalisation.
- A `responses` value that is neither a list nor a dict makes chat.py:121-125 and app.py:38-41 fall through to later intents with the same tag. `intents.json` holds only lists and mappings, and `Catalog.Responses` has just those two cases, so this path is not modelled.
- Chat.Response: requires `Chat.CanRespond`, which excludes the inputs on which the Python code raises. These are a `KeyError` for a missing sub-category; a `TypeError` when a special tag holds a flat list; and an `IndexError` when `random.choice` gets an empty list. The source does not handle these errors.
- Chat.GetResponse: requires `Chat.CanRespond`, for the same crash paths.
- Chat.HandleLine: requires `Chat.LineServable`, which is `Chat.CanRespond` on the path that reaches the resolver.
- App.Response: requires `App.CanRespond`, which excludes the `IndexError` of `random.choice` on an empty list.
- App.GetResponse: requires `App.CanRespond`, for the same crash path.
- App.BotReply: requires `App.ReplyServable`, which is `App.CanRespond` on the path that reaches the resolver. Its own ensures is a disjunction; `App.RuleBypassesClassifier`, `App.LowConfidenceBypassesResolver` and `App.ConfidentReplyResolves` give each branch exactly.
- App.Session.Run: requires `App.ReplyServable` for a submitted message, for the same reason.
- Concrete literal messages are proved only where each rule word provably misses a character of the message. The verifier cannot cheaply refute, for example, "robot" in "what sports clubs are there". So the sports example uses "Any football teams?".

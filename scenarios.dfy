/**
 * Concrete inputs: the replies both variants give to fixed messages, where
 * they agree and where they differ.
 */
module Scenarios {
  import opened Wrappers
  import opened PyStr
  import opened Samples
  import Chat
  import App

  const FootballQuestion := "Any football teams?"

  /** "Any football teams?" gets the sports answer from both variants. */
  lemma FootballQuestionReply()
    ensures Chat.QuickRules(FootballQuestion) == Some(Chat.SportsAnswer)
    ensures App.QuickRules(FootballQuestion) == Some(App.SportsAnswer)
  {
    assert Lower(FootballQuestion) == Football;
    FootballMissesRuleWords();
    FootballInFootball();
    assert Chat.RuleSports[1] == "football" && App.RuleSports[1] == "football";
  }

  /** "cgpa formula" gets the CGPA formula from both variants, despite their different rule order. */
  lemma CgpaFormulaReply()
    ensures Chat.QuickRules(CgpaFormula) == Some(Chat.CgpaFormulaAnswer)
    ensures App.QuickRules(CgpaFormula) == Some(App.CgpaFormulaAnswer)
  {
    assert Lower(CgpaFormula) == CgpaFormula;
    CgpaFormulaMissesClubWords();
    CgpaFormulaMissesOtherRules();
    CgpaFormulaInCgpaFormula();
  }

  /** "good cgpa": the command-line variant answers it, the web variant has no rule for it. */
  lemma GoodCgpaReply()
    ensures Chat.QuickRules(GoodCgpa) == Some(Chat.GoodCgpaAnswer)
    ensures App.QuickRules(GoodCgpa) == None
  {
    assert Lower(GoodCgpa) == GoodCgpa;
    GoodCgpaMissesClubWords();
    GoodCgpaMissesOtherRules();
    GoodCgpaInGoodCgpa();
  }

  /** "dance": the command-line variant names the cultural societies, the web variant has no rule. */
  lemma DanceReply()
    ensures Chat.QuickRules(Dance) == Some(Chat.CulturalAnswer)
    ensures App.QuickRules(Dance) == None
  {
    assert Lower(Dance) == Dance;
    DanceMissesRuleWords();
    DanceInDance();
    assert Chat.RuleCultural[1] == "dance";
  }

  /** "my email" holds "ai", so both variants answer with the societies text. */
  lemma EmailReply()
    ensures Chat.QuickRules(Email) == Some(Chat.SocietiesAnswer)
    ensures App.QuickRules(Email) == Some(App.SocietiesAnswer)
  {
    assert Lower(Email) == Email;
    AiInEmail();
    assert Chat.RuleTechnical[3] == "ai" && App.RuleTechnical[3] == "ai";
  }

  /** An exam message with "mid" draws from the `midsem` pool. */
  lemma MidExamSubCategory()
    ensures Chat.SubCategory(Chat.ExamTag, MidExam) == Some("midsem")
  {
    MidInMidExam();
  }
}

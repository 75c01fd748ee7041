/**
 * Substring facts about a few fixed messages. A pattern is absent when one of
 * its characters is missing from the message.
 */
module Samples {
  import opened PyStr

  const Football := "any football teams?"
  const CgpaFormula := "cgpa formula"
  const GoodCgpa := "good cgpa"
  const Dance := "dance"
  const Email := "my email"
  const MidExam := "when is the mid exam"

  /** No technical word occurs in the football question. */
  lemma FootballMissesRuleWords()
    ensures !AnyIn(Football, ["technical", "coding", "robot", "ai"])
  {
    NoneOfFour(Football, "technical", "coding", "robot", "ai", 2, 0, 0, 1);
  }

  /** No technical or sports word occurs in "cgpa formula". */
  lemma CgpaFormulaMissesClubWords()
    ensures !AnyIn(CgpaFormula, ["technical", "coding", "robot", "ai"])
    ensures !AnyIn(CgpaFormula, ["sports", "football", "cricket", "badminton"])
  {
    NoneOfFour(CgpaFormula, "technical", "coding", "robot", "ai", 0, 2, 2, 1);
    NoneOfFour(CgpaFormula, "sports", "football", "cricket", "badminton", 0, 3, 2, 0);
  }

  /** No cultural word and not "sgpa formula" occurs in "cgpa formula". */
  lemma CgpaFormulaMissesOtherRules()
    ensures !AnyIn(CgpaFormula, ["cultural", "dance", "music", "drama"])
    ensures !Contains(CgpaFormula, "sgpa formula")
  {
    NoneOfFour(CgpaFormula, "cultural", "dance", "music", "drama", 3, 0, 2, 0);
    AbsentChar(CgpaFormula, "sgpa formula", 0);
  }

  /** No technical or sports word occurs in "good cgpa". */
  lemma GoodCgpaMissesClubWords()
    ensures !AnyIn(GoodCgpa, ["technical", "coding", "robot", "ai"])
    ensures !AnyIn(GoodCgpa, ["sports", "football", "cricket", "badminton"])
  {
    NoneOfFour(GoodCgpa, "technical", "coding", "robot", "ai", 0, 3, 0, 1);
    NoneOfFour(GoodCgpa, "sports", "football", "cricket", "badminton", 0, 0, 1, 0);
  }

  /** No cultural word and neither formula phrase occurs in "good cgpa". */
  lemma GoodCgpaMissesOtherRules()
    ensures !AnyIn(GoodCgpa, ["cultural", "dance", "music", "drama"])
    ensures !Contains(GoodCgpa, "sgpa formula")
    ensures !Contains(GoodCgpa, "cgpa formula")
  {
    NoneOfFour(GoodCgpa, "cultural", "dance", "music", "drama", 1, 2, 0, 1);
    AbsentChar(GoodCgpa, "sgpa formula", 0);
    AbsentChar(GoodCgpa, "cgpa formula", 5);
  }

  /** No technical or sports word and neither formula phrase occurs in "dance". */
  lemma DanceMissesRuleWords()
    ensures !AnyIn(Dance, ["technical", "coding", "robot", "ai"])
    ensures !AnyIn(Dance, ["sports", "football", "cricket", "badminton"])
    ensures !Contains(Dance, "sgpa formula")
    ensures !Contains(Dance, "cgpa formula")
  {
    NoneOfFour(Dance, "technical", "coding", "robot", "ai", 0, 1, 0, 1);
    NoneOfFour(Dance, "sports", "football", "cricket", "badminton", 0, 0, 1, 0);
    AbsentChar(Dance, "sgpa formula", 0);
    AbsentChar(Dance, "cgpa formula", 1);
  }

  lemma FootballInFootball()
    ensures Contains(Football, "football")
  {
    PresentAt(Football, "football", 4);
  }

  lemma CgpaFormulaInCgpaFormula()
    ensures Contains(CgpaFormula, "cgpa formula")
  {
    PresentAt(CgpaFormula, "cgpa formula", 0);
  }

  lemma GoodCgpaInGoodCgpa()
    ensures Contains(GoodCgpa, "good cgpa")
  {
    PresentAt(GoodCgpa, "good cgpa", 0);
  }

  lemma DanceInDance()
    ensures Contains(Dance, "dance")
  {
    PresentAt(Dance, "dance", 0);
  }

  lemma AiInEmail()
    ensures Contains(Email, "ai")
  {
    PresentAt(Email, "ai", 5);
  }

  lemma MidInMidExam()
    ensures Contains(MidExam, "mid")
  {
    PresentAt(MidExam, "mid", 12);
  }

  /** "tech." keeps its full stop as part of the token, so "tech" is no token of it. */
  lemma TechWithFullStopIsNoTechToken()
    ensures !IsToken("tech.", "tech")
  {
    forall i | TokenAt("tech.", "tech", i) ensures false {
    }
  }
}

/**
 * The classifier of src/config/Analyzer.py once its HTTP request is taken
 * away: the analysis text a backend returned is scanned for upper-case
 * markers, and the batch wrapper pairs each sub-question with its result.
 */
module Analyzer {
  import opened Strings
  import opened Decomposition

  /** `QuestionType` (FACTUAL = 1 ... TECHNICAL = 4). */
  datatype QuestionType = Factual | Analytical | Creative | Technical

  /** `Expertise` (GENERAL = 1 ... EXPERT = 3). */
  datatype Expertise = General | Specialized | Expert

  /** The triple `analyze_question` returns. */
  datatype Classification = Classification(questionType: QuestionType, expertise: Expertise, isCodingRelated: bool)

  /** One entry of `analyze_questions`: `(question, difficulty, type, expertise, coding)`. */
  datatype AnalyzedQuestion = AnalyzedQuestion(
    question: string, difficulty: int,
    questionType: QuestionType, expertise: Expertise, isCodingRelated: bool)

  const FactualMarker: string := "FACTUAL"
  const CreativeMarker: string := "CREATIVE"
  const TechnicalMarker: string := "TECHNICAL"
  const ExpertMarker: string := "EXPERT"
  const SpecializedMarker: string := "SPECIALIZED"
  const CodingMarker: string := "CODING=TRUE"

  /**
   * What the marker scan yields for an analysis text, stated against the
   * reference notion of a substring occurrence: FACTUAL beats CREATIVE beats
   * TECHNICAL with ANALYTICAL as the default, EXPERT beats SPECIALIZED with
   * GENERAL as the default, and the coding flag is the case-sensitive marker.
   */
  function Classify(analysis: string): (c: Classification)
    ensures c.questionType == Factual <==> Occurs(analysis, FactualMarker)
    ensures c.questionType == Creative <==> !Occurs(analysis, FactualMarker) && Occurs(analysis, CreativeMarker)
    ensures c.questionType == Technical <==>
      !Occurs(analysis, FactualMarker) && !Occurs(analysis, CreativeMarker) && Occurs(analysis, TechnicalMarker)
    ensures c.questionType == Analytical <==>
      !Occurs(analysis, FactualMarker) && !Occurs(analysis, CreativeMarker) && !Occurs(analysis, TechnicalMarker)
    ensures c.expertise == Expert <==> Occurs(analysis, ExpertMarker)
    ensures c.expertise == Specialized <==> !Occurs(analysis, ExpertMarker) && Occurs(analysis, SpecializedMarker)
    ensures c.expertise == General <==> !Occurs(analysis, ExpertMarker) && !Occurs(analysis, SpecializedMarker)
    ensures c.isCodingRelated <==> Occurs(analysis, CodingMarker)
  {
    ContainsIffOccurs(analysis, FactualMarker);
    ContainsIffOccurs(analysis, CreativeMarker);
    ContainsIffOccurs(analysis, TechnicalMarker);
    ContainsIffOccurs(analysis, ExpertMarker);
    ContainsIffOccurs(analysis, SpecializedMarker);
    ContainsIffOccurs(analysis, CodingMarker);
    Classification(
      if Contains(analysis, FactualMarker) then Factual
      else if Contains(analysis, CreativeMarker) then Creative
      else if Contains(analysis, TechnicalMarker) then Technical
      else Analytical,
      if Contains(analysis, ExpertMarker) then Expert
      else if Contains(analysis, SpecializedMarker) then Specialized
      else General,
      Contains(analysis, CodingMarker))
  }

  /** The parsing block of `analyze_question`: defaults first, then overwritten marker by marker. */
  method ParseAnalysis(analysis: string) returns (questionType: QuestionType, expertise: Expertise, isCodingRelated: bool)
    ensures Classification(questionType, expertise, isCodingRelated) == Classify(analysis)
  {
    questionType := Analytical;
    expertise := General;
    isCodingRelated := false;

    if Contains(analysis, FactualMarker) {
      questionType := Factual;
    } else if Contains(analysis, CreativeMarker) {
      questionType := Creative;
    } else if Contains(analysis, TechnicalMarker) {
      questionType := Technical;
    }

    if Contains(analysis, ExpertMarker) {
      expertise := Expert;
    } else if Contains(analysis, SpecializedMarker) {
      expertise := Specialized;
    }

    if Contains(analysis, CodingMarker) {
      isCodingRelated := true;
    }
  }

  /** Python's `zip(questions, results)` turned into the five-field tuples, input order kept. */
  function Zip(questions: seq<SubQuestion>, results: seq<Classification>): seq<AnalyzedQuestion>
    decreases |questions|
  {
    if |questions| == 0 || |results| == 0 then []
    else
      [AnalyzedQuestion(questions[0].question, questions[0].difficulty,
        results[0].questionType, results[0].expertise, results[0].isCodingRelated)]
      + Zip(questions[1..], results[1..])
  }

  /** `zip` stops at the shorter input, and entry i pairs question i with result i. */
  lemma {:induction false} ZipAt(questions: seq<SubQuestion>, results: seq<Classification>)
    ensures |Zip(questions, results)| == if |questions| < |results| then |questions| else |results|
    ensures forall i :: 0 <= i < |Zip(questions, results)| ==>
      Zip(questions, results)[i] == AnalyzedQuestion(questions[i].question, questions[i].difficulty,
        results[i].questionType, results[i].expertise, results[i].isCodingRelated)
    decreases |questions|
  {
    if |questions| > 0 && |results| > 0 {
      ZipAt(questions[1..], results[1..]);
    }
  }

  /**
   * `analyze_questions`: one analysis per sub-question (collected by
   * `asyncio.gather`, which keeps the order of its tasks), each classified,
   * then zipped back onto the sub-questions.
   */
  function AnalyzeQuestions(questions: seq<SubQuestion>, analyses: seq<string>): seq<AnalyzedQuestion>
    requires |analyses| == |questions|
  {
    Zip(questions, seq(|analyses|, i requires 0 <= i < |analyses| => Classify(analyses[i])))
  }

  /** The batch has one entry per sub-question, and entry i is sub-question i with the classification of analysis i. */
  lemma AnalyzeQuestionsInOrder(questions: seq<SubQuestion>, analyses: seq<string>)
    requires |analyses| == |questions|
    ensures |AnalyzeQuestions(questions, analyses)| == |questions|
    ensures forall i :: 0 <= i < |questions| ==>
      var c := Classify(analyses[i]);
      AnalyzeQuestions(questions, analyses)[i] ==
        AnalyzedQuestion(questions[i].question, questions[i].difficulty, c.questionType, c.expertise, c.isCodingRelated)
  {
    ZipAt(questions, seq(|analyses|, i requires 0 <= i < |analyses| => Classify(analyses[i])));
  }
}

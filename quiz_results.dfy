/** The quiz-results page: the score classifiers that colour and word the
    outcome, the accuracy figure, the stand-in record built when no results
    were handed over, and the loading gate in front of the content. */
module QuizResults {
  import opened Outcomes
  import opened Display

  /** One reviewed question of a submitted quiz. */
  datatype QuestionResult = QuestionResult(userAnswer: Option<nat>, isCorrect: bool)

  /** The results object of a submission (handed over by the quiz-taking page,
      or built by `Fallback`). */
  datatype Results = Results(score: int, totalQuestions: int, correctAnswers: int, results: seq<QuestionResult>)

  /** The part of a fetched quiz this page reads: its stored score and its list
      of questions (either may be missing from the record). */
  datatype QuizRecord = QuizRecord(title: string, score: Option<int>, questionCount: Option<nat>)

  /** The five banner messages of `getScoreMessage`. */
  datatype Praise = Outstanding | GreatJob | GoodWork | NotBad | KeepPracticing {
    function Text(): string {
      match this
      case Outstanding => "Outstanding! Excellent work!"
      case GreatJob => "Great job! Well done!"
      case GoodWork => "Good work! Keep it up!"
      case NotBad => "Not bad! Room for improvement."
      case KeepPracticing => "Keep practicing! You can do better."
    }

    /** How warm the message is, from 0 (keep practicing) to 4 (outstanding). */
    function Level(): nat {
      match this
      case Outstanding => 4
      case GreatJob => 3
      case GoodWork => 2
      case NotBad => 1
      case KeepPracticing => 0
    }
  }

  /** `getScoreMessage`: one message per ten-point band from 60 up, one below. */
  function ScoreMessage(score: int): (p: Praise)
    ensures p == Outstanding <==> score >= 90
    ensures p == GreatJob <==> 80 <= score < 90
    ensures p == GoodWork <==> 70 <= score < 80
    ensures p == NotBad <==> 60 <= score < 70
    ensures p == KeepPracticing <==> score < 60
  {
    if score >= 90 then Outstanding
    else if score >= 80 then GreatJob
    else if score >= 70 then GoodWork
    else if score >= 60 then NotBad
    else KeepPracticing
  }

  /** A higher score never gets a cooler message. */
  lemma ScoreMessageMonotone(low: int, high: int)
    requires low <= high
    ensures ScoreMessage(low).Level() <= ScoreMessage(high).Level()
  {
  }

  /** The banner's colour and its message agree: success carries the two top
      messages, a warning the middle two, an error the last one. */
  lemma MessageAgreesWithColor(score: int)
    ensures ScoreColor(score) == Success <==> ScoreMessage(score).Level() >= 3
    ensures ScoreColor(score) == Warning <==> ScoreMessage(score).Level() in {1, 2}
    ensures ScoreColor(score) == Error <==> ScoreMessage(score) == KeepPracticing
  {
  }

  /** The "Score Distribution" label of the performance summary. */
  datatype Band = Excellent | Good | Fair | NeedsImprovement {
    function Label(): string {
      match this
      case Excellent => "Excellent"
      case Good => "Good"
      case Fair => "Fair"
      case NeedsImprovement => "Needs Improvement"
    }
  }

  function ScoreBand(score: int): (b: Band)
    ensures b == Excellent <==> score >= 80
    ensures b == Good <==> 60 <= score < 80
    ensures b == Fair <==> 40 <= score < 60
    ensures b == NeedsImprovement <==> score < 40
  {
    if score >= 80 then Excellent
    else if score >= 60 then Good
    else if score >= 40 then Fair
    else NeedsImprovement
  }

  /** The band shares the colour's thresholds at 80 and 60; it only splits the
      error range further at 40. */
  lemma BandAgreesWithColor(score: int)
    ensures ScoreColor(score) == Success <==> ScoreBand(score) == Excellent
    ensures ScoreColor(score) == Warning <==> ScoreBand(score) == Good
    ensures ScoreColor(score) == Error <==> ScoreBand(score) in {Fair, NeedsImprovement}
  {
  }

  /** The recommendations panel shows improvement tips (rather than "keep
      going" advice) exactly for the scores whose message is one of the two
      lowest. */
  function ShowsImprovementTips(score: int): (tips: bool)
    ensures tips <==> ScoreMessage(score).Level() <= 1
  {
    score < 70
  }

  /** The "Accuracy Rate": `Math.round(correct / total * 100)` when there are
      questions, 0 otherwise. The result is the integer nearest to the exact
      percentage, a tie going up, and it lies in 0..100 for a consistent record. */
  function Accuracy(correct: int, total: int): (r: int)
    ensures total <= 0 ==> r == 0
    ensures total > 0 ==> 2 * r * total <= 200 * correct + total < 2 * r * total + 2 * total
    ensures total > 0 && 0 <= correct <= total ==> 0 <= r <= 100
  {
    if total > 0 then
      RoundingBounds(correct, total);
      (200 * correct + total) / (2 * total)
    else 0
  }

  /** The bounds of the rounded percentage, proved on Euclidean division. */
  lemma RoundingBounds(c: int, t: int)
    requires t > 0
    ensures var r := (200 * c + t) / (2 * t); 2 * r * t <= 200 * c + t < 2 * r * t + 2 * t
    ensures 0 <= c <= t ==> 0 <= (200 * c + t) / (2 * t) <= 100
  {
    var a, q := 200 * c + t, 2 * t;
    var r := a / q;
    DivBounds(a, q);
    assert 2 * r * t == r * q;
    if 0 <= c <= t {
      assert (r + 1) * q == r * q + q;
      FactorPositive(r + 1, q);
      assert 101 * q == 202 * t;
      FactorBelow(r, 101, q);
    }
  }

  /** Euclidean division by a positive divisor brackets the dividend. */
  lemma DivBounds(a: int, d: int)
    requires d > 0
    ensures (a / d) * d <= a < (a / d) * d + d
  {
  }

  /** A positive product with a positive factor has a positive cofactor. */
  lemma FactorPositive(x: int, q: int)
    requires q > 0 && x * q > 0
    ensures x > 0
  {
  }

  /** Products with the same positive factor are ordered as their cofactors. */
  lemma FactorBelow(x: int, y: int, q: int)
    requires q > 0 && x * q < y * q
    ensures x < y
  {
  }

  /** The results record `loadResults` builds from the quiz alone: the quiz's
      stored score (0 when missing or zero), its number of questions (0 when
      there is no question list), no correct answers and no per-question
      results. */
  function Fallback(q: QuizRecord): (r: Results)
    ensures r.score == (if q.score.Some? then q.score.value else 0)
    ensures r.totalQuestions == (if q.questionCount.Some? then q.questionCount.value else 0)
    ensures r.correctAnswers == 0 && r.results == []
  {
    Results(q.score.GetOr(0), q.questionCount.GetOr(0), 0, [])
  }

  /** A stand-in record always shows an accuracy of 0 %, whatever the score. */
  lemma FallbackAccuracyIsZero(q: QuizRecord)
    ensures Accuracy(Fallback(q).correctAnswers, Fallback(q).totalQuestions) == 0
  {
    var t := Fallback(q).totalQuestions;
    if t > 0 {
      assert (200 * 0 + t) / (2 * t) == 0;
    }
  }

  /** The page's state: the fetched quiz, the results shown and the loading
      flag. */
  class ResultsPage {
    var quiz: Option<QuizRecord>
    var results: Option<Results>
    var loading: bool

    /** The gate in front of the content: nothing but the loading text until the
        page has settled with both a quiz and results. */
    predicate ShowsContent()
      reads this
    {
      !loading && quiz.Some? && results.Some?
    }

    /** Mounting the page: results handed over by the quiz-taking page are used
        as they are and only the quiz is fetched (`loadQuiz`); otherwise the quiz
        is fetched and the stand-in results are built from it (`loadResults`).
        Either way `loading` ends false, and the content shows exactly when the
        quiz fetch succeeded. */
    constructor Mount(handedOver: Option<Results>, reply: Reply<QuizRecord>)
      ensures !loading
      ensures quiz == (if reply.Ok? then Some(reply.body) else None)
      ensures handedOver.Some? ==> results == handedOver
      ensures handedOver.None? ==> results == (if reply.Ok? then Some(Fallback(reply.body)) else None)
      ensures ShowsContent() <==> reply.Ok?
    {
      quiz := None;
      results := None;
      loading := true;
      new;
      if handedOver.Some? {
        results := handedOver;
        LoadQuiz(reply);
      } else {
        LoadResults(reply);
      }
    }

    /** `loadQuiz`: the fetched quiz is stored on success, and the loading flag
        is cleared in every case. */
    method LoadQuiz(reply: Reply<QuizRecord>)
      modifies this`quiz, this`loading
      ensures !loading
      ensures quiz == (if reply.Ok? then Some(reply.body) else old(quiz))
    {
      if reply.Ok? {
        quiz := Some(reply.body);
      }
      loading := false;
    }

    /** `loadResults`: on success the quiz and its stand-in results are stored;
        the loading flag is cleared in every case. */
    method LoadResults(reply: Reply<QuizRecord>)
      modifies this
      ensures !loading
      ensures quiz == (if reply.Ok? then Some(reply.body) else old(quiz))
      ensures results == (if reply.Ok? then Some(Fallback(reply.body)) else old(results))
    {
      if reply.Ok? {
        quiz := Some(reply.body);
        results := Some(Fallback(reply.body));
      }
      loading := false;
    }
  }
}

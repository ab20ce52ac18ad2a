/** Colour classifiers used by the quiz pages. `getDifficultyColor` is written
    out identically in the quiz-taking and quiz-generator pages, and
    `getScoreColor` identically in the quiz-generator and quiz-results pages;
    each is defined once here. */
module Display {

  /** The palette names the chips and banners are given. */
  datatype Color = Success | Warning | Error | Default

  /** `getDifficultyColor`: easy, medium and hard map to the three signal
      colours, anything else to the neutral one. */
  function DifficultyColor(difficulty: string): (c: Color)
    ensures c == Success <==> difficulty == "easy"
    ensures c == Warning <==> difficulty == "medium"
    ensures c == Error <==> difficulty == "hard"
    ensures c == Default <==> difficulty !in {"easy", "medium", "hard"}
  {
    match difficulty
    case "easy" => Success
    case "medium" => Warning
    case "hard" => Error
    case _ => Default
  }

  /** `getScoreColor`: 80 and above is success, 60 to 79 a warning, below 60 an
      error; never the neutral colour. */
  function ScoreColor(score: int): (c: Color)
    ensures c == Success <==> score >= 80
    ensures c == Warning <==> 60 <= score < 80
    ensures c == Error <==> score < 60
  {
    if score >= 80 then Success
    else if score >= 60 then Warning
    else Error
  }

  /** How good a signal colour is: error < warning < success. */
  function Goodness(c: Color): nat {
    match c
    case Error => 0
    case Warning => 1
    case Success => 2
    case Default => 0
  }

  /** A higher score never gets a worse colour. */
  lemma ScoreColorMonotone(low: int, high: int)
    requires low <= high
    ensures Goodness(ScoreColor(low)) <= Goodness(ScoreColor(high))
  {
  }
}

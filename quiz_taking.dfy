/** The quiz-taking page: a question cursor, one answer slot per question, and
    a submission step that asks for confirmation while questions are left
    unanswered. */
module QuizTaking {
  import opened Outcomes
  import opened QuizResults
  import Api

  /** The part of a fetched quiz the page's logic reads. */
  datatype Quiz = Quiz(title: string, difficulty: string, questionCount: nat)

  /** One slot per question: `null` until an option index is chosen. */
  type Answers = seq<Option<nat>>

  /** `answers.filter(answer => answer === null).length` */
  function Unanswered(answers: Answers): (n: nat)
    ensures n <= |answers|
    ensures n == 0 <==> forall i :: 0 <= i < |answers| ==> answers[i].Some?
  {
    if answers == [] then 0
    else (if answers[0].None? then 1 else 0) + Unanswered(answers[1..])
  }

  /** `answers.filter(answer => answer !== null).length` */
  function Answered(answers: Answers): (n: nat)
    ensures n <= |answers|
  {
    if answers == [] then 0
    else (if answers[0].Some? then 1 else 0) + Answered(answers[1..])
  }

  /** The "Answered: k / n" figure and the count in the confirmation dialog
      always add up to the number of questions. */
  lemma {:induction false} AnsweredPlusUnanswered(answers: Answers)
    ensures Answered(answers) + Unanswered(answers) == |answers|
  {
    if answers != [] {
      AnsweredPlusUnanswered(answers[1..]);
    }
  }

  /** Choosing an option lowers the unanswered count by one when the slot was
      empty and leaves it alone when it only changes an earlier choice. */
  lemma {:induction false} SelectLowersUnanswered(answers: Answers, q: nat, k: nat)
    requires q < |answers|
    ensures Unanswered(answers[q := Some(k)]) == Unanswered(answers) - (if answers[q].None? then 1 else 0)
  {
    if q > 0 {
      SelectLowersUnanswered(answers[1..], q - 1, k);
      assert answers[q := Some(k)][1..] == answers[1..][q - 1 := Some(k)];
    } else {
      assert answers[q := Some(k)][1..] == answers[1..];
    }
  }

  /** Every slot empty: all of them are unanswered. */
  lemma {:induction false} AllUnanswered(answers: Answers)
    requires forall i :: 0 <= i < |answers| ==> answers[i].None?
    ensures Unanswered(answers) == |answers|
  {
    if answers != [] {
      AllUnanswered(answers[1..]);
    }
  }

  /** `new Array(n).fill(null)`: one empty slot per question. */
  function NoAnswers(n: nat): (a: Answers)
    ensures |a| == n && Unanswered(a) == n
  {
    var a := seq(n, _ => None);
    AllUnanswered(a);
    a
  }

  /** Where a successful submission leads: `/quiz/<id>/results`. */
  function ResultsPath(quizId: string): string {
    "/quiz/" + quizId + "/results"
  }

  class QuizTakingPage {
    const quizId: string
    var quiz: Option<Quiz>
    var loading: bool
    var currentQuestion: nat
    var answers: Answers
    var submitting: bool
    /** `confirmDialog.open` and `confirmDialog.unansweredCount` */
    var dialogOpen: bool
    var unansweredCount: nat
    /** The requests `quizAPI.submitQuiz` was called with, oldest first. */
    var submitted: seq<Api.Call<Answers>>
    /** The last `navigate(...)` target, and the results passed along with it. */
    var navigatedTo: Option<string>
    var handedOver: Option<Results>

    /** Between two handler runs: nothing is in flight, a loaded quiz has one
        answer slot per question and the cursor on one of its questions (or on
        0 for a quiz without questions), and the dialog is open exactly when it
        carries a positive count. */
    ghost predicate Valid()
      reads this
    {
      && !loading && !submitting
      && (quiz.Some? ==>
            && |answers| == quiz.value.questionCount
            && (currentQuestion < quiz.value.questionCount || currentQuestion == 0))
      && (quiz.None? ==> answers == [] && currentQuestion == 0)
      && (dialogOpen <==> unansweredCount > 0)
    }

    /** Mounting the page runs `loadQuiz`: on success the quiz is stored and every
        answer slot starts empty; on failure the user is sent back to
        `/quizzes`. */
    constructor Mount(quizId: string, reply: Reply<Quiz>)
      ensures Valid()
      ensures this.quizId == quizId && currentQuestion == 0 && !dialogOpen
      ensures submitted == [] && handedOver == None
      ensures reply.Ok? ==> quiz == Some(reply.body) && answers == NoAnswers(reply.body.questionCount) && navigatedTo == None
      ensures reply.Failed? ==> quiz == None && answers == [] && navigatedTo == Some("/quizzes")
    {
      this.quizId := quizId;
      quiz := None;
      currentQuestion := 0;
      answers := [];
      loading := true;
      submitting := false;
      dialogOpen := false;
      unansweredCount := 0;
      submitted := [];
      navigatedTo := None;
      handedOver := None;
      new;
      match reply {
        case Ok(q) =>
          quiz := Some(q);
          answers := NoAnswers(q.questionCount);
        case Failed =>
          navigatedTo := Some("/quizzes");
      }
      loading := false;
    }

    /** `handleAnswerSelect(q, k)`: slot q now holds k; no other slot and not the
        number of slots changes. */
    method SelectAnswer(q: nat, k: nat)
      requires Valid() && quiz.Some? && q < |answers|
      modifies this`answers
      ensures Valid()
      ensures answers == old(answers)[q := Some(k)]
    {
      answers := answers[q := Some(k)];
    }

    /** `handleNext`: one question on, unless on the last one already. */
    method Next()
      requires Valid() && quiz.Some?
      modifies this`currentQuestion
      ensures Valid()
      ensures currentQuestion == if old(currentQuestion) < quiz.value.questionCount - 1
                                 then old(currentQuestion) + 1 else old(currentQuestion)
    {
      if currentQuestion < quiz.value.questionCount - 1 {
        currentQuestion := currentQuestion + 1;
      }
    }

    /** `handlePrevious`: one question back, unless on the first one already. */
    method Previous()
      requires Valid() && quiz.Some?
      modifies this`currentQuestion
      ensures Valid()
      ensures currentQuestion == if old(currentQuestion) > 0 then old(currentQuestion) - 1 else 0
    {
      if currentQuestion > 0 {
        currentQuestion := currentQuestion - 1;
      }
    }

    /** The numbered buttons: one per question, each jumping to its question. */
    method JumpTo(index: nat)
      requires Valid() && quiz.Some? && index < quiz.value.questionCount
      modifies this`currentQuestion
      ensures Valid()
      ensures currentQuestion == index
    {
      currentQuestion := index;
    }

    /** `submitQuiz`: the answers are posted; on success the user moves to the
        results page with the returned results, on failure the page stays as it
        is; `submitting` is false again afterwards. */
    method SubmitQuiz(reply: Reply<Results>)
      requires Valid() && quiz.Some?
      modifies this`submitting, this`submitted, this`navigatedTo, this`handedOver
      ensures Valid()
      ensures submitted == old(submitted) + [Api.SubmitQuiz(quizId, answers)]
      ensures reply.Ok? ==> navigatedTo == Some(ResultsPath(quizId)) && handedOver == Some(reply.body)
      ensures reply.Failed? ==> navigatedTo == old(navigatedTo) && handedOver == old(handedOver)
    {
      submitting := true;
      submitted := submitted + [Api.SubmitQuiz(quizId, answers)];
      match reply {
        case Ok(r) =>
          navigatedTo := Some(ResultsPath(quizId));
          handedOver := Some(r);
        case Failed =>
      }
      submitting := false;
    }

    /** `handleSubmit`: with every question answered the quiz is submitted at
        once; otherwise nothing is sent and the confirmation dialog opens with
        the number of unanswered questions. */
    method Submit(reply: Reply<Results>)
      requires Valid() && quiz.Some?
      modifies this`dialogOpen, this`unansweredCount, this`submitting, this`submitted, this`navigatedTo, this`handedOver
      ensures Valid()
      ensures Unanswered(answers) > 0 ==>
                && dialogOpen && unansweredCount == Unanswered(answers)
                && submitted == old(submitted) && navigatedTo == old(navigatedTo)
                && handedOver == old(handedOver)
      ensures Unanswered(answers) == 0 ==>
                && dialogOpen == old(dialogOpen) && unansweredCount == old(unansweredCount)
                && submitted == old(submitted) + [Api.SubmitQuiz(quizId, answers)]
                && navigatedTo == (if reply.Ok? then Some(ResultsPath(quizId)) else old(navigatedTo))
                && handedOver == (if reply.Ok? then Some(reply.body) else old(handedOver))
    {
      var unanswered := Unanswered(answers);
      if unanswered > 0 {
        dialogOpen, unansweredCount := true, unanswered;
        return;
      }
      SubmitQuiz(reply);
    }

    /** "Submit Anyway": the dialog closes, its count returns to 0, and the
        answers are submitted as they are. */
    method ConfirmSubmit(reply: Reply<Results>)
      requires Valid() && quiz.Some?
      modifies this`dialogOpen, this`unansweredCount, this`submitting, this`submitted, this`navigatedTo, this`handedOver
      ensures Valid()
      ensures !dialogOpen && unansweredCount == 0
      ensures submitted == old(submitted) + [Api.SubmitQuiz(quizId, answers)]
      ensures navigatedTo == (if reply.Ok? then Some(ResultsPath(quizId)) else old(navigatedTo))
      ensures handedOver == (if reply.Ok? then Some(reply.body) else old(handedOver))
    {
      dialogOpen, unansweredCount := false, 0;
      SubmitQuiz(reply);
    }

    /** "Cancel": the dialog closes, its count returns to 0, nothing is sent. */
    method CancelSubmit()
      requires Valid()
      modifies this`dialogOpen, this`unansweredCount
      ensures Valid()
      ensures !dialogOpen && unansweredCount == 0
    {
      dialogOpen, unansweredCount := false, 0;
    }
  }
}

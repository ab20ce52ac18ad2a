/** The quiz-generator page: the list of the user's quizzes with their gap
    chips, and the dialog whose form asks the backend for a new quiz. */
module QuizGenerator {
  import opened Outcomes
  import opened Text
  import Api

  /** A quiz as the list endpoint returns it (the parts the page reads). */
  datatype QuizEntry = QuizEntry(id: string, title: string, difficulty: string,
                                 completed: bool, score: int, gapTopics: seq<string>)

  /** The body of a generation reply: the new quiz and its identifier. */
  datatype Generated = Generated(quizId: string, quiz: QuizEntry)

  /** A card of the list: a quiz fetched from the list endpoint, or the body of
      a generation reply, which the page puts in the list as it is. */
  datatype Card = Fetched(entry: QuizEntry) | JustGenerated(body: Generated)

  /** The analytics overview shown above the list. */
  datatype Analytics = Analytics(totalQuizzes: int, averageScore: int, recentPerformance: seq<int>)

  /** The generation dialog's form. */
  datatype QuizForm = QuizForm(subject: string, topic: string, difficulty: string, learningGaps: seq<string>)

  const DefaultForm := QuizForm("", "", "medium", [])

  /** The chips of a card's learning gaps: the first two, then one
      `+<k> more` chip counting the rest when there are more than two. */
  datatype ChipRow<T> = ChipRow(shown: seq<T>, more: Option<nat>)

  const ShownGaps := 2

  /** `gaps.slice(0, 2)` and, when `gaps.length > 2`, the count
      `gaps.length - 2`: the shown chips are the leading gaps, at most two, and
      shown and counted chips together account for every gap. */
  function GapChips<T>(gaps: seq<T>): (row: ChipRow<T>)
    ensures |row.shown| <= ShownGaps && |row.shown| <= |gaps| && row.shown == gaps[..|row.shown|]
    ensures row.more.Some? <==> |gaps| > ShownGaps
    ensures |row.shown| + row.more.GetOr(0) == |gaps|
  {
    if |gaps| > ShownGaps then ChipRow(gaps[..ShownGaps], Some(|gaps| - ShownGaps))
    else ChipRow(gaps, None)
  }

  /** Every gap is either shown as a chip or counted in the "more" chip, never
      both: the shown chips followed by the counted ones are the whole list. */
  lemma ChipsCoverGaps<T>(gaps: seq<T>)
    ensures GapChips(gaps).shown + gaps[|GapChips(gaps).shown|..] == gaps
    ensures |gaps[|GapChips(gaps).shown|..]| == GapChips(gaps).more.GetOr(0)
  {
    var k := |GapChips(gaps).shown|;
    assert gaps[..k] + gaps[k..] == gaps;
  }

  /** `quizForm.subject && quizForm.topic`: both chosen (non-empty). */
  predicate Complete(f: QuizForm) {
    f.subject != "" && f.topic != ""
  }

  /** The quiz-taking path a generated quiz leads to: `/quiz/<id>`. */
  function QuizPath(quizId: string): string {
    "/quiz/" + quizId
  }

  class QuizGeneratorPage {
    var quizzes: seq<Card>
    var analytics: Option<Analytics>
    var loading: bool
    var generating: bool
    var openDialog: bool
    var form: QuizForm
    /** The calls `quizAPI.generateQuiz(...)` made, oldest first. */
    var requested: seq<Api.Call<QuizForm>>
    var navigatedTo: Option<string>

    /** Mounting runs `loadQuizzes`: both fetches run together, and only when both
        succeed are the quizzes and the analytics stored; `loading` ends false
        either way. */
    constructor Mount(quizzesReply: Reply<seq<QuizEntry>>, analyticsReply: Reply<Analytics>)
      ensures !loading && !generating && !openDialog && form == DefaultForm
      ensures requested == [] && navigatedTo == None
      ensures quizzesReply.Ok? && analyticsReply.Ok? ==>
                && |quizzes| == |quizzesReply.body|
                && (forall i :: 0 <= i < |quizzes| ==> quizzes[i] == Fetched(quizzesReply.body[i]))
                && analytics == Some(analyticsReply.body)
      ensures quizzesReply.Failed? || analyticsReply.Failed? ==> quizzes == [] && analytics == None
    {
      quizzes := [];
      analytics := None;
      loading := true;
      generating := false;
      openDialog := false;
      form := DefaultForm;
      requested := [];
      navigatedTo := None;
      new;
      if quizzesReply.Ok? && analyticsReply.Ok? {
        quizzes := seq(|quizzesReply.body|, i requires 0 <= i < |quizzesReply.body| => Fetched(quizzesReply.body[i]));
        analytics := Some(analyticsReply.body);
      }
      loading := false;
    }

    /** "Generate New Quiz" opens the dialog; "Cancel" (or a click outside it)
        closes it. Neither touches the form. */
    method SetDialog(open: bool)
      modifies this`openDialog
      ensures openDialog == open
    {
      openDialog := open;
    }

    /** Choosing a subject clears the topic, which belongs to the previous
        subject's topic list. */
    method ChangeSubject(subject: string)
      modifies this`form
      ensures form == old(form).(subject := subject, topic := "")
    {
      form := form.(subject := subject, topic := "");
    }

    method ChangeTopic(topic: string)
      modifies this`form
      ensures form == old(form).(topic := topic)
    {
      form := form.(topic := topic);
    }

    method ChangeDifficulty(difficulty: string)
      modifies this`form
      ensures form == old(form).(difficulty := difficulty)
    {
      form := form.(difficulty := difficulty);
    }

    /** The learning-gaps text area: its value is re-parsed on every change into
        the non-blank lines, each without a line feed. */
    method ChangeGapsText(text: string)
      modifies this`form
      ensures form == old(form).(learningGaps := NonBlankLines(text))
      ensures forall i :: 0 <= i < |form.learningGaps| ==> !IsBlank(form.learningGaps[i])
    {
      form := form.(learningGaps := NonBlankLines(text));
    }

    /** `handleGenerateQuiz` (its button is disabled while generating): without
        both subject and topic nothing is sent and nothing changes. Otherwise the
        form is sent; on success the reply's body goes to the front of the list
        with the old cards after it in order, the dialog closes, the form returns
        to its defaults and the user moves to the new quiz; on failure the page
        keeps its list, dialog and form. `generating` ends false either way. */
    method GenerateQuiz(reply: Reply<Generated>)
      requires !generating
      modifies this`quizzes, this`generating, this`openDialog, this`form, this`requested, this`navigatedTo
      ensures !generating
      ensures !Complete(old(form)) ==>
                && requested == old(requested) && quizzes == old(quizzes) && form == old(form)
                && openDialog == old(openDialog) && navigatedTo == old(navigatedTo)
      ensures Complete(old(form)) ==> requested == old(requested) + [Api.GenerateQuiz(old(form))]
      ensures Complete(old(form)) && reply.Ok? ==>
                && |quizzes| == |old(quizzes)| + 1
                && quizzes[0] == JustGenerated(reply.body) && quizzes[1..] == old(quizzes)
                && !openDialog && form == DefaultForm
                && navigatedTo == Some(QuizPath(reply.body.quizId))
      ensures Complete(old(form)) && reply.Failed? ==>
                && quizzes == old(quizzes) && form == old(form)
                && openDialog == old(openDialog) && navigatedTo == old(navigatedTo)
    {
      if !Complete(form) {
        return;
      }
      generating := true;
      requested := requested + [Api.GenerateQuiz(form)];
      if reply.Ok? {
        quizzes := [JustGenerated(reply.body)] + quizzes;
        openDialog := false;
        form := DefaultForm;
        navigatedTo := Some(QuizPath(reply.body.quizId));
      }
      generating := false;
    }
  }
}

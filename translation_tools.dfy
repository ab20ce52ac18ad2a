/** The translation page: a general text translator whose two sides can be
    swapped, an educational-content translator, and a quiz translator over a
    list of question drafts that are edited in place. */
module TranslationTools {
  import opened Outcomes
  import opened Text
  import Api

  /** The general translation tab. */
  datatype TextTranslation = TextTranslation(text: string, fromLang: string, toLang: string,
                                             translatedText: string, loading: bool)

  const InitialTextTranslation := TextTranslation("", "en", "es", "", false)

  /** `swapLanguages`: the two languages trade places, and so do the source text
      and its translation; the loading flag stays. */
  function Swapped(t: TextTranslation): (r: TextTranslation)
    ensures r.fromLang == t.toLang && r.toLang == t.fromLang
    ensures r.text == t.translatedText && r.translatedText == t.text
    ensures r.loading == t.loading
  {
    t.(fromLang := t.toLang, toLang := t.fromLang, text := t.translatedText, translatedText := t.text)
  }

  /** Swapping twice restores the tab exactly. */
  lemma SwapInvolution(t: TextTranslation)
    ensures Swapped(Swapped(t)) == t
  {
  }

  /** The body `translationAPI.translate` is called with. */
  datatype TextRequest = TextRequest(text: string, fromLang: string, toLang: string)

  /** The educational-content tab. */
  datatype EducationalTranslation = EducationalTranslation(content: string, contentType: string,
                                                           fromLang: string, toLang: string,
                                                           translatedContent: string, loading: bool)

  const InitialEducational := EducationalTranslation("", "text", "en", "es", "", false)

  /** The body `translationAPI.translateEducationalContent` is called with. */
  datatype EducationalRequest = EducationalRequest(content: string, contentType: string, fromLang: string, toLang: string)

  /** A question draft's contents at one moment. */
  datatype DraftValue = DraftValue(question: string, options: seq<string>, correctAnswer: nat, explanation: string)

  /** The blank draft "Add Question" appends: four empty options, the first one
      marked correct, no explanation. */
  const BlankDraft := DraftValue("", ["", "", "", ""], 0, "")

  /** The field argument of `updateQuizQuestion`, with the value written to it. */
  datatype Field = Question(text: string) | Options(list: seq<string>) | CorrectAnswer(index: nat) | Explanation(text: string)

  /** The draft with the one named field overwritten; every other field is kept. */
  function Apply(d: DraftValue, f: Field): (r: DraftValue)
    ensures f.Question? ==> r == d.(question := f.text)
    ensures f.Options? ==> r == d.(options := f.list)
    ensures f.CorrectAnswer? ==> r == d.(correctAnswer := f.index)
    ensures f.Explanation? ==> r == d.(explanation := f.text)
  {
    match f
    case Question(s) => d.(question := s)
    case Options(os) => d.(options := os)
    case CorrectAnswer(k) => d.(correctAnswer := k)
    case Explanation(s) => d.(explanation := s)
  }

  /** Writing a field with the value it already holds changes nothing. */
  lemma ApplyCurrentValue(d: DraftValue)
    ensures Apply(d, Question(d.question)) == d
    ensures Apply(d, Options(d.options)) == d
    ensures Apply(d, CorrectAnswer(d.correctAnswer)) == d
    ensures Apply(d, Explanation(d.explanation)) == d
  {
  }

  /** A second write to the same field replaces the first. */
  lemma ApplyLastWriteWins(d: DraftValue, f: Field, g: Field)
    requires f.Question? == g.Question? && f.Options? == g.Options?
    requires f.CorrectAnswer? == g.CorrectAnswer? && f.Explanation? == g.Explanation?
    ensures Apply(Apply(d, f), g) == Apply(d, g)
  {
  }

  /** One question draft: an object, because the page edits it in place. */
  class QuestionDraft {
    var question: string
    var options: seq<string>
    var correctAnswer: nat
    var explanation: string

    function Value(): DraftValue
      reads this
    {
      DraftValue(question, options, correctAnswer, explanation)
    }

    constructor Blank()
      ensures Value() == BlankDraft
    {
      question := "";
      options := ["", "", "", ""];
      correctAnswer := 0;
      explanation := "";
    }

    /** `question[field] = value` */
    method Set(f: Field)
      modifies this
      ensures Value() == Apply(old(Value()), f)
    {
      match f {
        case Question(s) => question := s;
        case Options(os) => options := os;
        case CorrectAnswer(k) => correctAnswer := k;
        case Explanation(s) => explanation := s;
      }
    }
  }

  /** The contents of a list of drafts, in order. */
  function Values(qs: seq<QuestionDraft>): (vs: seq<DraftValue>)
    reads set q | q in qs
    ensures |vs| == |qs| && forall i :: 0 <= i < |qs| ==> vs[i] == qs[i].Value()
  {
    if qs == [] then [] else [qs[0].Value()] + Values(qs[1..])
  }

  /** A translated question as the quiz translation endpoint returns it. */
  datatype TranslatedQuestion = TranslatedQuestion(question: string, options: Option<seq<string>>)

  /** The body `translationAPI.translateQuiz` is called with. */
  datatype QuizRequest = QuizRequest(questions: seq<DraftValue>, fromLang: string, toLang: string)

  /** `String.fromCharCode(65 + k)`: the letter naming option k, 'A' for the
      first; different options get different letters. */
  function OptionLetter(k: nat): (c: char)
    requires k < 26
    ensures 'A' <= c <= 'Z'
    ensures c as int - 'A' as int == k
  {
    (65 + k) as char
  }

  class TranslationPage {
    /** `languages`: code to display name, empty until loaded. */
    var languages: map<string, string>
    var translation: TextTranslation
    var educational: EducationalTranslation
    var questions: seq<QuestionDraft>
    var quizFromLang: string
    var quizToLang: string
    var translatedQuestions: seq<TranslatedQuestion>
    var quizLoading: bool
    /** The calls made to the three translation endpoints, oldest first. */
    var textRequests: seq<Api.Call<TextRequest>>
    var educationalRequests: seq<Api.Call<EducationalRequest>>
    var quizRequests: seq<Api.Call<QuizRequest>>

    /** No two list slots hold the same draft object. */
    ghost predicate Valid()
      reads this
    {
      forall i, j :: 0 <= i < j < |questions| ==> questions[i] != questions[j]
    }

    /** Mounting runs `loadLanguages`: the language table is stored on success
        and stays empty otherwise. */
    constructor Mount(reply: Reply<map<string, string>>)
      ensures Valid()
      ensures languages == (if reply.Ok? then reply.body else map[])
      ensures translation == InitialTextTranslation && educational == InitialEducational
      ensures questions == [] && translatedQuestions == [] && !quizLoading
      ensures quizFromLang == "en" && quizToLang == "es"
      ensures textRequests == [] && educationalRequests == [] && quizRequests == []
    {
      languages := if reply.Ok? then reply.body else map[];
      translation := InitialTextTranslation;
      educational := InitialEducational;
      questions := [];
      quizFromLang := "en";
      quizToLang := "es";
      translatedQuestions := [];
      quizLoading := false;
      textRequests := [];
      educationalRequests := [];
      quizRequests := [];
    }

    /** `handleTranslate` (its button is disabled while translating): blank text
        sends nothing and changes nothing; otherwise the text goes out with both
        languages, a reply's translation is stored, a failure leaves the tab as
        it was. `loading` is false afterwards in every case. */
    method Translate(reply: Reply<string>)
      requires !translation.loading
      modifies this`translation, this`textRequests
      ensures !translation.loading
      ensures IsBlank(old(translation.text)) ==> translation == old(translation) && textRequests == old(textRequests)
      ensures !IsBlank(old(translation.text)) ==>
                textRequests == old(textRequests) + [Api.Translate(TextRequest(old(translation.text), old(translation.fromLang), old(translation.toLang)))]
      ensures !IsBlank(old(translation.text)) && reply.Ok? ==> translation == old(translation).(translatedText := reply.body)
      ensures reply.Failed? ==> translation == old(translation)
    {
      if IsBlank(translation.text) {
        return;
      }
      var before := translation;
      translation := translation.(loading := true);
      textRequests := textRequests + [Api.Translate(TextRequest(before.text, before.fromLang, before.toLang))];
      if reply.Ok? {
        translation := before.(translatedText := reply.body, loading := false);
      } else {
        translation := before.(loading := false);
      }
    }

    /** The swap button. */
    method SwapLanguages()
      modifies this`translation
      ensures translation == Swapped(old(translation))
    {
      translation := Swapped(translation);
    }

    /** `handleEducationalTranslate`: as `Translate`, for the content tab. */
    method TranslateEducational(reply: Reply<string>)
      requires !educational.loading
      modifies this`educational, this`educationalRequests
      ensures !educational.loading
      ensures IsBlank(old(educational.content)) ==> educational == old(educational) && educationalRequests == old(educationalRequests)
      ensures !IsBlank(old(educational.content)) ==>
                educationalRequests == old(educationalRequests) + [Api.TranslateEducationalContent(EducationalRequest(
                  old(educational.content), old(educational.contentType), old(educational.fromLang), old(educational.toLang)))]
      ensures !IsBlank(old(educational.content)) && reply.Ok? ==> educational == old(educational).(translatedContent := reply.body)
      ensures reply.Failed? ==> educational == old(educational)
    {
      if IsBlank(educational.content) {
        return;
      }
      var before := educational;
      educational := educational.(loading := true);
      educationalRequests := educationalRequests + [Api.TranslateEducationalContent(EducationalRequest(before.content, before.contentType, before.fromLang, before.toLang))];
      if reply.Ok? {
        educational := before.(translatedContent := reply.body, loading := false);
      } else {
        educational := before.(loading := false);
      }
    }

    /** "Add Question": one fresh blank draft at the end; the drafts already
        there are the same objects, unchanged. */
    method AddQuizQuestion()
      requires Valid()
      modifies this`questions
      ensures Valid()
      ensures |questions| == |old(questions)| + 1 && questions[..|old(questions)|] == old(questions)
      ensures fresh(questions[|old(questions)|]) && questions[|old(questions)|].Value() == BlankDraft
    {
      var d := new QuestionDraft.Blank();
      questions := questions + [d];
    }

    /** `updateQuizQuestion(index, field, value)`: the draft at `index` has the
        one field overwritten, in place; the list and every other draft are
        unchanged. */
    method UpdateQuizQuestion(index: nat, f: Field)
      requires Valid() && index < |questions|
      modifies questions[index]
      ensures Valid() && questions == old(questions)
      ensures questions[index].Value() == Apply(old(questions[index].Value()), f)
      ensures forall j :: 0 <= j < |questions| && j != index ==> questions[j].Value() == old(questions[j].Value())
    {
      questions[index].Set(f);
    }

    /** Typing into option `k` of draft `index`: the draft's options become a
        copy with entry `k` replaced, and that copy is written through
        `UpdateQuizQuestion`. */
    method EditOption(index: nat, k: nat, value: string)
      requires Valid() && index < |questions| && k < |questions[index].options|
      modifies questions[index]
      ensures Valid() && questions == old(questions)
      ensures questions[index].Value() == old(questions[index].Value()).(options := old(questions[index].options)[k := value])
      ensures forall j :: 0 <= j < |questions| && j != index ==> questions[j].Value() == old(questions[j].Value())
    {
      var updated := questions[index].options[k := value];
      UpdateQuizQuestion(index, Options(updated));
    }

    /** `handleQuizTranslate` (its button is disabled while translating): with
        no drafts nothing is sent; otherwise the drafts' contents go out with
        both languages, a reply's questions are stored, a failure leaves the
        previous translation. The drafts themselves are never changed, and
        `loading` is false afterwards in every case. */
    method TranslateQuiz(reply: Reply<seq<TranslatedQuestion>>)
      requires !quizLoading
      modifies this`quizLoading, this`translatedQuestions, this`quizRequests
      ensures !quizLoading
      ensures old(questions) == [] ==> translatedQuestions == old(translatedQuestions) && quizRequests == old(quizRequests)
      ensures old(questions) != [] ==>
                quizRequests == old(quizRequests) + [Api.TranslateQuiz(QuizRequest(Values(questions), quizFromLang, quizToLang))]
      ensures old(questions) != [] && reply.Ok? ==> translatedQuestions == reply.body
      ensures reply.Failed? ==> translatedQuestions == old(translatedQuestions)
    {
      if |questions| == 0 {
        return;
      }
      quizLoading := true;
      quizRequests := quizRequests + [Api.TranslateQuiz(QuizRequest(Values(questions), quizFromLang, quizToLang))];
      if reply.Ok? {
        translatedQuestions := reply.body;
      }
      quizLoading := false;
    }
  }
}

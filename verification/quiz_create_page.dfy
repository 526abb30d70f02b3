/** The create page of the image quiz editor: the quiz being written (title, description,
    thumbnail, rounds, switches), the validation errors on display, and the submit step that
    validates the quiz and hands it to `createImageQuiz`. */
module QuizCreatePage {

  import opened Wrappers
  import opened QuizForm
  import opened FormErrors
  import opened QuizSchema
  import opened QuizCreatePayload

  /** What a submit leads to: a toast with a reason, or the request sent to the server. */
  datatype Outcome = Rejected(message: string) | Send(req: CreateRequest)

  const ThumbnailRequired := "Thumbnail is required"
  const FixErrors := "Please fix the highlighted errors"

  /** The quiz the page would validate when submitted with the given publish choice. */
  function SubmitInput(title: string, thumbnail: Option<FileRef>, questions: seq<Question>,
                       publish: bool, randomQuestions: bool, randomAnswers: bool): QuizInput {
    QuizInput(title, thumbnail, questions, Settings(publish, randomQuestions, randomAnswers, None))
  }

  /** What `handleSubmit(publish)` leads to on the page's current contents. */
  function SubmitOutcome(title: string, description: string, thumbnail: Option<FileRef>, questions: seq<Question>,
                         publish: bool, randomQuestions: bool, randomAnswers: bool): Outcome {
    if thumbnail.None? then Rejected(ThumbnailRequired)
    else if Issues(SubmitInput(title, thumbnail, questions, publish, randomQuestions, randomAnswers)) != [] then Rejected(FixErrors)
    else Send(CreateRequest(title, description, thumbnail.value, questions,
                            Settings(publish, randomQuestions, randomAnswers, None)))
  }

  /** The error map after `handleSubmit(publish)`: the schema's problems when it ran and found
      some, the old map otherwise. */
  function ErrorsAfterSubmit(errors: map<string, string>, title: string, thumbnail: Option<FileRef>,
                             questions: seq<Question>, publish: bool, randomQuestions: bool,
                             randomAnswers: bool): map<string, string> {
    var issues := Issues(SubmitInput(title, thumbnail, questions, publish, randomQuestions, randomAnswers));
    if thumbnail.Some? && issues != [] then ErrorMap(issues) else errors
  }

  /** A request is sent exactly when the quiz meets the schema, and then every round carries
      an uploaded image and the publish choice is the button's; a rejected quiz with a
      thumbnail shows at least one error; without a thumbnail the errors stay as they were. */
  lemma SubmitMeaning(errors: map<string, string>, title: string, description: string, thumbnail: Option<FileRef>,
                      questions: seq<Question>, publish: bool, randomQuestions: bool, randomAnswers: bool)
    ensures var input := SubmitInput(title, thumbnail, questions, publish, randomQuestions, randomAnswers);
            var outcome := SubmitOutcome(title, description, thumbnail, questions, publish, randomQuestions, randomAnswers);
            var after := ErrorsAfterSubmit(errors, title, thumbnail, questions, publish, randomQuestions, randomAnswers);
            && (outcome.Send? <==> ValidQuiz(input))
            && (outcome.Send? ==> (forall i :: 0 <= i < |questions| ==> questions[i].image.Upload?)
                                  && outcome.req.settings.publish == publish && after == errors)
            && (thumbnail.None? ==> outcome == Rejected(ThumbnailRequired) && after == errors)
            && (thumbnail.Some? && !ValidQuiz(input) ==> outcome == Rejected(FixErrors) && after != map[])
  {
    var input := SubmitInput(title, thumbnail, questions, publish, randomQuestions, randomAnswers);
    IssuesEmptyIffValid(input);
    ErrorMapEmptyIff(Issues(input));
  }

  /** The steps of `handleSubmit(publish)`: without a thumbnail nothing happens but a toast;
      a quiz that breaks the schema has its problems written into a fresh error map; a valid
      quiz is sent with the publish choice of the button pressed. */
  method Submit(errors: map<string, string>, title: string, description: string, thumbnail: Option<FileRef>,
                questions: seq<Question>, publish: bool, randomQuestions: bool, randomAnswers: bool)
    returns (outcome: Outcome, after: map<string, string>)
    ensures outcome == SubmitOutcome(title, description, thumbnail, questions, publish, randomQuestions, randomAnswers)
    ensures after == ErrorsAfterSubmit(errors, title, thumbnail, questions, publish, randomQuestions, randomAnswers)
  {
    after := errors;
    if thumbnail.None? {
      return Rejected(ThumbnailRequired), after;
    }
    var issues := Issues(SubmitInput(title, thumbnail, questions, publish, randomQuestions, randomAnswers));
    if issues != [] {
      after := CollectErrors(issues);
      return Rejected(FixErrors), after;
    }
    outcome := Send(CreateRequest(title, description, thumbnail.value, questions,
                                  Settings(publish, randomQuestions, randomAnswers, None)));
  }

  class CreatePage {
    var title: string
    var description: string
    var thumbnail: Option<FileRef>
    var questions: seq<Question>
    var publish: bool
    var randomQuestions: bool
    var randomAnswers: bool
    var formErrors: map<string, string>

    /** There is always at least one round, every round has three options, and the page only
        ever holds uploaded round images. */
    predicate Valid()
      reads this`questions
    {
      && |questions| >= 1
      && (forall i :: 0 <= i < |questions| ==> |questions[i].answers| == 3)
      && UploadsOnly(questions)
    }

    /** A new page: empty texts, no thumbnail, one blank round, every switch off, no errors. */
    constructor (ids: RoundIds)
      ensures Valid()
      ensures title == "" && description == "" && thumbnail.None?
      ensures questions == [BlankRound(ids)]
      ensures !publish && !randomQuestions && !randomAnswers && formErrors == map[]
    {
      title := "";
      description := "";
      thumbnail := None;
      questions := [BlankRound(ids)];
      publish := false;
      randomQuestions := false;
      randomAnswers := false;
      formErrors := map[];
    }

    /** Typing the title also clears its error. */
    method SetTitle(value: string)
      modifies this`title, this`formErrors
      ensures title == value && formErrors == ClearError(old(formErrors), "title")
    {
      title := value;
      formErrors := ClearError(formErrors, "title");
    }

    method SetDescription(value: string)
      modifies this`description
      ensures description == value
    {
      description := value;
    }

    /** Choosing (or dropping) the thumbnail also clears its error. */
    method SetThumbnail(file: Option<FileRef>)
      modifies this`thumbnail, this`formErrors
      ensures thumbnail == file && formErrors == ClearError(old(formErrors), "thumbnail")
    {
      thumbnail := file;
      formErrors := ClearError(formErrors, "thumbnail");
    }

    method SetRandomQuestions(value: bool)
      modifies this`randomQuestions
      ensures randomQuestions == value
    {
      randomQuestions := value;
    }

    method SetRandomAnswers(value: bool)
      modifies this`randomAnswers
      ensures randomAnswers == value
    {
      randomAnswers := value;
    }

    /** `addRound`: a blank round is appended. */
    method AddRound(ids: RoundIds)
      requires Valid()
      modifies this`questions
      ensures Valid()
      ensures questions == old(questions) + [BlankRound(ids)]
    {
      questions := questions + [BlankRound(ids)];
    }

    /** The delete button of round `index`: the round goes only while more than one round is
        left. */
    method RemoveRound(index: nat)
      requires Valid()
      modifies this`questions
      ensures Valid()
      ensures questions == if |old(questions)| > 1 then DropRound(old(questions), index) else old(questions)
    {
      if |questions| > 1 {
        questions := DropRound(questions, index);
      }
    }

    /** `handleAnswerChange`: only the text of option `k` of round `i` changes. */
    method HandleAnswerChange(i: nat, k: nat, value: string)
      requires Valid() && i < |questions| && k < 3
      modifies this`questions
      ensures Valid()
      ensures questions == old(questions)[i := SetAnswerText(old(questions)[i], k, value)]
    {
      questions := questions[i := SetAnswerText(questions[i], k, value)];
    }

    /** `handleCorrectAnswer`: option `k` of round `i` becomes the only correct one. */
    method HandleCorrectAnswer(i: nat, k: nat)
      requires Valid() && i < |questions| && k < 3
      modifies this`questions
      ensures Valid()
      ensures questions == old(questions)[i := ChooseCorrect(old(questions)[i], k)]
    {
      questions := questions[i := ChooseCorrect(questions[i], k)];
    }

    /** `handleQuestionTextChange`: the round's text changes and its text error is cleared. */
    method HandleQuestionTextChange(i: nat, value: string)
      requires Valid() && i < |questions|
      modifies this`questions, this`formErrors
      ensures Valid()
      ensures questions == old(questions)[i := old(questions)[i].(text := value)]
      ensures formErrors == ClearError(old(formErrors), RoundKey(i, "questionText"))
    {
      questions := questions[i := questions[i].(text := value)];
      formErrors := ClearError(formErrors, RoundKey(i, "questionText"));
    }

    /** The round's image drop zone: the chosen file (or none) becomes the round's image and
        its image error is cleared. */
    method HandleQuestionImageChange(i: nat, file: Option<FileRef>)
      requires Valid() && i < |questions|
      modifies this`questions, this`formErrors
      ensures Valid()
      ensures questions == old(questions)[i := old(questions)[i].(image := if file.Some? then Upload(file.value) else NoImage)]
      ensures formErrors == ClearError(old(formErrors), RoundKey(i, "questionImages"))
    {
      questions := questions[i := questions[i].(image := if file.Some? then Upload(file.value) else NoImage)];
      formErrors := ClearError(formErrors, RoundKey(i, "questionImages"));
    }

    /** `handleSubmit(publish)` on the page's contents. */
    method HandleSubmit(publishNow: bool) returns (outcome: Outcome)
      modifies this`formErrors
      ensures outcome == SubmitOutcome(title, description, thumbnail, questions, publishNow, randomQuestions, randomAnswers)
      ensures formErrors == ErrorsAfterSubmit(old(formErrors), title, thumbnail, questions, publishNow,
                                              randomQuestions, randomAnswers)
    {
      outcome, formErrors := Submit(formErrors, title, description, thumbnail, questions, publishNow,
                                    randomQuestions, randomAnswers);
    }
  }
}

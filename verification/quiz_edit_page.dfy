/** The edit page of the image quiz editor: it fills itself from the loaded quiz, keeps at
    least two rounds, checks the quiz with its own rules on submit and hands the changes to
    `updateImageQuiz`. */
module QuizEditPage {

  import opened Wrappers
  import opened Text
  import opened QuizForm
  import opened FormErrors
  import opened QuizSchema
  import opened QuizFetch
  import opened QuizUpdatePayload

  const ThumbnailRequired := "Thumbnail is required"
  const TitleRequired := "Title is required"
  const RoundImageRequired := "Image is required for this round"
  const CategoryRequired := "Category is required"
  const CorrectRequired := "One correct answer must be selected"
  const AnswerTextRequired := "Answer text required"
  const FillRequired := "Please fill in all required fields."

  // ---------------------------------------------------------------------------------------
  // Loading

  /** The load effect's mapping of one loaded round: empty ids and texts fall back as in the
      loader, the image and the correct flags are kept. */
  function Remap(q: Question, i: nat, uuid: IdSlot -> string): Question {
    Question(if q.id != "" then q.id else uuid(RoundSlot(i)), q.text, q.image,
             seq(|q.answers|, k requires 0 <= k < |q.answers| =>
               q.answers[k].(id := if q.answers[k].id != "" then q.answers[k].id else uuid(AnswerSlot(i, k)))),
             q.correctAnswerId)
  }

  /** The rounds after the load effect: every loaded round remapped and cut or padded to
      three options, then blank rounds until there are two. */
  function LoadedRounds(qs: seq<Question>, uuid: IdSlot -> string, newIds: nat -> RoundIds): seq<Question> {
    PadRounds(LoadedMapped(qs, uuid), newIds)
  }

  /** Every loaded round remapped and normalised. */
  function LoadedMapped(qs: seq<Question>, uuid: IdSlot -> string): (r: seq<Question>)
    ensures |r| == |qs|
    ensures forall i :: 0 <= i < |qs| ==> r[i] == Normalize(Remap(qs[i], i, uuid), i, uuid)
  {
    seq(|qs|, i requires 0 <= i < |qs| => Normalize(Remap(qs[i], i, uuid), i, uuid))
  }

  /** `while (finalQuestions.length < 2) finalQuestions.push(blank round)`. The ids of the
      `k`-th round are `newIds(k)`; as written its three options share one id. */
  function PadRounds(qs: seq<Question>, newIds: nat -> RoundIds): (r: seq<Question>)
    decreases 2 - |qs|
  {
    if |qs| >= 2 then qs else PadRounds(qs + [BlankRound(newIds(|qs|))], newIds)
  }

  /** Padding keeps the rounds there are, in order, and adds blank rounds up to two. */
  lemma {:induction false} PadRoundsShape(qs: seq<Question>, newIds: nat -> RoundIds)
    ensures |PadRounds(qs, newIds)| == if |qs| >= 2 then |qs| else 2
    ensures PadRounds(qs, newIds)[..|qs|] == qs
    ensures forall i :: |qs| <= i < |PadRounds(qs, newIds)| ==> PadRounds(qs, newIds)[i] == BlankRound(newIds(i))
    decreases 2 - |qs|
  {
    if |qs| < 2 {
      var next := qs + [BlankRound(newIds(|qs|))];
      PadRoundsShape(next, newIds);
      assert PadRounds(qs, newIds) == PadRounds(next, newIds);
      assert next[..|qs|] == qs;
      assert PadRounds(next, newIds)[..|qs|] == PadRounds(next, newIds)[..|next|][..|qs|];
    }
  }

  /** After loading there are at least two rounds, each with exactly three options; the loaded
      rounds come first, in order, with their texts, images and correct ids, and their first
      three options keep their texts and correct flags. */
  lemma LoadedRoundsShape(qs: seq<Question>, uuid: IdSlot -> string, newIds: nat -> RoundIds)
    ensures var r := LoadedRounds(qs, uuid, newIds);
            && |r| == (if |qs| >= 2 then |qs| else 2)
            && (forall i :: 0 <= i < |r| ==> |r[i].answers| == 3)
            && (forall i :: 0 <= i < |qs| ==>
                  && r[i].text == qs[i].text && r[i].image == qs[i].image
                  && r[i].correctAnswerId == qs[i].correctAnswerId
                  && (qs[i].id != "" ==> r[i].id == qs[i].id)
                  && (forall k :: 0 <= k < 3 && k < |qs[i].answers| ==>
                        r[i].answers[k].text == qs[i].answers[k].text
                        && r[i].answers[k].isCorrect == qs[i].answers[k].isCorrect))
  {
    var mapped := LoadedMapped(qs, uuid);
    PadRoundsShape(mapped, newIds);
    var r := LoadedRounds(qs, uuid, newIds);
    forall i | 0 <= i < |qs|
      ensures |r[i].answers| == 3
      ensures forall k :: 0 <= k < 3 && k < |qs[i].answers| ==>
                r[i].answers[k].text == qs[i].answers[k].text
                && r[i].answers[k].isCorrect == qs[i].answers[k].isCorrect
    {
      assert r[i] == mapped[i];
      ThreeAnswersShape(Remap(qs[i], i, uuid).answers, PadIds(uuid, i));
    }
  }

  lemma LoadedRoundsValid(qs: seq<Question>, uuid: IdSlot -> string, newIds: nat -> RoundIds)
    ensures var r := LoadedRounds(qs, uuid, newIds);
            |r| >= 2 && forall i :: 0 <= i < |r| ==> |r[i].answers| == 3
  {
    LoadedRoundsShape(qs, uuid, newIds);
  }

  /** The rounds part of the load effect: remap, normalise each round, then push blank rounds
      while there are fewer than two. */
  method LoadRounds(qs: seq<Question>, uuid: IdSlot -> string, newIds: nat -> RoundIds) returns (rounds: seq<Question>)
    ensures rounds == LoadedRounds(qs, uuid, newIds)
  {
    var mapped := seq(|qs|, i requires 0 <= i < |qs| => Remap(qs[i], i, uuid));
    var normalized := NormalizeRounds(mapped, uuid);
    assert normalized == LoadedMapped(qs, uuid);
    rounds := normalized;
    while |rounds| < 2
      invariant PadRounds(rounds, newIds) == LoadedRounds(qs, uuid, newIds)
      decreases 2 - |rounds|
    {
      rounds := rounds + [BlankRound(newIds(|rounds|))];
    }
  }

  // ---------------------------------------------------------------------------------------
  // The submit check

  /** The problems of the texts of options `answers[..n]` of round `i`. */
  function AnswerTextIssues(i: nat, answers: seq<Answer>, n: nat): seq<Issue>
    requires n <= |answers|
  {
    if n == 0 then []
    else AnswerTextIssues(i, answers, n - 1) + Problem(!IsBlank(answers[n - 1].text), AnswerTextPath(i, n - 1), AnswerTextRequired)
  }

  /** The problems of round `i` found before its options. */
  function RoundHeadIssues(i: nat, q: Question): seq<Issue> {
    Problem(HasImage(q.image), RoundPath(i, "questionImages"), RoundImageRequired)
    + Problem(!IsBlank(q.text), RoundPath(i, "questionText"), CategoryRequired)
    + Problem(q.correctAnswerId != "", RoundPath(i, "correct_answer_id"), CorrectRequired)
  }

  function RoundIssues(i: nat, q: Question): seq<Issue> {
    RoundHeadIssues(i, q) + AnswerTextIssues(i, q.answers, |q.answers|)
  }

  /** The problems of rounds `qs[..n]`. */
  function RoundsIssues(qs: seq<Question>, n: nat): seq<Issue>
    requires n <= |qs|
  {
    if n == 0 then [] else RoundsIssues(qs, n - 1) + RoundIssues(n - 1, qs[n - 1])
  }

  /** The problems found before the rounds. */
  function PageIssues(thumbnail: Option<FileRef>, preview: Option<string>, title: string): seq<Issue> {
    Problem(thumbnail.Some? || Truthy(preview), [Key("thumbnail")], ThumbnailRequired)
    + Problem(!IsBlank(title), [Key("title")], TitleRequired)
  }

  /** Every problem the submit check finds, in the order it looks. */
  function EditIssues(thumbnail: Option<FileRef>, preview: Option<string>, title: string, qs: seq<Question>): seq<Issue> {
    PageIssues(thumbnail, preview, title) + RoundsIssues(qs, |qs|)
  }

  /** A round the edit page accepts: an image, a category, a chosen correct option, and no
      blank option text. */
  predicate RoundReady(q: Question) {
    && HasImage(q.image) && !IsBlank(q.text) && q.correctAnswerId != ""
    && AnswersFilled(q.answers, |q.answers|)
  }

  predicate AnswersFilled(answers: seq<Answer>, n: nat)
    requires n <= |answers|
  {
    forall k :: 0 <= k < n ==> !IsBlank(answers[k].text)
  }

  predicate RoundsReady(qs: seq<Question>, n: nat)
    requires n <= |qs|
  {
    forall i :: 0 <= i < n ==> RoundReady(qs[i])
  }

  /** A quiz the edit page sends: a thumbnail (new or already stored), a non-blank title and
      every round ready. */
  predicate EditReady(thumbnail: Option<FileRef>, preview: Option<string>, title: string, qs: seq<Question>) {
    (thumbnail.Some? || Truthy(preview)) && !IsBlank(title) && RoundsReady(qs, |qs|)
  }

  lemma {:induction false} AnswerTextIssuesEmptyIff(i: nat, answers: seq<Answer>, n: nat)
    requires n <= |answers|
    ensures |AnswerTextIssues(i, answers, n)| == 0 <==> AnswersFilled(answers, n)
  {
    if n > 0 {
      AnswerTextIssuesEmptyIff(i, answers, n - 1);
    }
  }

  lemma {:induction false} RoundsIssuesEmptyIff(qs: seq<Question>, n: nat)
    requires n <= |qs|
    ensures |RoundsIssues(qs, n)| == 0 <==> RoundsReady(qs, n)
  {
    if n > 0 {
      RoundsIssuesEmptyIff(qs, n - 1);
      AnswerTextIssuesEmptyIff(n - 1, qs[n - 1].answers, |qs[n - 1].answers|);
      assert |RoundsIssues(qs, n)| == |RoundsIssues(qs, n - 1)| + |RoundIssues(n - 1, qs[n - 1])|;
      assert RoundsReady(qs, n) <==> RoundsReady(qs, n - 1) && RoundReady(qs[n - 1]);
    }
  }

  /** The check finds nothing exactly when the quiz is ready to send. */
  lemma EditIssuesEmptyIff(thumbnail: Option<FileRef>, preview: Option<string>, title: string, qs: seq<Question>)
    ensures EditIssues(thumbnail, preview, title, qs) == [] <==> EditReady(thumbnail, preview, title, qs)
  {
    RoundsIssuesEmptyIff(qs, |qs|);
  }

  /** One check step: writing the problem (if any) into the map. */
  lemma ErrorMapProblem(acc: seq<Issue>, ok: bool, path: seq<Seg>, message: string)
    ensures ErrorMap(acc + Problem(ok, path, message))
            == if ok then ErrorMap(acc) else ErrorMap(acc)[PathKey(path) := message]
  {
    if ok {
      assert acc + Problem(ok, path, message) == acc;
    } else {
      ErrorMapSnoc(acc, Issue(path, message));
    }
  }

  /** The option loop of the check for round `i`. */
  method CheckAnswers(i: nat, answers: seq<Answer>, ghost acc: seq<Issue>, errors: map<string, string>, found: bool)
    returns (newErrors: map<string, string>, hasError: bool)
    requires errors == ErrorMap(acc) && found == (acc != [])
    ensures newErrors == ErrorMap(acc + AnswerTextIssues(i, answers, |answers|))
    ensures hasError == (acc + AnswerTextIssues(i, answers, |answers|) != [])
  {
    newErrors, hasError := errors, found;
    assert acc + AnswerTextIssues(i, answers, 0) == acc;
    for ai := 0 to |answers|
      invariant newErrors == ErrorMap(acc + AnswerTextIssues(i, answers, ai))
      invariant hasError == (acc + AnswerTextIssues(i, answers, ai) != [])
    {
      ghost var before := acc + AnswerTextIssues(i, answers, ai);
      ghost var step := Problem(!IsBlank(answers[ai].text), AnswerTextPath(i, ai), AnswerTextRequired);
      if IsBlank(answers[ai].text) {
        newErrors := newErrors[AnswerTextKey(i, ai) := AnswerTextRequired];
        hasError := true;
      }
      ErrorMapProblem(before, !IsBlank(answers[ai].text), AnswerTextPath(i, ai), AnswerTextRequired);
      AppendAssoc(acc, AnswerTextIssues(i, answers, ai), step);
    }
  }

  /** The checks of one round before its options. */
  method CheckRoundHead(i: nat, q: Question, ghost acc: seq<Issue>, errors: map<string, string>, found: bool)
    returns (newErrors: map<string, string>, hasError: bool)
    requires errors == ErrorMap(acc) && found == (acc != [])
    ensures newErrors == ErrorMap(acc + RoundHeadIssues(i, q))
    ensures hasError == (acc + RoundHeadIssues(i, q) != [])
  {
    newErrors, hasError := errors, found;
    ghost var p1 := Problem(HasImage(q.image), RoundPath(i, "questionImages"), RoundImageRequired);
    ghost var p2 := Problem(!IsBlank(q.text), RoundPath(i, "questionText"), CategoryRequired);
    ghost var p3 := Problem(q.correctAnswerId != "", RoundPath(i, "correct_answer_id"), CorrectRequired);
    if !HasImage(q.image) {
      newErrors := newErrors[RoundKey(i, "questionImages") := RoundImageRequired];
      hasError := true;
    }
    ErrorMapProblem(acc, HasImage(q.image), RoundPath(i, "questionImages"), RoundImageRequired);
    assert newErrors == ErrorMap(acc + p1) && hasError == (acc + p1 != []);
    if IsBlank(q.text) {
      newErrors := newErrors[RoundKey(i, "questionText") := CategoryRequired];
      hasError := true;
    }
    ErrorMapProblem(acc + p1, !IsBlank(q.text), RoundPath(i, "questionText"), CategoryRequired);
    assert newErrors == ErrorMap(acc + p1 + p2) && hasError == (acc + p1 + p2 != []);
    if q.correctAnswerId == "" {
      newErrors := newErrors[RoundKey(i, "correct_answer_id") := CorrectRequired];
      hasError := true;
    }
    ErrorMapProblem(acc + p1 + p2, q.correctAnswerId != "", RoundPath(i, "correct_answer_id"), CorrectRequired);
    assert acc + RoundHeadIssues(i, q) == acc + p1 + p2 + p3;
  }

  /** The checks of the thumbnail and the title. */
  method CheckPage(thumbnail: Option<FileRef>, preview: Option<string>, title: string)
    returns (newErrors: map<string, string>, hasError: bool)
    ensures newErrors == ErrorMap(PageIssues(thumbnail, preview, title))
    ensures hasError == (PageIssues(thumbnail, preview, title) != [])
  {
    hasError := false;
    newErrors := map[];
    ghost var p1 := Problem(thumbnail.Some? || Truthy(preview), [Key("thumbnail")], ThumbnailRequired);
    ErrorMapProblem([], thumbnail.Some? || Truthy(preview), [Key("thumbnail")], ThumbnailRequired);
    assert [] + p1 == p1;
    if !(thumbnail.Some? || Truthy(preview)) {
      newErrors := newErrors["thumbnail" := ThumbnailRequired];
      hasError := true;
    }
    ErrorMapProblem(p1, !IsBlank(title), [Key("title")], TitleRequired);
    if IsBlank(title) {
      newErrors := newErrors["title" := TitleRequired];
      hasError := true;
    }
  }

  /** The checks of round `i`: its own fields, then its options. */
  method CheckRound(i: nat, q: Question, ghost acc: seq<Issue>, errors: map<string, string>, found: bool)
    returns (newErrors: map<string, string>, hasError: bool)
    requires errors == ErrorMap(acc) && found == (acc != [])
    ensures newErrors == ErrorMap(acc + RoundIssues(i, q))
    ensures hasError == (acc + RoundIssues(i, q) != [])
  {
    newErrors, hasError := CheckRoundHead(i, q, acc, errors, found);
    newErrors, hasError := CheckAnswers(i, q.answers, acc + RoundHeadIssues(i, q), newErrors, hasError);
    assert acc + RoundIssues(i, q) == acc + RoundHeadIssues(i, q) + AnswerTextIssues(i, q.answers, |q.answers|);
  }

  lemma AppendAssoc(a: seq<Issue>, b: seq<Issue>, c: seq<Issue>)
    ensures a + (b + c) == a + b + c
  {
  }

  /** The round loop of the check, after the problems `head`. */
  method CheckRounds(qs: seq<Question>, ghost head: seq<Issue>, errors: map<string, string>, found: bool)
    returns (newErrors: map<string, string>, hasError: bool)
    requires errors == ErrorMap(head) && found == (head != [])
    ensures newErrors == ErrorMap(head + RoundsIssues(qs, |qs|))
    ensures hasError == (head + RoundsIssues(qs, |qs|) != [])
  {
    newErrors, hasError := errors, found;
    assert head + RoundsIssues(qs, 0) == head;
    for i := 0 to |qs|
      invariant newErrors == ErrorMap(head + RoundsIssues(qs, i))
      invariant hasError == (head + RoundsIssues(qs, i) != [])
    {
      ghost var acc := head + RoundsIssues(qs, i);
      newErrors, hasError := CheckRound(i, qs[i], acc, newErrors, hasError);
      AppendAssoc(head, RoundsIssues(qs, i), RoundIssues(i, qs[i]));
    }
  }

  /** The submit check of `handleSubmit`: the new error map holds every problem found, and
      `hasError` says whether there was one. */
  method CheckEdit(thumbnail: Option<FileRef>, preview: Option<string>, title: string, qs: seq<Question>)
    returns (hasError: bool, newErrors: map<string, string>)
    ensures newErrors == ErrorMap(EditIssues(thumbnail, preview, title, qs))
    ensures hasError == (EditIssues(thumbnail, preview, title, qs) != [])
  {
    newErrors, hasError := CheckPage(thumbnail, preview, title);
    newErrors, hasError := CheckRounds(qs, PageIssues(thumbnail, preview, title), newErrors, hasError);
  }

  /** What a submit leads to: a toast, or the update sent to the server. */
  datatype Outcome = Rejected(message: string) | Send(req: UpdateRequest)

  /** The update `handleSubmit(publish)` sends: every part of the page, the publish switch
      turned on by the publish button, and no theme. */
  function EditRequest(gameId: string, title: string, description: string, thumbnail: Option<FileRef>,
                       questions: seq<Question>, publish: bool, settings: Settings): UpdateRequest {
    UpdateRequest(gameId, Some(title), Some(description), thumbnail, Some(questions),
                  Some(Settings(publish || settings.publish, settings.randomQuestions, settings.randomAnswers, None)),
                  None)
  }

  /** A request is sent exactly when the quiz is ready; it publishes when either the button or
      the stored switch says so, and an explicit theme is never sent, so the server gets
      `family100`. */
  lemma EditRequestMeaning(gameId: string, title: string, description: string, thumbnail: Option<FileRef>,
                           questions: seq<Question>, publish: bool, settings: Settings)
    ensures var req := EditRequest(gameId, title, description, thumbnail, questions, publish, settings);
            && PublishFlag(req) == Some(publish || settings.publish)
            && ThemeOf(req) == "family100"
            && req.questions == Some(questions)
  {
  }

  // ---------------------------------------------------------------------------------------
  // The page

  class EditPage {
    const gameId: string
    var formErrors: map<string, string>
    var loading: bool
    var title: string
    var description: string
    var thumbnail: Option<FileRef>
    var thumbnailPreview: Option<string>
    var questions: seq<Question>
    var settings: Settings

    /** At least two rounds, each with three options. */
    predicate Valid()
      reads this`questions
    {
      |questions| >= 2 && forall i :: 0 <= i < |questions| ==> |questions[i].answers| == 3
    }

    /** A new page: empty texts, no thumbnail, two blank rounds, every switch off, loading.
        As written each initial round's three options share one id. */
    constructor (gameId: string, first: RoundIds, second: RoundIds)
      ensures Valid()
      ensures this.gameId == gameId && formErrors == map[] && loading
      ensures title == "" && description == "" && thumbnail.None? && thumbnailPreview.None?
      ensures questions == [BlankRound(first), BlankRound(second)]
      ensures settings == Settings(false, false, false, None)
    {
      this.gameId := gameId;
      formErrors := map[];
      loading := true;
      title := "";
      description := "";
      thumbnail := None;
      thumbnailPreview := None;
      questions := [BlankRound(first), BlankRound(second)];
      settings := Settings(false, false, false, None);
    }

    /** The effect on the loader's state: while it fetches the page is loading; after an error
        nothing else changes; a loaded quiz fills the page (texts, the stored thumbnail as a
        preview under the server's `base` address, the rounds and the switches). */
    method LoadEffect(fetching: bool, fetchError: Option<string>, data: Option<Detail>,
                      base: string, uuid: IdSlot -> string, newIds: nat -> RoundIds)
      requires Valid()
      modifies this
      ensures Valid()
      ensures loading == fetching
      ensures formErrors == old(formErrors)
      ensures fetching || Truthy(fetchError) || data.None? ==>
                && title == old(title) && description == old(description) && thumbnail == old(thumbnail)
                && thumbnailPreview == old(thumbnailPreview) && questions == old(questions)
                && settings == old(settings)
      ensures !fetching && !Truthy(fetchError) && data.Some? ==>
                var d := data.value;
                && title == OrElse(d.name, "") && description == OrElse(d.description, "")
                && thumbnail.None?
                && thumbnailPreview == (if Truthy(d.thumbnail) then Some(base + "/" + d.thumbnail.value) else None)
                && questions == LoadedRounds(d.questions, uuid, newIds)
                && settings == Settings(d.isPublished == Some(true), d.randomQuestions == Some(true),
                                        d.randomAnswers == Some(true), None)
    {
      if fetching {
        loading := true;
        return;
      }
      loading := false;
      if Truthy(fetchError) || data.None? {
        return;
      }
      Fill(data.value, base, uuid, newIds);
    }

    /** A loaded quiz fills the page: texts with their fallbacks, the stored thumbnail as a
        preview under `base`, the rounds, and the switches from the stored flags. */
    method Fill(d: Detail, base: string, uuid: IdSlot -> string, newIds: nat -> RoundIds)
      modifies this`title, this`description, this`thumbnail, this`thumbnailPreview, this`questions, this`settings
      ensures Valid()
      ensures title == OrElse(d.name, "") && description == OrElse(d.description, "")
      ensures thumbnail.None?
      ensures thumbnailPreview == (if Truthy(d.thumbnail) then Some(base + "/" + d.thumbnail.value) else None)
      ensures questions == LoadedRounds(d.questions, uuid, newIds)
      ensures settings == Settings(d.isPublished == Some(true), d.randomQuestions == Some(true),
                                   d.randomAnswers == Some(true), None)
    {
      title := OrElse(d.name, "");
      description := OrElse(d.description, "");
      thumbnailPreview := if Truthy(d.thumbnail) then Some(base + "/" + d.thumbnail.value) else None;
      thumbnail := None;
      questions := LoadRounds(d.questions, uuid, newIds);
      LoadedRoundsValid(d.questions, uuid, newIds);
      settings := Settings(d.isPublished == Some(true), d.randomQuestions == Some(true),
                           d.randomAnswers == Some(true), None);
    }

    /** `addRound`: a blank round carrying the given ids is appended. The page as written
        passes one id for all three options (`SharedIdsAreAsWritten`); the corrected page
        passes three distinct ones (`BlankRoundChoice`). */
    method AddRound(ids: RoundIds)
      requires Valid()
      modifies this`questions
      ensures Valid()
      ensures questions == old(questions) + [BlankRound(ids)]
    {
      questions := questions + [BlankRound(ids)];
    }

    /** `removeRound`: nothing happens while only two rounds are left. */
    method RemoveRound(index: nat)
      requires Valid()
      modifies this`questions
      ensures Valid()
      ensures questions == if |old(questions)| <= 2 then old(questions) else DropRound(old(questions), index)
    {
      if |questions| <= 2 {
        return;
      }
      questions := DropRound(questions, index);
    }

    /** Typing the title also clears its error. */
    method SetTitle(value: string)
      modifies this`title, this`formErrors
      ensures title == value && formErrors == ClearError(old(formErrors), "title")
    {
      title := value;
      formErrors := ClearError(formErrors, "title");
    }

    method SetDescription(value: string)
      modifies this`description
      ensures description == value
    {
      description := value;
    }

    /** `handleThumbnailChange`: a chosen file also becomes the preview (its object URL);
        dropping the file keeps the old preview. */
    method HandleThumbnailChange(file: Option<FileRef>, objectUrl: string)
      modifies this`thumbnail, this`thumbnailPreview, this`formErrors
      ensures thumbnail == file
      ensures thumbnailPreview == if file.Some? then Some(objectUrl) else old(thumbnailPreview)
      ensures formErrors == ClearError(old(formErrors), "thumbnail")
    {
      thumbnail := file;
      if file.Some? {
        thumbnailPreview := Some(objectUrl);
      }
      formErrors := ClearError(formErrors, "thumbnail");
    }

    method SetRandomQuestions(value: bool)
      modifies this`settings
      ensures settings == old(settings).(randomQuestions := value)
    {
      settings := settings.(randomQuestions := value);
    }

    method SetRandomAnswers(value: bool)
      modifies this`settings
      ensures settings == old(settings).(randomAnswers := value)
    {
      settings := settings.(randomAnswers := value);
    }

    /** `handleAnswerChange`: only the text of option `k` of round `i` changes, and that
        text's error is cleared. */
    method HandleAnswerChange(i: nat, k: nat, value: string)
      requires Valid() && i < |questions| && k < 3
      modifies this`questions, this`formErrors
      ensures Valid()
      ensures questions == old(questions)[i := SetAnswerText(old(questions)[i], k, value)]
      ensures formErrors == ClearError(old(formErrors), AnswerTextKey(i, k))
    {
      questions := questions[i := SetAnswerText(questions[i], k, value)];
      formErrors := ClearError(formErrors, AnswerTextKey(i, k));
    }

    /** `handleCorrectAnswer`: option `k` of round `i` becomes the only correct one, and the
        round's option and correct-id errors go. */
    method HandleCorrectAnswer(i: nat, k: nat)
      requires Valid() && i < |questions| && k < 3
      modifies this`questions, this`formErrors
      ensures Valid()
      ensures questions == old(questions)[i := ChooseCorrect(old(questions)[i], k)]
      ensures formErrors == old(formErrors) - {RoundKey(i, "answers"), RoundKey(i, "correct_answer_id")}
    {
      questions := questions[i := ChooseCorrect(questions[i], k)];
      formErrors := formErrors - {RoundKey(i, "answers"), RoundKey(i, "correct_answer_id")};
    }

    /** `handleQuestionTextChange`: the round's text changes and its text error is cleared. */
    method HandleQuestionTextChange(i: nat, value: string)
      requires Valid() && i < |questions|
      modifies this`questions, this`formErrors
      ensures Valid()
      ensures questions == old(questions)[i := old(questions)[i].(text := value)]
      ensures formErrors == ClearError(old(formErrors), RoundKey(i, "questionText"))
    {
      questions := questions[i := questions[i].(text := value)];
      formErrors := ClearError(formErrors, RoundKey(i, "questionText"));
    }

    /** `handleQuestionImageChange`: the chosen file (or none) replaces the round's image and
        its image error is cleared. */
    method HandleQuestionImageChange(i: nat, file: Option<FileRef>)
      requires Valid() && i < |questions|
      modifies this`questions, this`formErrors
      ensures Valid()
      ensures questions == old(questions)[i := old(questions)[i].(image := if file.Some? then Upload(file.value) else NoImage)]
      ensures formErrors == ClearError(old(formErrors), RoundKey(i, "questionImages"))
    {
      questions := questions[i := questions[i].(image := if file.Some? then Upload(file.value) else NoImage)];
      formErrors := ClearError(formErrors, RoundKey(i, "questionImages"));
    }

    /** `handleSubmit(publish)`: the check's problems replace the error map and block the
        update; otherwise the update is sent and loading ends. */
    method HandleSubmit(publish: bool) returns (outcome: Outcome)
      modifies this`formErrors, this`loading
      ensures var issues := EditIssues(thumbnail, thumbnailPreview, title, questions);
              && (issues != [] ==> outcome == Rejected(FillRequired) && formErrors == ErrorMap(issues)
                                   && loading == old(loading))
              && (issues == [] ==> outcome == Send(EditRequest(gameId, title, description, thumbnail, questions,
                                                               publish, settings))
                                   && formErrors == old(formErrors) && !loading)
    {
      var hasError, newErrors := CheckEdit(thumbnail, thumbnailPreview, title, questions);
      if hasError {
        formErrors := newErrors;
        return Rejected(FillRequired);
      }
      loading := true;
      outcome := Send(EditRequest(gameId, title, description, thumbnail, questions, publish, settings));
      loading := false;
    }
  }

  // ---------------------------------------------------------------------------------------
  // The shared option id of a new round, followed through a save and a reload

  /** What the server returns for a saved round: its id, texts, options and correct id. */
  function Stored(q: Question): ApiQuestion {
    ApiQuestion(Some(q.id), Some(q.text), None, Some(q.correctAnswerId),
                Some(seq(|q.answers|, k requires 0 <= k < |q.answers| =>
                  ApiAnswer(Some(q.answers[k].id), Some(q.answers[k].text)))))
  }

  /** A new round of the edit page as written, with its first option chosen, comes back from a
      save and a reload with all three options marked correct. */
  lemma SharedIdReloadsAllCorrect(questionId: string, answerId: string, base: string, uuid: IdSlot -> string)
    requires answerId != ""
    ensures var chosen := ChooseCorrect(EditBlankRoundAsWritten(questionId, answerId), 0);
            var loaded := FetchedQuestions([Stored(chosen)], base, uuid)[0];
            forall k :: 0 <= k < 3 ==> loaded.answers[k].isCorrect
  {
    var chosen := ChooseCorrect(EditBlankRoundAsWritten(questionId, answerId), 0);
    FetchedRound([Stored(chosen)], base, uuid, 0);
  }

  /** With distinct option ids, the same save and reload shows exactly the chosen option as
      correct. */
  lemma DistinctIdsReloadChoice(ids: RoundIds, k: nat, base: string, uuid: IdSlot -> string)
    requires k < 3
    requires ids.first != "" && ids.second != "" && ids.third != ""
    requires ids.first != ids.second && ids.first != ids.third && ids.second != ids.third
    ensures var chosen := ChooseCorrect(BlankRound(ids), k);
            var loaded := FetchedQuestions([Stored(chosen)], base, uuid)[0];
            forall j :: 0 <= j < 3 ==> (loaded.answers[j].isCorrect <==> j == k)
  {
    var chosen := ChooseCorrect(BlankRound(ids), k);
    FetchedRound([Stored(chosen)], base, uuid, 0);
  }
}

/** `createImageQuiz`: the multipart form a new image quiz is sent as. Round images are
    uploaded once each as `files_to_upload`, and every round names its image by its position
    among those files. */
module QuizCreatePayload {

  import opened Wrappers
  import opened Seqs
  import opened QuizForm
  import opened QuizPayload

  /** What the create page hands over; its rounds carry uploaded files or no image. */
  datatype CreateRequest = CreateRequest(title: string, description: string, thumbnail: FileRef,
                                         questions: seq<Question>, settings: Settings)

  /** The create page never holds an image URL, only files. */
  predicate UploadsOnly(qs: seq<Question>) {
    forall i :: 0 <= i < |qs| ==> !qs[i].image.Url?
  }

  /** Every image of a round is among the files. */
  lemma ImageAmongFiles(qs: seq<Question>, i: nat)
    requires i < |qs| && qs[i].image.Upload?
    ensures qs[i].image.file in Files(qs)
  {
    FilesPrefix(qs, i);
  }

  /** One round of `questionsPayload`; `allFiles.indexOf` is the first position of the
      image among the files. */
  function RoundPayload(q: Question, allFiles: seq<FileRef>): QuestionPayload {
    QuestionPayload(q.id, q.text, q.correctAnswerId, AnswersPayload(q.answers),
                    if q.image.Upload? then Some(FileIndex(FirstIndexOf(allFiles, q.image.file))) else None)
  }

  /** `questionsPayload`: one entry per round, in round order. */
  function RoundsPayload(qs: seq<Question>, allFiles: seq<FileRef>): (r: seq<QuestionPayload>)
    ensures |r| == |qs| && forall i :: 0 <= i < |qs| ==> r[i] == RoundPayload(qs[i], allFiles)
  {
    seq(|qs|, i requires 0 <= i < |qs| => RoundPayload(qs[i], allFiles))
  }

  /** A round's entry keeps its id, text, correct id and options (without the correct flags);
      a round with an image points at a position of the files holding that very image, the
      first such; with distinct files that position is the number of images of the rounds
      before it; a round without an image has no position. */
  lemma RoundsPayloadMeaning(qs: seq<Question>, i: nat)
    requires i < |qs| && UploadsOnly(qs)
    ensures var r := RoundsPayload(qs, Files(qs))[i];
            && r.questionId == qs[i].id && r.questionText == qs[i].text
            && r.correctAnswerId == qs[i].correctAnswerId && r.answers == AnswersPayload(qs[i].answers)
            && (qs[i].image == NoImage ==> r.imageRef.None?)
            && (qs[i].image.Upload? ==>
                  && r.imageRef.Some? && r.imageRef.value.FileIndex?
                  && r.imageRef.value.i < |Files(qs)| && Files(qs)[r.imageRef.value.i] == qs[i].image.file
                  && (forall j :: 0 <= j < r.imageRef.value.i ==> Files(qs)[j] != qs[i].image.file)
                  && (NoDuplicates(Files(qs)) ==> r.imageRef.value.i == |Files(qs[..i])|))
  {
    if qs[i].image.Upload? {
      FilesPrefix(qs, i);
      if NoDuplicates(Files(qs)) {
        FirstIndexOfUnique(Files(qs), |Files(qs[..i])|);
      }
    }
  }

  /** The fields `createImageQuiz` appends before the files: thumbnail, title, the
      description when it is non-empty, the three switches and the theme. */
  function Preamble(req: CreateRequest): seq<Field> {
    [Field(ThumbnailImage, Blob(req.thumbnail))]
    + ([Field(Name, Text(req.title))]
    + ((if req.description != "" then [Field(Description, Text(req.description))] else [])
    + ([Field(IsPublishImmediately, Text(BoolText(req.settings.publish)))]
    + ([Field(IsQuestionRandomized, Text(BoolText(req.settings.randomQuestions)))]
    + ([Field(IsAnswerRandomized, Text(BoolText(req.settings.randomAnswers)))]
    + [Field(Theme, Text(ThemeOrDefault(req.settings.theme)))])))))
  }

  /** The whole form `createImageQuiz` sends, in append order. */
  function CreateFormData(req: CreateRequest): seq<Field> {
    Preamble(req) + FileFields(Files(req.questions))
    + [Field(Questions, Rounds(RoundsPayload(req.questions, Files(req.questions))))]
  }

  /** The preamble looked up field by field. */
  lemma PreambleSplit(req: CreateRequest, name: FieldName)
    ensures var desc := if req.description != "" then [Field(Description, Text(req.description))] else [];
            Lookup(Preamble(req), name)
            == Pick(Field(ThumbnailImage, Blob(req.thumbnail)), name) + (Pick(Field(Name, Text(req.title)), name)
               + (Lookup(desc, name)
               + (Pick(Field(IsPublishImmediately, Text(BoolText(req.settings.publish))), name)
               + (Pick(Field(IsQuestionRandomized, Text(BoolText(req.settings.randomQuestions))), name)
               + (Pick(Field(IsAnswerRandomized, Text(BoolText(req.settings.randomAnswers))), name)
               + Pick(Field(Theme, Text(ThemeOrDefault(req.settings.theme))), name))))))
  {
    var f1, f2 := Field(ThumbnailImage, Blob(req.thumbnail)), Field(Name, Text(req.title));
    var desc := if req.description != "" then [Field(Description, Text(req.description))] else [];
    var f3 := Field(IsPublishImmediately, Text(BoolText(req.settings.publish)));
    var f4 := Field(IsQuestionRandomized, Text(BoolText(req.settings.randomQuestions)));
    var f5 := Field(IsAnswerRandomized, Text(BoolText(req.settings.randomAnswers)));
    var f6 := Field(Theme, Text(ThemeOrDefault(req.settings.theme)));
    LookupCons(f1, [f2] + (desc + ([f3] + ([f4] + ([f5] + [f6])))), name);
    LookupCons(f2, desc + ([f3] + ([f4] + ([f5] + [f6]))), name);
    LookupAppend(desc, [f3] + ([f4] + ([f5] + [f6])), name);
    LookupCons(f3, [f4] + ([f5] + [f6]), name);
    LookupCons(f4, [f5] + [f6], name);
    LookupCons(f5, [f6], name);
    LookupOne(f6, name);
  }

  /** The whole form looked up part by part. */
  lemma FormSplit(req: CreateRequest, name: FieldName)
    ensures var files := Files(req.questions);
            Lookup(CreateFormData(req), name)
            == Lookup(Preamble(req), name) + Lookup(FileFields(files), name)
               + Pick(Field(Questions, Rounds(RoundsPayload(req.questions, files))), name)
  {
    var files := Files(req.questions);
    var last := Field(Questions, Rounds(RoundsPayload(req.questions, files)));
    LookupAppend(Preamble(req) + FileFields(files), [last], name);
    LookupAppend(Preamble(req), FileFields(files), name);
    LookupOne(last, name);
  }

  /** The description reaches the server only when it is non-empty. */
  lemma CreateDescriptionField(req: CreateRequest)
    ensures Lookup(CreateFormData(req), Description) == if req.description != "" then [Text(req.description)] else []
  {
    LookupOne(Field(Description, Text(req.description)), Description);
    PreambleSplit(req, Description);
    FormSplit(req, Description);
    FileFieldsLookup(Files(req.questions), Description);
  }

  /** The publish switch is sent once, as given. */
  lemma CreatePublishField(req: CreateRequest)
    ensures Lookup(CreateFormData(req), IsPublishImmediately) == [Text(BoolText(req.settings.publish))]
  {
    LookupOne(Field(Description, Text(req.description)), IsPublishImmediately);
    PreambleSplit(req, IsPublishImmediately);
    FormSplit(req, IsPublishImmediately);
    FileFieldsLookup(Files(req.questions), IsPublishImmediately);
  }

  /** The theme is sent once: the one set, or `family100` when none is. */
  lemma CreateThemeField(req: CreateRequest)
    ensures Lookup(CreateFormData(req), Theme) == [Text(ThemeOrDefault(req.settings.theme))]
  {
    LookupOne(Field(Description, Text(req.description)), Theme);
    PreambleSplit(req, Theme);
    FormSplit(req, Theme);
    FileFieldsLookup(Files(req.questions), Theme);
  }

  /** Every round image is uploaded once, in round order. */
  lemma CreateFilesField(req: CreateRequest)
    ensures Lookup(CreateFormData(req), FilesToUpload) == Blobs(Files(req.questions))
  {
    LookupOne(Field(Description, Text(req.description)), FilesToUpload);
    PreambleSplit(req, FilesToUpload);
    FormSplit(req, FilesToUpload);
    FileFieldsLookup(Files(req.questions), FilesToUpload);
  }

  /** The rounds are sent once, as one list. */
  lemma CreateRoundsField(req: CreateRequest)
    ensures Lookup(CreateFormData(req), Questions) == [Rounds(RoundsPayload(req.questions, Files(req.questions)))]
  {
    LookupOne(Field(Description, Text(req.description)), Questions);
    PreambleSplit(req, Questions);
    FormSplit(req, Questions);
    FileFieldsLookup(Files(req.questions), Questions);
  }

  /** The `allFiles.push` loop. */
  method CollectFiles(qs: seq<Question>) returns (allFiles: seq<FileRef>)
    ensures allFiles == Files(qs)
  {
    allFiles := [];
    var i := 0;
    while i < |qs|
      invariant i <= |qs|
      invariant allFiles == Files(qs[..i])
    {
      assert qs[..i + 1][..i] == qs[..i];
      if qs[i].image.Upload? {
        allFiles := allFiles + [qs[i].image.file];
      }
      i := i + 1;
    }
    assert qs[..|qs|] == qs;
  }

  /** `createImageQuiz` building its form field by field. */
  method CreateImageQuiz(req: CreateRequest) returns (form: seq<Field>)
    ensures form == CreateFormData(req)
  {
    form := [Field(ThumbnailImage, Blob(req.thumbnail)), Field(Name, Text(req.title))];
    if req.description != "" {
      form := form + [Field(Description, Text(req.description))];
    }
    form := form + [Field(IsPublishImmediately, Text(BoolText(req.settings.publish)))];
    form := form + [Field(IsQuestionRandomized, Text(BoolText(req.settings.randomQuestions)))];
    form := form + [Field(IsAnswerRandomized, Text(BoolText(req.settings.randomAnswers)))];
    form := form + [Field(Theme, Text(ThemeOrDefault(req.settings.theme)))];
    assert form == Preamble(req);
    var allFiles := CollectFiles(req.questions);
    var k := 0;
    while k < |allFiles|
      invariant k <= |allFiles|
      invariant form == Preamble(req) + FileFields(allFiles[..k])
    {
      FileFieldsSnoc(allFiles, k);
      form := form + [Field(FilesToUpload, Blob(allFiles[k]))];
      k := k + 1;
    }
    assert allFiles[..k] == allFiles;
    form := form + [Field(Questions, Rounds(RoundsPayload(req.questions, allFiles)))];
  }
}

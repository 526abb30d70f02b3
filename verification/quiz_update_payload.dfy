/** `updateImageQuiz`: the multipart form an edited image quiz is sent as. Only what is given
    is sent; new round images are uploaded as `files_to_upload` and named by their position
    among them, while images already stored are named by their path relative to the API
    server. */
module QuizUpdatePayload {

  import opened Wrappers
  import opened Text
  import opened QuizForm
  import opened QuizPayload
  import opened QuizFetch

  /** What the edit page hands over; every part but the game id is optional. */
  datatype UpdateRequest = UpdateRequest(gameId: string, title: Option<string>, description: Option<string>,
                                         thumbnail: Option<FileRef>, questions: Option<seq<Question>>,
                                         settings: Option<Settings>, isPublish: Option<bool>)

  /** `payload.is_publish ?? payload.settings?.isPublishImmediately`. */
  function PublishFlag(req: UpdateRequest): (r: Option<bool>)
    ensures req.isPublish.Some? ==> r == req.isPublish
    ensures req.isPublish.None? && req.settings.Some? ==> r == Some(req.settings.value.publish)
    ensures r.None? <==> req.isPublish.None? && req.settings.None?
  {
    if req.isPublish.Some? then req.isPublish
    else if req.settings.Some? then Some(req.settings.value.publish)
    else None
  }

  /** `settings?.theme || "family100"`. */
  function ThemeOf(req: UpdateRequest): string {
    ThemeOrDefault(if req.settings.Some? then req.settings.value.theme else None)
  }

  /** A stored image address made relative: when it starts with the server's non-empty `base`
      address, the first `base/` in it is removed, and then one leading slash. */
  function Relativize(url: string, base: string): (r: string)
    ensures !(base != "" && base <= url) ==> r == url
  {
    if base != "" && base <= url then
      var stripped := ReplaceFirst(url, base + "/", "");
      if "/" <= stripped then stripped[1..] else stripped
    else url
  }

  /** The entry of `questionImageFileIndex` for a round preceded by `uploadsBefore` new images. */
  function ImageRefOf(q: Question, uploadsBefore: nat, base: string): Option<ImageRef> {
    match q.image
    case Upload(_) => Some(FileIndex(uploadsBefore))
    case Url(u) => Some(StoredPath(Relativize(u, base)))
    case NoImage => None
  }

  /** `questionImageFileIndex` for all rounds. */
  function ImageRefs(qs: seq<Question>, base: string): (r: seq<Option<ImageRef>>)
    ensures |r| == |qs|
  {
    seq(|qs|, i requires 0 <= i < |qs| => RefAt(qs, i, base))
  }

  /** The entry of round `i`. */
  function RefAt(qs: seq<Question>, i: nat, base: string): Option<ImageRef>
    requires i < |qs|
  {
    ImageRefOf(qs[i], |Files(qs[..i])|, base)
  }

  /** `questionsPayload`: one entry per round, carrying the round's image reference when it
      has one. */
  function UpdateRounds(qs: seq<Question>, refs: seq<Option<ImageRef>>): (r: seq<QuestionPayload>)
    requires |refs| == |qs|
    ensures |r| == |qs|
  {
    seq(|qs|, i requires 0 <= i < |qs| =>
      QuestionPayload(qs[i].id, qs[i].text, qs[i].correctAnswerId, AnswersPayload(qs[i].answers), refs[i]))
  }

  /** A field that is appended only when `present`. */
  function Opt(present: bool, f: Field): seq<Field> {
    if present then [f] else []
  }

  /** The fields before the rounds, in append order. */
  function Head(req: UpdateRequest): seq<Field> {
    var s := req.settings.GetOr(Settings(false, false, false, None));
    Opt(req.thumbnail.Some?, Field(ThumbnailImage, Blob(req.thumbnail.GetOr(FileRef(0)))))
    + Opt(Truthy(req.title), Field(Name, Text(req.title.GetOr(""))))
    + Opt(Truthy(req.description), Field(Description, Text(req.description.GetOr(""))))
    + Opt(PublishFlag(req).Some?, Field(IsPublishImmediately, Text(BoolText(PublishFlag(req).GetOr(false)))))
    + Opt(req.settings.Some?, Field(IsQuestionRandomized, Text(BoolText(s.randomQuestions))))
    + Opt(req.settings.Some?, Field(IsAnswerRandomized, Text(BoolText(s.randomAnswers))))
    + [Field(Theme, Text(ThemeOf(req)))]
  }

  /** The files and the rounds, sent only when rounds are given. */
  function Tail(req: UpdateRequest, base: string): seq<Field> {
    match req.questions
    case None => []
    case Some(qs) => FileFields(Files(qs)) + [Field(Questions, Rounds(UpdateRounds(qs, ImageRefs(qs, base))))]
  }

  /** The whole form `updateImageQuiz` sends, in append order. */
  function UpdateFormData(req: UpdateRequest, base: string): seq<Field> {
    Head(req) + Tail(req, base)
  }

  /** What the fields before the rounds hold under each name. */
  function HeadValues(req: UpdateRequest, name: FieldName): seq<Value> {
    match name
    case ThumbnailImage => if req.thumbnail.Some? then [Blob(req.thumbnail.value)] else []
    case Name => if Truthy(req.title) then [Text(req.title.value)] else []
    case Description => if Truthy(req.description) then [Text(req.description.value)] else []
    case IsPublishImmediately => if PublishFlag(req).Some? then [Text(BoolText(PublishFlag(req).value))] else []
    case IsQuestionRandomized => if req.settings.Some? then [Text(BoolText(req.settings.value.randomQuestions))] else []
    case IsAnswerRandomized => if req.settings.Some? then [Text(BoolText(req.settings.value.randomAnswers))] else []
    case Theme => [Text(ThemeOf(req))]
    case FilesToUpload => []
    case Questions => []
  }

  /** What an optional field holds under `name`. */
  function OptValues(present: bool, f: Field, name: FieldName): seq<Value> {
    if present && f.name == name then [f.value] else []
  }

  lemma LookupOpt(present: bool, f: Field, name: FieldName)
    ensures Lookup(Opt(present, f), name) == OptValues(present, f, name)
  {
    if present {
      LookupOne(f, name);
    }
  }

  /** The fields before the rounds looked up one by one. */
  lemma HeadSum(req: UpdateRequest, name: FieldName)
    ensures var s := req.settings.GetOr(Settings(false, false, false, None));
            Lookup(Head(req), name)
            == OptValues(req.thumbnail.Some?, Field(ThumbnailImage, Blob(req.thumbnail.GetOr(FileRef(0)))), name)
               + OptValues(Truthy(req.title), Field(Name, Text(req.title.GetOr(""))), name)
               + OptValues(Truthy(req.description), Field(Description, Text(req.description.GetOr(""))), name)
               + OptValues(PublishFlag(req).Some?, Field(IsPublishImmediately, Text(BoolText(PublishFlag(req).GetOr(false)))), name)
               + OptValues(req.settings.Some?, Field(IsQuestionRandomized, Text(BoolText(s.randomQuestions))), name)
               + OptValues(req.settings.Some?, Field(IsAnswerRandomized, Text(BoolText(s.randomAnswers))), name)
               + OptValues(true, Field(Theme, Text(ThemeOf(req))), name)
  {
    var s := req.settings.GetOr(Settings(false, false, false, None));
    var o1 := Opt(req.thumbnail.Some?, Field(ThumbnailImage, Blob(req.thumbnail.GetOr(FileRef(0)))));
    var o2 := Opt(Truthy(req.title), Field(Name, Text(req.title.GetOr(""))));
    var o3 := Opt(Truthy(req.description), Field(Description, Text(req.description.GetOr(""))));
    var o4 := Opt(PublishFlag(req).Some?, Field(IsPublishImmediately, Text(BoolText(PublishFlag(req).GetOr(false)))));
    var o5 := Opt(req.settings.Some?, Field(IsQuestionRandomized, Text(BoolText(s.randomQuestions))));
    var o6 := Opt(req.settings.Some?, Field(IsAnswerRandomized, Text(BoolText(s.randomAnswers))));
    var t := Field(Theme, Text(ThemeOf(req)));
    LookupAppend(o1 + o2 + o3 + o4 + o5 + o6, [t], name);
    LookupAppend(o1 + o2 + o3 + o4 + o5, o6, name);
    LookupAppend(o1 + o2 + o3 + o4, o5, name);
    LookupAppend(o1 + o2 + o3, o4, name);
    LookupAppend(o1 + o2, o3, name);
    LookupAppend(o1, o2, name);
    LookupOpt(req.thumbnail.Some?, Field(ThumbnailImage, Blob(req.thumbnail.GetOr(FileRef(0)))), name);
    LookupOpt(Truthy(req.title), Field(Name, Text(req.title.GetOr(""))), name);
    LookupOpt(Truthy(req.description), Field(Description, Text(req.description.GetOr(""))), name);
    LookupOpt(PublishFlag(req).Some?, Field(IsPublishImmediately, Text(BoolText(PublishFlag(req).GetOr(false)))), name);
    LookupOpt(req.settings.Some?, Field(IsQuestionRandomized, Text(BoolText(s.randomQuestions))), name);
    LookupOpt(req.settings.Some?, Field(IsAnswerRandomized, Text(BoolText(s.randomAnswers))), name);
    LookupOpt(true, t, name);
    assert [t] == Opt(true, t);
  }

  /** The fields before the rounds looked up by name. */
  lemma HeadLookup(req: UpdateRequest, name: FieldName)
    ensures Lookup(Head(req), name) == HeadValues(req, name)
  {
    HeadSum(req, name);
    match name
    case ThumbnailImage =>
    case Name =>
    case Description =>
    case IsPublishImmediately =>
    case IsQuestionRandomized =>
    case IsAnswerRandomized =>
    case Theme =>
    case FilesToUpload =>
    case Questions =>
  }

  /** The whole form looked up by name. */
  lemma UpdateSplit(req: UpdateRequest, base: string, name: FieldName)
    ensures Lookup(UpdateFormData(req, base), name) == HeadValues(req, name) + Lookup(Tail(req, base), name)
  {
    LookupAppend(Head(req), Tail(req, base), name);
    HeadLookup(req, name);
  }

  /** The rounds part looked up. */
  lemma TailLookup(req: UpdateRequest, base: string, name: FieldName)
    ensures Lookup(Tail(req, base), name)
            == match req.questions
               case None => []
               case Some(qs) =>
                 (if name == FilesToUpload then Blobs(Files(qs)) else [])
                 + (if name == Questions then [Rounds(UpdateRounds(qs, ImageRefs(qs, base)))] else [])
  {
    if req.questions.Some? {
      var qs := req.questions.value;
      var last := Field(Questions, Rounds(UpdateRounds(qs, ImageRefs(qs, base))));
      LookupAppend(FileFields(Files(qs)), [last], name);
      FileFieldsLookup(Files(qs), name);
      LookupOne(last, name);
    }
  }

  /** The name is sent only when the title is non-empty; an empty title leaves the stored
      name alone. */
  lemma UpdateNameField(req: UpdateRequest, base: string)
    ensures Lookup(UpdateFormData(req, base), Name) == if Truthy(req.title) then [Text(req.title.value)] else []
  {
    UpdateSplit(req, base, Name);
    TailLookup(req, base, Name);
  }

  /** The publish switch is sent once when it is known: an explicit `is_publish` wins over the
      settings, and with neither nothing is sent. */
  lemma UpdatePublishField(req: UpdateRequest, base: string)
    ensures Lookup(UpdateFormData(req, base), IsPublishImmediately)
            == if req.isPublish.Some? then [Text(BoolText(req.isPublish.value))]
               else if req.settings.Some? then [Text(BoolText(req.settings.value.publish))]
               else []
  {
    UpdateSplit(req, base, IsPublishImmediately);
    TailLookup(req, base, IsPublishImmediately);
  }

  /** The theme is always sent, once: the one set, or `family100`. */
  lemma UpdateThemeField(req: UpdateRequest, base: string)
    ensures Lookup(UpdateFormData(req, base), Theme) == [Text(ThemeOf(req))]
    ensures ThemeOf(req) != ""
  {
    UpdateSplit(req, base, Theme);
    TailLookup(req, base, Theme);
  }

  /** New round images are uploaded, in round order, only when rounds are sent. */
  lemma UpdateFilesField(req: UpdateRequest, base: string)
    ensures Lookup(UpdateFormData(req, base), FilesToUpload)
            == if req.questions.Some? then Blobs(Files(req.questions.value)) else []
  {
    UpdateSplit(req, base, FilesToUpload);
    TailLookup(req, base, FilesToUpload);
  }

  /** The rounds are sent once when given (an empty list included) and not at all otherwise. */
  lemma UpdateRoundsField(req: UpdateRequest, base: string)
    ensures Lookup(UpdateFormData(req, base), Questions)
            == if req.questions.Some?
               then [Rounds(UpdateRounds(req.questions.value, ImageRefs(req.questions.value, base)))]
               else []
  {
    UpdateSplit(req, base, Questions);
    TailLookup(req, base, Questions);
  }

  /** A round's image reference: a new image names the position of that very image among the
      uploaded files, which is the number of new images of the rounds before it; a stored
      image names its relative path; a round without an image names nothing. */
  lemma RoundImageMeaning(qs: seq<Question>, base: string, i: nat)
    requires i < |qs|
    ensures var r := UpdateRounds(qs, ImageRefs(qs, base))[i];
            && r.questionId == qs[i].id && r.questionText == qs[i].text
            && r.correctAnswerId == qs[i].correctAnswerId && r.answers == AnswersPayload(qs[i].answers)
            && (qs[i].image == NoImage ==> r.imageRef.None?)
            && (qs[i].image.Url? ==> r.imageRef == Some(StoredPath(Relativize(qs[i].image.url, base))))
            && (qs[i].image.Upload? ==>
                  && r.imageRef == Some(FileIndex(|Files(qs[..i])|))
                  && |Files(qs[..i])| < |Files(qs)| && Files(qs)[|Files(qs[..i])|] == qs[i].image.file)
  {
    FilesPrefix(qs, i);
  }

  /** A stored path that the load step turned into an address under a non-empty server
      address comes back unchanged when the edit is saved. */
  lemma StoredImageRoundTrip(path: string, base: string)
    requires base != "" && path != []
    requires !("http" <= path) && path[0] != '/'
    ensures ImageOf(Some(path), base) == Url(base + "/" + path)
    ensures Relativize(base + "/" + path, base) == path
  {
    var url := base + "/" + path;
    assert base <= url;
    ReplaceFirstOfPrefix(url, base + "/");
    assert url[|base + "/"|..] == path;
  }

  /** The `forEach` that fills `questionImageFileIndex` and collects `filesToUpload`. */
  method IndexImages(qs: seq<Question>, base: string) returns (files: seq<FileRef>, refs: seq<Option<ImageRef>>)
    ensures files == Files(qs)
    ensures refs == ImageRefs(qs, base)
  {
    var index := new Option<ImageRef>[|qs|](_ => None);
    files := [];
    for qi := 0 to |qs|
      invariant files == Files(qs[..qi])
      invariant forall j :: 0 <= j < qi ==> index[j] == RefAt(qs, j, base)
    {
      assert qs[..qi + 1][..qi] == qs[..qi];
      ghost var before := files;
      match qs[qi].image {
        case Upload(f) =>
          index[qi] := Some(FileIndex(|files|));
          files := files + [f];
        case Url(u) =>
          index[qi] := Some(StoredPath(Relativize(u, base)));
        case NoImage =>
          index[qi] := None;
      }
      assert index[qi] == ImageRefOf(qs[qi], |before|, base) == RefAt(qs, qi, base);
    }
    assert qs[..|qs|] == qs;
    refs := index[..];
  }

  /** The fields `updateImageQuiz` appends before the rounds. */
  method AppendHead(req: UpdateRequest) returns (form: seq<Field>)
    ensures form == Head(req)
  {
    var s := req.settings.GetOr(Settings(false, false, false, None));
    form := Opt(req.thumbnail.Some?, Field(ThumbnailImage, Blob(req.thumbnail.GetOr(FileRef(0)))));
    ghost var head := form;
    if Truthy(req.title) {
      form := form + [Field(Name, Text(req.title.value))];
    }
    head := head + Opt(Truthy(req.title), Field(Name, Text(req.title.GetOr(""))));
    assert form == head;
    if Truthy(req.description) {
      form := form + [Field(Description, Text(req.description.value))];
    }
    head := head + Opt(Truthy(req.description), Field(Description, Text(req.description.GetOr(""))));
    assert form == head;
    var isPublish := if req.isPublish.Some? then req.isPublish
                     else if req.settings.Some? then Some(req.settings.value.publish) else None;
    if isPublish.Some? {
      form := form + [Field(IsPublishImmediately, Text(BoolText(isPublish.value)))];
    }
    head := head + Opt(PublishFlag(req).Some?, Field(IsPublishImmediately, Text(BoolText(PublishFlag(req).GetOr(false)))));
    assert form == head;
    if req.settings.Some? {
      form := form + [Field(IsQuestionRandomized, Text(BoolText(req.settings.value.randomQuestions)))];
    }
    head := head + Opt(req.settings.Some?, Field(IsQuestionRandomized, Text(BoolText(s.randomQuestions))));
    assert form == head;
    if req.settings.Some? {
      form := form + [Field(IsAnswerRandomized, Text(BoolText(req.settings.value.randomAnswers)))];
    }
    head := head + Opt(req.settings.Some?, Field(IsAnswerRandomized, Text(BoolText(s.randomAnswers))));
    assert form == head;
    form := form + [Field(Theme, Text(ThemeOf(req)))];
  }

  /** `updateImageQuiz` building its form field by field. */
  method UpdateImageQuiz(req: UpdateRequest, base: string) returns (form: seq<Field>)
    ensures form == UpdateFormData(req, base)
  {
    form := AppendHead(req);
    if req.questions.Some? {
      var qs := req.questions.value;
      var files, refs := IndexImages(qs, base);
      var k := 0;
      while k < |files|
        invariant k <= |files|
        invariant form == Head(req) + FileFields(files[..k])
      {
        FileFieldsSnoc(files, k);
        form := form + [Field(FilesToUpload, Blob(files[k]))];
        k := k + 1;
      }
      assert files[..k] == files;
      form := form + [Field(Questions, Rounds(UpdateRounds(qs, refs)))];
    } else {
      assert form + Tail(req, base) == form;
    }
  }
}

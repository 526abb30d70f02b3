/** The multipart form the image-quiz API receives: a list of named fields, each a text, a
    file or the JSON list of rounds. Both the create and the update request use it. */
module QuizPayload {

  import opened Wrappers
  import opened QuizForm

  /** Where a round's image comes from: position `i` of the uploaded files, or the relative
      path of an image the server already stores. */
  datatype ImageRef = FileIndex(i: nat) | StoredPath(path: string)

  datatype AnswerPayload = AnswerPayload(answerId: string, answerText: string)

  datatype QuestionPayload = QuestionPayload(questionId: string, questionText: string, correctAnswerId: string,
                                             answers: seq<AnswerPayload>, imageRef: Option<ImageRef>)

  datatype Value = Text(text: string) | Blob(file: FileRef) | Rounds(rounds: seq<QuestionPayload>)

  /** The names the API's form fields go by. */
  datatype FieldName =
    | ThumbnailImage | Name | Description | IsPublishImmediately | IsQuestionRandomized
    | IsAnswerRandomized | Theme | FilesToUpload | Questions

  /** The field name as sent. */
  function WireName(n: FieldName): string {
    match n
    case ThumbnailImage => "thumbnail_image"
    case Name => "name"
    case Description => "description"
    case IsPublishImmediately => "is_publish_immediately"
    case IsQuestionRandomized => "is_question_randomized"
    case IsAnswerRandomized => "is_answer_randomized"
    case Theme => "theme"
    case FilesToUpload => "files_to_upload"
    case Questions => "questions"
  }

  /** One `formData.append(name, value)`. */
  datatype Field = Field(name: FieldName, value: Value)

  /** `String(b)`. */
  function BoolText(b: bool): string {
    if b then "true" else "false"
  }

  /** `settings.theme || "family100"`: an absent or empty theme becomes `family100`. */
  function ThemeOrDefault(theme: Option<string>): (t: string)
    ensures t != ""
    ensures theme.Some? && theme.value != "" ==> t == theme.value
    ensures theme.None? || theme.value == "" ==> t == "family100"
  {
    if theme.Some? && theme.value != "" then theme.value else "family100"
  }

  /** The uploaded images of the rounds that have one, in round order. */
  function Files(qs: seq<Question>): seq<FileRef> {
    if qs == [] then []
    else Files(qs[..|qs| - 1]) + (if qs[|qs| - 1].image.Upload? then [qs[|qs| - 1].image.file] else [])
  }

  /** The files of the first `i` rounds come first, and round `i`'s own image, if any,
      comes right after them. */
  lemma {:induction false} FilesPrefix(qs: seq<Question>, i: nat)
    requires i <= |qs|
    ensures Files(qs[..i]) <= Files(qs)
    ensures i < |qs| && qs[i].image.Upload? ==>
              |Files(qs[..i])| < |Files(qs)| && Files(qs)[|Files(qs[..i])|] == qs[i].image.file
    decreases |qs|
  {
    if i < |qs| {
      var init := qs[..|qs| - 1];
      assert qs[..|qs|] == qs;
      if i < |init| {
        FilesPrefix(init, i);
        assert init[..i] == qs[..i];
      } else {
        assert init == qs[..i];
      }
    } else {
      assert qs[..i] == qs;
    }
  }

  /** One `files_to_upload` field per file, in order. */
  function FileFields(files: seq<FileRef>): (r: seq<Field>)
    ensures |r| == |files|
    ensures forall k :: 0 <= k < |files| ==> r[k] == Field(FilesToUpload, Blob(files[k]))
  {
    seq(|files|, k requires 0 <= k < |files| => Field(FilesToUpload, Blob(files[k])))
  }

  /** The files as form values. */
  function Blobs(files: seq<FileRef>): (r: seq<Value>)
    ensures |r| == |files| && forall k :: 0 <= k < |files| ==> r[k] == Blob(files[k])
  {
    seq(|files|, k requires 0 <= k < |files| => Blob(files[k]))
  }

  /** The file fields hold exactly the files, in order, and nothing under any other name. */
  lemma {:induction false} FileFieldsLookup(files: seq<FileRef>, name: FieldName)
    ensures Lookup(FileFields(files), name) == if name == FilesToUpload then Blobs(files) else []
    decreases |files|
  {
    if files != [] {
      assert FileFields(files)[1..] == FileFields(files[1..]);
      FileFieldsLookup(files[1..], name);
    }
  }

  /** One more file appends one more field. */
  lemma FileFieldsSnoc(files: seq<FileRef>, k: nat)
    requires k < |files|
    ensures FileFields(files[..k + 1]) == FileFields(files[..k]) + [Field(FilesToUpload, Blob(files[k]))]
  {
  }

  /** `answers.map((a) => ({ answer_id: a.answer_id, answer_text: a.text }))`: the options
      in order, each with its id and text and without its correct flag. */
  function AnswersPayload(answers: seq<Answer>): (r: seq<AnswerPayload>)
    ensures |r| == |answers|
    ensures forall k :: 0 <= k < |answers| ==> r[k] == AnswerPayload(answers[k].id, answers[k].text)
  {
    seq(|answers|, k requires 0 <= k < |answers| => AnswerPayload(answers[k].id, answers[k].text))
  }

  /** `formData.getAll(name)`: the values appended under `name`, in order. */
  function Lookup(fields: seq<Field>, name: FieldName): seq<Value> {
    if fields == [] then []
    else (if fields[0].name == name then [fields[0].value] else []) + Lookup(fields[1..], name)
  }

  /** Looking up in two lists appended is looking up in each. */
  lemma {:induction false} LookupAppend(a: seq<Field>, b: seq<Field>, name: FieldName)
    ensures Lookup(a + b, name) == Lookup(a, name) + Lookup(b, name)
    decreases |a|
  {
    if a == [] {
      assert a + b == b;
    } else {
      assert (a + b)[1..] == a[1..] + b;
      LookupAppend(a[1..], b, name);
    }
  }

  /** The value of a single field looked up by name. */
  function Pick(f: Field, name: FieldName): seq<Value> {
    if f.name == name then [f.value] else []
  }

  /** Looking up past a first field. */
  lemma LookupCons(f: Field, rest: seq<Field>, name: FieldName)
    ensures Lookup([f] + rest, name) == Pick(f, name) + Lookup(rest, name)
  {
    assert ([f] + rest)[1..] == rest;
  }

  /** Looking up in a single field. */
  lemma LookupOne(f: Field, name: FieldName)
    ensures Lookup([f], name) == if f.name == name then [f.value] else []
  {
    assert [f][1..] == [];
  }
}

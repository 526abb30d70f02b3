/** The records of the image-quiz editors: a round has an id, a category text, an image, its
    answer options and the id of the correct option. Both editors and the API hooks share
    them, together with the edits both editors make to a round. */
module QuizForm {

  import opened Wrappers
  import opened Seqs

  /** A browser `File` object; two files are the same object exactly when their handles are
      equal. */
  datatype FileRef = FileRef(handle: nat)

  /** `File | string | null`: a new upload, the URL of an image already stored, or none. */
  datatype Image = NoImage | Upload(file: FileRef) | Url(url: string)

  /** JavaScript truthiness of an image: a file, or a non-empty URL. */
  predicate HasImage(img: Image) {
    img.Upload? || (img.Url? && img.url != "")
  }

  datatype Answer = Answer(id: string, text: string, isCorrect: bool)

  datatype Question = Question(id: string, text: string, image: Image, answers: seq<Answer>, correctAnswerId: string)

  /** The editors' switches; `theme` is absent when the editor sends none. */
  datatype Settings = Settings(publish: bool, randomQuestions: bool, randomAnswers: bool, theme: Option<string>)

  /** The places where a fresh `uuidv4()` fills in a missing id while rounds are loaded:
      round `q`'s own id, the id of its option `a`, and the `k`-th padding option. */
  datatype IdSlot = RoundSlot(q: nat) | AnswerSlot(q: nat, a: nat) | PadSlot(q: nat, k: nat)

  /** The three padding ids of round `i`. */
  function PadIds(uuid: IdSlot -> string, i: nat): (r: seq<string>)
    ensures |r| == 3
  {
    [uuid(PadSlot(i, 0)), uuid(PadSlot(i, 1)), uuid(PadSlot(i, 2))]
  }

  /** The identifiers `uuidv4()` hands out for one new round. */
  datatype RoundIds = RoundIds(question: string, first: string, second: string, third: string)

  function BlankAnswer(id: string): (a: Answer)
    ensures a.text == "" && !a.isCorrect
  {
    Answer(id, "", false)
  }

  /** A new round: no text, no image, three blank options none of which is correct, and no
      correct option chosen. */
  function BlankRound(ids: RoundIds): (q: Question)
    ensures q.id == ids.question && q.text == "" && q.image == NoImage && q.correctAnswerId == ""
    ensures |q.answers| == 3 && forall k :: 0 <= k < 3 ==> q.answers[k].text == "" && !q.answers[k].isCorrect
    ensures q.answers[0].id == ids.first && q.answers[1].id == ids.second && q.answers[2].id == ids.third
  {
    Question(ids.question, "", NoImage, [BlankAnswer(ids.first), BlankAnswer(ids.second), BlankAnswer(ids.third)], "")
  }

  /** The ids of a round's options are pairwise distinct. */
  predicate DistinctAnswerIds(q: Question) {
    forall j, k :: 0 <= j < k < |q.answers| ==> q.answers[j].id != q.answers[k].id
  }

  /** What a reload of the saved round shows: an option is marked correct exactly when its id
      is the round's correct id. */
  predicate CorrectByIdentity(q: Question) {
    forall k :: 0 <= k < |q.answers| ==> (q.answers[k].isCorrect <==> q.answers[k].id == q.correctAnswerId)
  }

  /** `handleCorrectAnswer(qIndex, k)` on one round: option `k` becomes the only correct one
      and its id becomes the correct id. */
  function ChooseCorrect(q: Question, k: nat): (r: Question)
    requires k < |q.answers|
    ensures r.id == q.id && r.text == q.text && r.image == q.image && |r.answers| == |q.answers|
    ensures forall j :: 0 <= j < |q.answers| ==>
              r.answers[j] == q.answers[j].(isCorrect := j == k)
    ensures r.correctAnswerId == q.answers[k].id
  {
    q.(answers := seq(|q.answers|, j requires 0 <= j < |q.answers| => q.answers[j].(isCorrect := j == k)),
       correctAnswerId := q.answers[k].id)
  }

  /** After choosing, exactly one option is marked correct; when the option ids are distinct
      it is also the only option whose id is the correct id, so a reload shows the same
      choice. */
  lemma ChooseCorrectExactlyOne(q: Question, k: nat)
    requires k < |q.answers|
    ensures forall j :: 0 <= j < |q.answers| ==> (ChooseCorrect(q, k).answers[j].isCorrect <==> j == k)
    ensures DistinctAnswerIds(q) ==> CorrectByIdentity(ChooseCorrect(q, k))
  {
  }

  /** `handleAnswerChange(qIndex, k, text)` on one round: only the text of option `k` changes. */
  function SetAnswerText(q: Question, k: nat, text: string): (r: Question)
    requires k < |q.answers|
    ensures r.id == q.id && r.text == q.text && r.image == q.image && r.correctAnswerId == q.correctAnswerId
    ensures |r.answers| == |q.answers| && r.answers[k] == q.answers[k].(text := text)
    ensures forall j :: 0 <= j < |q.answers| && j != k ==> r.answers[j] == q.answers[j]
  {
    q.(answers := q.answers[k := q.answers[k].(text := text)])
  }

  /** `prev.filter((_, i) => i !== index)`: the round at `index` goes, the others keep their
      order; an index past the end removes nothing. */
  function DropRound(qs: seq<Question>, index: nat): (r: seq<Question>)
    ensures index < |qs| ==> |r| == |qs| - 1
                             && (forall i :: 0 <= i < index ==> r[i] == qs[i])
                             && (forall i :: index <= i < |r| ==> r[i] == qs[i + 1])
    ensures index >= |qs| ==> r == qs
  {
    if index < |qs| then RemoveAt(qs, index) else qs
  }

  /** The options a loaded round is given: its first three in order, then blank options with
      the fresh ids `pad` until there are three. */
  function ThreeAnswers(answers: seq<Answer>, pad: seq<string>): (r: seq<Answer>)
    requires |pad| >= 3
  {
    if |answers| >= 3 then answers[..3]
    else answers + seq(3 - |answers|, k requires 0 <= k < 3 - |answers| => BlankAnswer(pad[k]))
  }

  /** Normalisation keeps exactly three options: the originals first, in order, then blank
      options that are not correct. */
  lemma ThreeAnswersShape(answers: seq<Answer>, pad: seq<string>)
    requires |pad| >= 3
    ensures |ThreeAnswers(answers, pad)| == 3
    ensures forall k :: 0 <= k < 3 && k < |answers| ==> ThreeAnswers(answers, pad)[k] == answers[k]
    ensures forall k :: |answers| <= k < 3 ==>
              ThreeAnswers(answers, pad)[k] == BlankAnswer(pad[k - |answers|])
  {
  }

  /** The normalising `while (arr.length < 3) arr.push(...)` after `answers.slice(0, 3)`. */
  method PadAnswers(answers: seq<Answer>, pad: seq<string>) returns (arr: seq<Answer>)
    requires |pad| >= 3
    ensures arr == ThreeAnswers(answers, pad)
  {
    arr := if |answers| >= 3 then answers[..3] else answers;
    while |arr| < 3
      invariant |arr| <= 3
      invariant |answers| >= 3 ==> arr == answers[..3]
      invariant |answers| < 3 ==> |arr| >= |answers| && arr[..|answers|] == answers
      invariant |answers| < 3 ==> forall k :: |answers| <= k < |arr| ==> arr[k] == BlankAnswer(pad[k - |answers|])
      decreases 3 - |arr|
    {
      arr := arr + [BlankAnswer(pad[|arr| - |answers|])];
    }
  }

  /** A blank round whose three option ids are distinct lets the author pick any option and
      keeps the choice identifiable by id. */
  lemma BlankRoundChoice(ids: RoundIds, k: nat)
    requires k < 3
    requires ids.first != ids.second && ids.first != ids.third && ids.second != ids.third
    ensures DistinctAnswerIds(BlankRound(ids))
    ensures CorrectByIdentity(ChooseCorrect(BlankRound(ids), k))
  {
    ChooseCorrectExactlyOne(BlankRound(ids), k);
  }

  /** The new round of the edit page as written: `Array(3).fill({ answer_id: uuidv4(), ... })`
      puts one option, with one id, in all three places. */
  function EditBlankRoundAsWritten(questionId: string, answerId: string): (q: Question)
    ensures |q.answers| == 3 && q.answers[0].id == q.answers[1].id == q.answers[2].id
  {
    Question(questionId, "", NoImage, [BlankAnswer(answerId), BlankAnswer(answerId), BlankAnswer(answerId)], "")
  }

  /** The blank round built from one id for all three options is the edit page's round as
      written: editors that take the ids as a parameter cover the page as written (equal
      option ids) and the corrected page (distinct option ids) alike. */
  lemma SharedIdsAreAsWritten(questionId: string, answerId: string)
    ensures BlankRound(RoundIds(questionId, answerId, answerId, answerId)) == EditBlankRoundAsWritten(questionId, answerId)
  {
  }

  /** In such a round, picking the first option marks only it as correct, yet the correct id
      is also the id of the other two options. */
  lemma SharedIdBreaksChoice(questionId: string, answerId: string)
    ensures !DistinctAnswerIds(EditBlankRoundAsWritten(questionId, answerId))
    ensures var r := ChooseCorrect(EditBlankRoundAsWritten(questionId, answerId), 0);
            && r.answers[0].isCorrect && !r.answers[1].isCorrect && !r.answers[2].isCorrect
            && r.answers[1].id == r.correctAnswerId && r.answers[2].id == r.correctAnswerId
            && !CorrectByIdentity(r)
  {
    var r := ChooseCorrect(EditBlankRoundAsWritten(questionId, answerId), 0);
    assert !(r.answers[1].isCorrect <==> r.answers[1].id == r.correctAnswerId);
  }
}

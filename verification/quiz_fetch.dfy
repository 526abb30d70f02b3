/** Loading a saved image quiz for editing: the server returns the quiz with every round
    field optional, and the rounds are mapped onto editor rounds with exactly three options
    each. */
module QuizFetch {

  import opened Wrappers
  import opened QuizForm

  datatype ApiAnswer = ApiAnswer(answerId: Option<string>, answerText: Option<string>)

  datatype ApiQuestion = ApiQuestion(questionId: Option<string>, questionText: Option<string>,
                                     imageUrl: Option<string>, correctAnswerId: Option<string>,
                                     answers: Option<seq<ApiAnswer>>)

  datatype ApiGameJson = ApiGameJson(randomQuestions: Option<bool>, randomAnswers: Option<bool>,
                                     questions: Option<seq<ApiQuestion>>)

  datatype ApiDetail = ApiDetail(id: string, name: Option<string>, description: Option<string>,
                                 thumbnail: Option<string>, isPublished: Option<bool>,
                                 gameJson: Option<ApiGameJson>)

  /** The loaded quiz as the editor receives it: the server's fields, with the rounds replaced
      by the normalised editor rounds. */
  datatype Detail = Detail(id: string, name: Option<string>, description: Option<string>,
                           thumbnail: Option<string>, isPublished: Option<bool>,
                           randomQuestions: Option<bool>, randomAnswers: Option<bool>,
                           questions: seq<Question>)

  const LoadError := "Failed to load image quiz details."

  /** JavaScript truthiness of an optional string: present and not empty. */
  predicate Truthy(s: Option<string>) {
    s.Some? && s.value != ""
  }

  /** `s || fallback` on an optional string. */
  function OrElse(s: Option<string>, fallback: string): (r: string)
    ensures Truthy(s) ==> r == s.value
    ensures !Truthy(s) ==> r == fallback
  {
    if Truthy(s) then s.value else fallback
  }

  /** The image a stored round shows: none for a missing or empty path, an absolute `http`
      address as it is, and any other path under the API server's `base` address. */
  function ImageOf(url: Option<string>, base: string): (img: Image)
    ensures img.NoImage? <==> !Truthy(url)
    ensures Truthy(url) && "http" <= url.value ==> img == Url(url.value)
    ensures Truthy(url) && !("http" <= url.value) ==> img == Url(base + "/" + url.value)
  {
    if !Truthy(url) then NoImage
    else if "http" <= url.value then Url(url.value)
    else Url(base + "/" + url.value)
  }

  /** One stored option: a missing or empty id gets a fresh one, a missing text becomes empty
      (an empty text stays), and it is correct when its raw id equals the round's raw correct
      id, absent values included. */
  function MapAnswer(correct: Option<string>, a: ApiAnswer, freshId: string): Answer {
    Answer(OrElse(a.answerId, freshId), a.answerText.GetOr(""), a.answerId == correct)
  }

  /** The options of stored round `i`, before normalisation. */
  function MappedAnswers(q: ApiQuestion, i: nat, uuid: IdSlot -> string): (r: seq<Answer>)
    ensures |r| == |q.answers.GetOr([])|
  {
    var raw := q.answers.GetOr([]);
    seq(|raw|, k requires 0 <= k < |raw| => MapAnswer(q.correctAnswerId, raw[k], uuid(AnswerSlot(i, k))))
  }

  /** Stored round `i` as an editor round, before normalisation. */
  function MapQuestion(q: ApiQuestion, i: nat, base: string, uuid: IdSlot -> string): Question {
    Question(OrElse(q.questionId, uuid(RoundSlot(i))), OrElse(q.questionText, ""), ImageOf(q.imageUrl, base),
             MappedAnswers(q, i, uuid), OrElse(q.correctAnswerId, ""))
  }

  /** Round `i` with its options cut or padded to three. */
  function Normalize(q: Question, i: nat, uuid: IdSlot -> string): Question {
    q.(answers := ThreeAnswers(q.answers, PadIds(uuid, i)))
  }

  function StoredQuestions(api: ApiDetail): seq<ApiQuestion> {
    if api.gameJson.Some? then api.gameJson.value.questions.GetOr([]) else []
  }

  /** All rounds of a stored quiz, mapped and normalised. */
  function FetchedQuestions(api: seq<ApiQuestion>, base: string, uuid: IdSlot -> string): (r: seq<Question>)
    ensures |r| == |api|
  {
    seq(|api|, i requires 0 <= i < |api| => Normalize(MapQuestion(api[i], i, base, uuid), i, uuid))
  }

  /** What the hook stores after a successful load. */
  function DetailOf(api: ApiDetail, base: string, uuid: IdSlot -> string): Detail {
    var flags := api.gameJson.GetOr(ApiGameJson(None, None, None));
    Detail(api.id, api.name, api.description, api.thumbnail, api.isPublished,
           flags.randomQuestions, flags.randomAnswers, FetchedQuestions(StoredQuestions(api), base, uuid))
  }

  /** Every loaded round keeps its place and has exactly three options: the first three
      stored options in order, then blank, incorrect options with fresh ids; ids and texts
      fall back as the mapping says. */
  lemma FetchedRound(api: seq<ApiQuestion>, base: string, uuid: IdSlot -> string, i: nat)
    requires i < |api|
    ensures var r := FetchedQuestions(api, base, uuid)[i];
            var raw := api[i].answers.GetOr([]);
            && r.id == (if Truthy(api[i].questionId) then api[i].questionId.value else uuid(RoundSlot(i)))
            && r.text == (if Truthy(api[i].questionText) then api[i].questionText.value else "")
            && r.correctAnswerId == (if Truthy(api[i].correctAnswerId) then api[i].correctAnswerId.value else "")
            && r.image == ImageOf(api[i].imageUrl, base)
            && |r.answers| == 3
            && (forall k :: 0 <= k < 3 && k < |raw| ==>
                  r.answers[k] == MapAnswer(api[i].correctAnswerId, raw[k], uuid(AnswerSlot(i, k))))
            && (forall k :: |raw| <= k < 3 ==>
                  r.answers[k] == BlankAnswer(uuid(PadSlot(i, k - |raw|))))
  {
    var m := MapQuestion(api[i], i, base, uuid);
    ThreeAnswersShape(m.answers, PadIds(uuid, i));
  }

  /** When the stored round and its options carry non-empty ids and the padding ids are fresh,
      the loaded round marks as correct exactly the option whose id is the correct id. */
  lemma FetchedCorrectByIdentity(api: seq<ApiQuestion>, base: string, uuid: IdSlot -> string, i: nat)
    requires i < |api|
    requires Truthy(api[i].correctAnswerId)
    requires forall a :: a in api[i].answers.GetOr([]) ==> Truthy(a.answerId)
    requires forall k :: 0 <= k < 3 ==> uuid(PadSlot(i, k)) != api[i].correctAnswerId.value
    ensures CorrectByIdentity(FetchedQuestions(api, base, uuid)[i])
  {
    FetchedRound(api, base, uuid, i);
    var raw := api[i].answers.GetOr([]);
    var r := FetchedQuestions(api, base, uuid)[i];
    forall k | 0 <= k < 3
      ensures r.answers[k].isCorrect <==> r.answers[k].id == r.correctAnswerId
    {
      if k < |raw| {
        assert raw[k] in raw;
      }
    }
  }

  /** An option without an id in a round without a correct id is marked correct, although the
      loaded round's correct id is empty and the option is given a fresh id. */
  lemma MissingIdsMarkedCorrect(api: seq<ApiQuestion>, base: string, uuid: IdSlot -> string, i: nat, k: nat)
    requires i < |api| && k < 3 && k < |api[i].answers.GetOr([])|
    requires api[i].correctAnswerId.None? && api[i].answers.GetOr([])[k].answerId.None?
    ensures FetchedQuestions(api, base, uuid)[i].answers[k].isCorrect
    ensures FetchedQuestions(api, base, uuid)[i].correctAnswerId == ""
    ensures FetchedQuestions(api, base, uuid)[i].answers[k].id == uuid(AnswerSlot(i, k))
  {
    FetchedRound(api, base, uuid, i);
  }

  /** The `.map` that normalises every mapped round, each through the padding loop. */
  method NormalizeRounds(mapped: seq<Question>, uuid: IdSlot -> string) returns (normalized: seq<Question>)
    ensures |normalized| == |mapped|
    ensures forall i :: 0 <= i < |mapped| ==> normalized[i] == Normalize(mapped[i], i, uuid)
  {
    normalized := [];
    for i := 0 to |mapped|
      invariant |normalized| == i
      invariant forall j :: 0 <= j < i ==> normalized[j] == Normalize(mapped[j], j, uuid)
    {
      var arr := PadAnswers(mapped[i].answers, PadIds(uuid, i));
      normalized := normalized + [mapped[i].(answers := arr)];
    }
  }

  /** The hook's state: the loaded quiz, whether a load is under way, and the load error. */
  class FetchState {
    var data: Option<Detail>
    var loading: bool
    var error: Option<string>

    constructor ()
      ensures data.None? && loading && error.None?
    {
      data := None;
      loading := true;
      error := None;
    }

    /** The effect on a (new) game id: without an id, loading ends and nothing is fetched;
        with one, loading starts and a request is issued. */
    method Effect(gameId: Option<string>) returns (fetching: bool)
      modifies this`loading
      ensures fetching <==> Truthy(gameId)
      ensures loading == fetching
    {
      if !Truthy(gameId) {
        loading := false;
        return false;
      }
      loading := true;
      fetching := true;
    }

    /** The end of the request: a response (`Some`) is mapped and stored, a failure (`None`)
        records the load error; loading ends either way. */
    method Resolve(response: Option<ApiDetail>, base: string, uuid: IdSlot -> string)
      modifies this
      ensures !loading
      ensures response.Some? ==> data == Some(DetailOf(response.value, base, uuid)) && error == old(error)
      ensures response.None? ==> data == old(data) && error == Some(LoadError)
    {
      if response.None? {
        error := Some(LoadError);
        loading := false;
        return;
      }
      var api := response.value;
      var stored := StoredQuestions(api);
      var mapped := seq(|stored|, i requires 0 <= i < |stored| => MapQuestion(stored[i], i, base, uuid));
      var normalized := NormalizeRounds(mapped, uuid);
      assert normalized == FetchedQuestions(stored, base, uuid);
      var flags := api.gameJson.GetOr(ApiGameJson(None, None, None));
      data := Some(Detail(api.id, api.name, api.description, api.thumbnail, api.isPublished,
                          flags.randomQuestions, flags.randomAnswers, normalized));
      loading := false;
    }
  }
}

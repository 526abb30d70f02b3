/** The image-quiz validation schema: the rules a quiz must meet before the create page sends
    it, as predicates, and the list of problems the schema reports for a quiz that breaks
    them, in the order the schema checks its fields. */
module QuizSchema {

  import opened Wrappers
  import opened QuizForm
  import opened FormErrors
  import opened Text

  predicate IsHexDigit(c: char) {
    ('0' <= c <= '9') || ('a' <= c <= 'f') || ('A' <= c <= 'F')
  }

  /** A string in UUID form: five groups of 8, 4, 4, 4 and 12 hexadecimal digits separated by
      hyphens. */
  predicate IsUuid(s: string) {
    |s| == 36 && forall i :: 0 <= i < 36 ==> if i == 8 || i == 13 || i == 18 || i == 23 then s[i] == '-' else IsHexDigit(s[i])
  }

  /** `z.enum(["adventure", "family100", "cyberpunk"])`. */
  predicate KnownTheme(t: string) {
    t == "adventure" || t == "family100" || t == "cyberpunk"
  }

  /** The theme settings are valid: none given, or a known one. */
  predicate ThemeValid(s: Settings) {
    s.theme.None? || KnownTheme(s.theme.value)
  }

  /** What the schema validates: title, thumbnail, rounds and settings (the optional
      description accepts any string and cannot fail). */
  datatype QuizInput = QuizInput(title: string, thumbnail: Option<FileRef>, questions: seq<Question>, settings: Settings)

  // ---------------------------------------------------------------------------------------
  // The rules

  /** `answerSchema`. */
  predicate ValidAnswer(a: Answer) {
    IsUuid(a.id) && |a.text| >= 1
  }

  /** `imageQuestionSchema`: uuid ids, a category text, an uploaded image, and exactly three
      valid options of which at least one is correct. */
  predicate ValidQuestion(q: Question) {
    && IsUuid(q.id)
    && |q.text| >= 1
    && q.image.Upload?
    && IsUuid(q.correctAnswerId)
    && |q.answers| == 3
    && ValidAnswers(q.answers, |q.answers|)
    && HasCorrect(q.answers)
  }

  /** The first `n` options are valid. */
  predicate ValidAnswers(answers: seq<Answer>, n: nat)
    requires n <= |answers|
  {
    forall k :: 0 <= k < n ==> ValidAnswer(answers[k])
  }

  /** `answers.some((a) => a.isCorrect)`. */
  predicate HasCorrect(answers: seq<Answer>) {
    exists k :: 0 <= k < |answers| && answers[k].isCorrect
  }

  /** `imageQuizSchema`: a title of three UTF-16 code units or more, a thumbnail file, at least one
      round, every round valid, and a theme (if any) among the three known ones. */
  predicate ValidQuiz(f: QuizInput) {
    && Utf16Length(f.title) >= 3
    && f.thumbnail.Some?
    && |f.questions| >= 1
    && ValidQuestions(f.questions, |f.questions|)
    && ThemeValid(f.settings)
  }

  /** The first `n` rounds are valid. */
  predicate ValidQuestions(qs: seq<Question>, n: nat)
    requires n <= |qs|
  {
    forall i :: 0 <= i < n ==> ValidQuestion(qs[i])
  }

  /** The theme the schema yields: the one given, or `family100` by default. */
  function ParsedTheme(s: Settings): (t: string)
    ensures s.theme.None? ==> t == "family100"
    ensures s.theme.Some? ==> t == s.theme.value
  {
    s.theme.GetOr("family100")
  }

  lemma ParsedThemeKnown(f: QuizInput)
    requires ValidQuiz(f)
    ensures KnownTheme(ParsedTheme(f.settings))
  {
  }

  // ---------------------------------------------------------------------------------------
  // The problems reported

  /** The schema's messages. */
  const EmptyAnswer := "Answer cannot be empty"
  const NoCorrectAnswer := "At least one answer must be correct on each question"
  const NoRounds := "At least one round required"
  const NoCategory := "Category is required"
  const NotThreeAnswers := "Each question must have 3 answers"
  const NoRoundImage := "Image is required for Image Quiz"
  const InvalidUuid := "Invalid uuid"
  const NoThumbnail := "Thumbnail is required"
  const ShortTitle := "Title too short"

  /** The start of the enum's message, up to the quoted value received. */
  const EnumExpected := "Invalid enum value. Expected 'adventure' | 'family100' | 'cyberpunk', received '"

  /** The enum's message for a theme outside the three, ending with the value received. */
  function UnknownTheme(received: string): string {
    EnumExpected + received + "'"
  }

  function Problem(cond: bool, path: seq<Seg>, message: string): (r: seq<Issue>)
    ensures |r| == if cond then 0 else 1
  {
    if cond then [] else [Issue(path, message)]
  }

  function AnswerIssues(i: nat, j: nat, a: Answer): seq<Issue> {
    var at := [Key("questions"), Index(i), Key("answers"), Index(j)];
    Problem(IsUuid(a.id), at + [Key("answer_id")], InvalidUuid)
    + Problem(|a.text| >= 1, at + [Key("text")], EmptyAnswer)
  }

  /** The problems of options `answers[..n]` of round `i`. */
  function AnswersIssues(i: nat, answers: seq<Answer>, n: nat): seq<Issue>
    requires n <= |answers|
  {
    if n == 0 then [] else AnswersIssues(i, answers, n - 1) + AnswerIssues(i, n - 1, answers[n - 1])
  }

  /** The problems of round `i`: its fields in schema order; for the options, the length check,
      then each option, then the "at least one correct" refinement. */
  function QuestionIssues(i: nat, q: Question): seq<Issue> {
    var at := [Key("questions"), Index(i)];
    Problem(IsUuid(q.id), at + [Key("question_id")], InvalidUuid)
    + Problem(|q.text| >= 1, at + [Key("questionText")], NoCategory)
    + Problem(q.image.Upload?, at + [Key("questionImages")], NoRoundImage)
    + Problem(IsUuid(q.correctAnswerId), at + [Key("correct_answer_id")], InvalidUuid)
    + Problem(|q.answers| == 3, at + [Key("answers")], NotThreeAnswers)
    + AnswersIssues(i, q.answers, |q.answers|)
    + Problem(HasCorrect(q.answers), at + [Key("answers")], NoCorrectAnswer)
  }

  /** The problems of rounds `qs[..n]`. */
  function QuestionsIssues(qs: seq<Question>, n: nat): seq<Issue>
    requires n <= |qs|
  {
    if n == 0 then [] else QuestionsIssues(qs, n - 1) + QuestionIssues(n - 1, qs[n - 1])
  }

  /** Every problem `safeParse` reports, in the order it finds them. */
  function Issues(f: QuizInput): seq<Issue> {
    Problem(Utf16Length(f.title) >= 3, [Key("title")], ShortTitle)
    + Problem(f.thumbnail.Some?, [Key("thumbnail")], NoThumbnail)
    + Problem(|f.questions| >= 1, [Key("questions")], NoRounds)
    + QuestionsIssues(f.questions, |f.questions|)
    + Problem(ThemeValid(f.settings), [Key("settings"), Key("theme")], UnknownTheme(f.settings.theme.GetOr("")))
  }

  // ---------------------------------------------------------------------------------------
  // The two agree

  lemma {:induction false} AnswersIssuesEmptyIff(i: nat, answers: seq<Answer>, n: nat)
    requires n <= |answers|
    ensures |AnswersIssues(i, answers, n)| == 0 <==> ValidAnswers(answers, n)
  {
    if n > 0 {
      AnswersIssuesEmptyIff(i, answers, n - 1);
    }
  }

  lemma QuestionIssuesEmptyIff(i: nat, q: Question)
    ensures |QuestionIssues(i, q)| == 0 <==> ValidQuestion(q)
  {
    AnswersIssuesEmptyIff(i, q.answers, |q.answers|);
  }

  lemma {:induction false} QuestionsIssuesEmptyIff(qs: seq<Question>, n: nat)
    requires n <= |qs|
    ensures |QuestionsIssues(qs, n)| == 0 <==> ValidQuestions(qs, n)
  {
    if n > 0 {
      QuestionsIssuesEmptyIff(qs, n - 1);
      QuestionIssuesEmptyIff(n - 1, qs[n - 1]);
      assert |QuestionsIssues(qs, n)| == |QuestionsIssues(qs, n - 1)| + |QuestionIssues(n - 1, qs[n - 1])|;
      ValidQuestionsStep(qs, n);
    }
  }

  lemma ValidQuestionsStep(qs: seq<Question>, n: nat)
    requires 0 < n <= |qs|
    ensures ValidQuestions(qs, n) <==> ValidQuestions(qs, n - 1) && ValidQuestion(qs[n - 1])
  {
  }

  /** `safeParse` succeeds, reporting no problem, exactly when the quiz meets every rule. */
  lemma IssuesEmptyIffValid(f: QuizInput)
    ensures Issues(f) == [] <==> ValidQuiz(f)
  {
    QuestionsIssuesEmptyIff(f.questions, |f.questions|);
  }
}

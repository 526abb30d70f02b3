/** The unjumble game: the words of a sentence lie shuffled in a pool; clicking a pool word
    appends it to the sentence being built, clicking a sentence word returns it to the pool;
    "check" scores the built sentence against the expected one and moves to the next question. */
module Unjumble {

  import opened Wrappers
  import opened Seqs
  import opened Text

  /** A word card; `clickOrder` is set while the word sits in the sentence. */
  datatype Word = Word(id: int, text: string, isShuffled: bool, clickOrder: Option<int>)

  /** A question: its cards, the expected words in order, and the sentence the answer is
      compared with, written out as its own string. */
  datatype Question = Question(id: int, words: seq<Word>, correctOrder: seq<string>, correctAnswer: string)

  /** The cards of a question as its source lists them: the correct order's words numbered
      from 1, all in the pool. */
  function Cards(order: seq<string>): (ws: seq<Word>)
    ensures |ws| == |order|
    ensures forall i :: 0 <= i < |ws| ==> ws[i] == Word(i + 1, order[i], true, None)
  {
    seq(|order|, i requires 0 <= i < |order| => Word(i + 1, order[i], true, None))
  }

  /** A question as the source writes it out: its cards are the correct order's words
      numbered from 1, and its answer string is given separately. */
  function MakeQuestion(id: int, order: seq<string>, answer: string): Question {
    Question(id, Cards(order), order, answer)
  }

  /** The four built-in questions. The longer word lists and answer strings are written as
      runs of consecutive words joined with `+`; their values are the questions' own. */
  const QUESTIONS: seq<Question> := [Q1, Q2, Q3, Q4]

  const Q1: Question := MakeQuestion(1, ["Can", "she", "play", "the", "violin", "?"], "Can she play the violin ?")

  const Q2: Question :=
    MakeQuestion(2, ["Although", "it", "was", "raining", "he"] + ["went", "to", "the", "market", "."],
                 "Although it was raining he " + "went to the market .")

  const Q3: Question :=
    MakeQuestion(3, ["If", "you", "had"] + ["studied", "harder", ","] + ["you", "would", "have", "passed", "."],
                 "If you had " + "studied harder , " + "you would have passed .")

  const Q4: Question :=
    MakeQuestion(4, ["Despite", "the", "fact", "that"] + ["she", "was", "tired", ","] + ["she", "finished", "her", "homework", "."],
                 "Despite the fact that " + "she was tired , " + "she finished her homework .")

  function Texts(ws: seq<Word>): (r: seq<string>)
    ensures |r| == |ws| && forall i :: 0 <= i < |ws| ==> r[i] == ws[i].text
  {
    seq(|ws|, i requires 0 <= i < |ws| => ws[i].text)
  }

  predicate IdsDistinct(ws: seq<Word>) {
    forall i, j :: 0 <= i < j < |ws| ==> ws[i].id != ws[j].id
  }

  /** Every word text is non-empty and free of spaces, so the joined sentence can be split back. */
  predicate WordsSeparable(ws: seq<Word>) {
    forall i :: 0 <= i < |ws| ==> ws[i].text != [] && ' ' !in ws[i].text
  }

  /** What a question promises about itself: the answer string is the correct order joined by
      spaces, its words are the correct order's words with distinct ids, all start in the pool. */
  predicate QuestionWellFormed(q: Question) {
    && q.correctAnswer == Join(q.correctOrder, " ")
    && Separable(q.correctOrder, ' ')
    && Texts(q.words) == q.correctOrder
    && IdsDistinct(q.words)
    && WordsSeparable(q.words)
    && (forall i :: 0 <= i < |q.words| ==> q.words[i].isShuffled && q.words[i].clickOrder.None?)
  }

  lemma QuestionsWellFormed()
    ensures |QUESTIONS| == 4
    ensures forall i :: 0 <= i < |QUESTIONS| ==> QuestionWellFormed(QUESTIONS[i])
  {
    Q1WellFormed();
    Q2WellFormed();
    Q3WellFormed();
    Q4WellFormed();
  }

  lemma Q1WellFormed()
    ensures QuestionWellFormed(Q1)
  {
    Q1Fields();
    Q1Separable(["Can", "she", "play"], ["the", "violin", "?"]);
    Q1AnswerJoined();
    MakeQuestionWellFormed(Q1);
  }

  /** The answer string written out for question 1 is its correct order joined by spaces. */
  lemma Q1AnswerJoined()
    ensures Q1.correctAnswer == Join(Q1.correctOrder, " ")
  {
    Q1Fields();
    Q1Joined(["Can", "she", "play"], ["the", "violin", "?"]);
  }

  lemma Q1Joined(first: seq<string>, second: seq<string>)
    requires first == ["Can", "she", "play"] && second == ["the", "violin", "?"]
    ensures Join(first + second, " ") == "Can she play the violin ?"
  {
    Q1Runs();
    JoinPieces(first, second, "Can she play ", "the violin ?");
    assert "Can she play " + "the violin ?" == "Can she play the violin ?";
  }

  /** The two halves of question 1 joined, the first followed by its space. */
  lemma Q1Runs()
    ensures Join(["Can", "she", "play"], " ") + " " == "Can she play "
    ensures Join(["the", "violin", "?"], " ") == "the violin ?"
  {
  }

  /** Question 1's words are non-empty and free of spaces. */
  lemma Q1Separable(first: seq<string>, second: seq<string>)
    requires first == ["Can", "she", "play"] && second == ["the", "violin", "?"]
    ensures Separable(first + second, ' ')
  {
    SeparableAppend(first, second, ' ');
  }

  lemma Q1Fields()
    ensures Q1.correctOrder == ["Can", "she", "play"] + ["the", "violin", "?"]
    ensures Q1.correctAnswer == "Can she play the violin ?"
  {
  }

  lemma Q2WellFormed()
    ensures QuestionWellFormed(Q2)
  {
    Q2Fields();
    Q2Separable(["Although", "it", "was", "raining", "he"], ["went", "to", "the", "market", "."]);
    Q2AnswerJoined();
    MakeQuestionWellFormed(Q2);
  }

  /** The answer string written out for question 2 is its correct order joined by spaces. */
  lemma Q2AnswerJoined()
    ensures Q2.correctAnswer == Join(Q2.correctOrder, " ")
  {
    Q2Fields();
    Q2Joined(["Although", "it", "was", "raining", "he"], ["went", "to", "the", "market", "."]);
  }

  lemma Q2Joined(first: seq<string>, second: seq<string>)
    requires first == ["Although", "it", "was", "raining", "he"] && second == ["went", "to", "the", "market", "."]
    ensures Join(first + second, " ") == "Although it was raining he " + "went to the market ."
  {
    Q2FirstRun();
    Q2LastRun();
    JoinPieces(first, second, "Although it was raining he ", "went to the market .");
  }

  /** The first run of question 2 joined and followed by its space. */
  lemma Q2FirstRun()
    ensures Join(["Although", "it", "was", "raining", "he"], " ") + " " == "Although it was raining he "
  {
  }

  /** The last run of question 2 joined. */
  lemma Q2LastRun()
    ensures Join(["went", "to", "the", "market", "."], " ") == "went to the market ."
  {
  }

  /** Question 2's words are non-empty and free of spaces. */
  lemma Q2Separable(first: seq<string>, second: seq<string>)
    requires first == ["Although", "it", "was", "raining", "he"] && second == ["went", "to", "the", "market", "."]
    ensures Separable(first + second, ' ')
  {
    SeparableAppend(first, second, ' ');
  }

  lemma Q2Fields()
    ensures Q2.correctOrder == ["Although", "it", "was", "raining", "he"] + ["went", "to", "the", "market", "."]
    ensures Q2.correctAnswer == "Although it was raining he " + "went to the market ."
  {
  }

  lemma Q3WellFormed()
    ensures QuestionWellFormed(Q3)
  {
    Q3Fields();
    Q3Separable(["If", "you", "had"], ["studied", "harder", ","], ["you", "would", "have", "passed", "."]);
    Q3AnswerJoined();
    MakeQuestionWellFormed(Q3);
  }

  /** The answer string written out for question 3 is its correct order joined by spaces. */
  lemma Q3AnswerJoined()
    ensures Q3.correctAnswer == Join(Q3.correctOrder, " ")
  {
    Q3Fields();
    Q3Joined(["If", "you", "had"], ["studied", "harder", ","], ["you", "would", "have", "passed", "."]);
  }

  lemma Q3Joined(first: seq<string>, second: seq<string>, third: seq<string>)
    requires first == ["If", "you", "had"] && second == ["studied", "harder", ","]
    requires third == ["you", "would", "have", "passed", "."]
    ensures Join(first + second + third, " ") == "If you had " + "studied harder , " + "you would have passed ."
  {
    Q3Runs();
    Q3LastRun();
    JoinPieces(second, third, "studied harder , ", "you would have passed .");
    JoinPieces(first, second + third, "If you had ", "studied harder , " + "you would have passed .");
    assert first + second + third == first + (second + third);
  }

  /** The first two runs of question 3 joined, each followed by its space. */
  lemma Q3Runs()
    ensures Join(["If", "you", "had"], " ") + " " == "If you had "
    ensures Join(["studied", "harder", ","], " ") + " " == "studied harder , "
  {
  }

  /** The last run of question 3 joined. */
  lemma Q3LastRun()
    ensures Join(["you", "would", "have", "passed", "."], " ") == "you would have passed ."
  {
  }

  /** Question 3's words are non-empty and free of spaces. */
  lemma Q3Separable(first: seq<string>, second: seq<string>, third: seq<string>)
    requires first == ["If", "you", "had"] && second == ["studied", "harder", ","] && third == ["you", "would", "have", "passed", "."]
    ensures Separable(first + second + third, ' ')
  {
    SeparableAppend(first, second, ' ');
    SeparableAppend(first + second, third, ' ');
  }

  lemma Q3Fields()
    ensures Q3.correctOrder == ["If", "you", "had"] + ["studied", "harder", ","] + ["you", "would", "have", "passed", "."]
    ensures Q3.correctAnswer == "If you had " + "studied harder , " + "you would have passed ."
  {
  }

  lemma Q4WellFormed()
    ensures QuestionWellFormed(Q4)
  {
    Q4Fields();
    Q4Separable(["Despite", "the", "fact", "that"], ["she", "was", "tired", ","], ["she", "finished", "her", "homework", "."]);
    Q4AnswerJoined();
    MakeQuestionWellFormed(Q4);
  }

  /** The answer string written out for question 4 is its correct order joined by spaces. */
  lemma Q4AnswerJoined()
    ensures Q4.correctAnswer == Join(Q4.correctOrder, " ")
  {
    Q4Fields();
    Q4Joined(["Despite", "the", "fact", "that"], ["she", "was", "tired", ","], ["she", "finished", "her", "homework", "."]);
  }

  lemma Q4Joined(first: seq<string>, second: seq<string>, third: seq<string>)
    requires first == ["Despite", "the", "fact", "that"] && second == ["she", "was", "tired", ","]
    requires third == ["she", "finished", "her", "homework", "."]
    ensures Join(first + second + third, " ") == "Despite the fact that " + "she was tired , " + "she finished her homework ."
  {
    Q4Runs();
    Q4LastRun();
    JoinPieces(second, third, "she was tired , ", "she finished her homework .");
    JoinPieces(first, second + third, "Despite the fact that ", "she was tired , " + "she finished her homework .");
    assert first + second + third == first + (second + third);
  }

  /** The first two runs of question 4 joined, each followed by its space. */
  lemma Q4Runs()
    ensures Join(["Despite", "the", "fact", "that"], " ") + " " == "Despite the fact that "
    ensures Join(["she", "was", "tired", ","], " ") + " " == "she was tired , "
  {
  }

  /** The last run of question 4 joined. */
  lemma Q4LastRun()
    ensures Join(["she", "finished", "her", "homework", "."], " ") == "she finished her homework ."
  {
  }

  /** Question 4's words are non-empty and free of spaces. */
  lemma Q4Separable(first: seq<string>, second: seq<string>, third: seq<string>)
    requires first == ["Despite", "the", "fact", "that"] && second == ["she", "was", "tired", ","] && third == ["she", "finished", "her", "homework", "."]
    ensures Separable(first + second + third, ' ')
  {
    SeparableAppend(first, second, ' ');
    SeparableAppend(first + second, third, ' ');
  }

  lemma Q4Fields()
    ensures Q4.correctOrder == ["Despite", "the", "fact", "that"] + ["she", "was", "tired", ","] + ["she", "finished", "her", "homework", "."]
    ensures Q4.correctAnswer == "Despite the fact that " + "she was tired , " + "she finished her homework ."
  {
  }

  /** A question made from a correct order without empty words or spaces inside words is well formed. */
  lemma MakeQuestionWellFormed(q: Question)
    requires q == MakeQuestion(q.id, q.correctOrder, q.correctAnswer) && Separable(q.correctOrder, ' ')
    requires q.correctAnswer == Join(q.correctOrder, " ")
    ensures QuestionWellFormed(q)
  {
  }

  // ----- shuffling -----

  /** `[...ws].sort(() => Math.random() - 0.5)`: some rearrangement of the words; `roll`
      stands for the random draws and picks, for each remaining length, the next word. */
  function Shuffle(ws: seq<Word>, roll: nat -> nat): (r: seq<Word>)
    ensures |r| == |ws| && multiset(r) == multiset(ws)
    decreases |ws|
  {
    if ws == [] then []
    else
      var k := Pick(|ws|, roll);
      [ws[k]] + Shuffle(RemoveAt(ws, k), roll)
  }

  /** The position the random draw selects among `n` remaining cards. */
  function Pick(n: nat, roll: nat -> nat): (k: nat)
    requires n > 0
    ensures k < n
  {
    roll(n) % n
  }

  /** Shuffling keeps the word ids distinct. */
  lemma {:induction false} ShuffleKeepsIdsDistinct(ws: seq<Word>, roll: nat -> nat)
    requires IdsDistinct(ws)
    ensures IdsDistinct(Shuffle(ws, roll))
  {
    if ws != [] {
      var k := Pick(|ws|, roll);
      var rest := RemoveAt(ws, k);
      RemoveAtKeepsIdsDistinct(ws, k);
      ShuffleKeepsIdsDistinct(rest, roll);
      var tail := Shuffle(rest, roll);
      IdAbsentFromPermutation(rest, tail, ws[k].id);
      IdsDistinctCons(ws[k], tail);
      assert Shuffle(ws, roll) == [ws[k]] + tail;
    }
  }

  /** A rearrangement of cards without a given id has no card with that id either. */
  lemma IdAbsentFromPermutation(ws: seq<Word>, perm: seq<Word>, id: int)
    requires multiset(perm) == multiset(ws)
    requires forall m :: 0 <= m < |ws| ==> ws[m].id != id
    ensures forall j :: 0 <= j < |perm| ==> perm[j].id != id
  {
    forall j | 0 <= j < |perm| ensures perm[j].id != id {
      assert perm[j] in multiset(ws);
    }
  }

  lemma IdsDistinctCons(w: Word, ws: seq<Word>)
    requires IdsDistinct(ws) && forall j :: 0 <= j < |ws| ==> ws[j].id != w.id
    ensures IdsDistinct([w] + ws)
  {
  }

  /** Removing a card keeps the remaining ids distinct from each other and from the removed one. */
  lemma RemoveAtKeepsIdsDistinct(ws: seq<Word>, k: nat)
    requires IdsDistinct(ws) && k < |ws|
    ensures IdsDistinct(RemoveAt(ws, k))
    ensures forall m :: 0 <= m < |RemoveAt(ws, k)| ==> RemoveAt(ws, k)[m].id != ws[k].id
  {
    var rest := RemoveAt(ws, k);
    forall i, j | 0 <= i < j < |rest| ensures rest[i].id != rest[j].id {
      var i', j' := if i < k then i else i + 1, if j < k then j else j + 1;
      assert rest[i] == ws[i'] && rest[j] == ws[j'] && i' < j';
    }
    forall m | 0 <= m < |rest| ensures rest[m].id != ws[k].id {
      var m' := if m < k then m else m + 1;
      assert rest[m] == ws[m'] && m' != k;
    }
  }

  // ----- the pool and the sentence -----

  /** The contribution of one card to the sentence filter. */
  function PlacedPart(w: Word): seq<Word> {
    if w.isShuffled then [] else [w]
  }

  /** `words.filter(w => !w.isShuffled)`: the words placed in the sentence, in card order. */
  function Placed(ws: seq<Word>): (r: seq<Word>)
    ensures forall x :: x in r ==> x in ws && !x.isShuffled
  {
    if ws == [] then [] else PlacedPart(ws[0]) + Placed(ws[1..])
  }

  function PoolPart(w: Word): seq<Word> {
    if w.isShuffled then [w] else []
  }

  /** `words.filter(w => w.isShuffled)`: the words still in the pool. */
  function Pool(ws: seq<Word>): (r: seq<Word>)
    ensures forall x :: x in r ==> x in ws && x.isShuffled
  {
    if ws == [] then [] else PoolPart(ws[0]) + Pool(ws[1..])
  }

  /** Every word is either in the pool or in the sentence, exactly once. */
  lemma {:induction false} PoolAndPlacedPartition(ws: seq<Word>)
    ensures multiset(Pool(ws)) + multiset(Placed(ws)) == multiset(ws)
  {
    if ws != [] {
      PoolAndPlacedPartition(ws[1..]);
      assert ws == [ws[0]] + ws[1..];
    }
  }

  /** The sort key `(w.clickOrder || 0)`. */
  function Key(w: Word): int {
    w.clickOrder.GetOr(0)
  }

  predicate Sorted(ws: seq<Word>) {
    forall i, j :: 0 <= i < j < |ws| ==> Key(ws[i]) <= Key(ws[j])
  }

  predicate StrictlySorted(ws: seq<Word>) {
    forall i, j :: 0 <= i < j < |ws| ==> Key(ws[i]) < Key(ws[j])
  }

  predicate DistinctKeys(ws: seq<Word>) {
    forall i, j :: 0 <= i < j < |ws| ==> Key(ws[i]) != Key(ws[j])
  }

  /** Insertion of `w` in front of the first word whose key is not smaller. */
  function Insert(w: Word, ws: seq<Word>): (r: seq<Word>)
    ensures |r| == |ws| + 1 && multiset(r) == multiset(ws) + multiset{w}
  {
    if ws == [] || Key(w) <= Key(ws[0]) then [w] + ws
    else
      assert ws == [ws[0]] + ws[1..];
      [ws[0]] + Insert(w, ws[1..])
  }

  /** Insertion keeps a sorted sentence sorted. */
  lemma {:induction false} InsertSorted(w: Word, ws: seq<Word>)
    requires Sorted(ws)
    ensures Sorted(Insert(w, ws))
  {
    if ws != [] && Key(w) > Key(ws[0]) {
      var t := Insert(w, ws[1..]);
      SplitHead(ws);
      InsertSorted(w, ws[1..]);
      InsertKeys(w, ws[1..], Key(ws[0]));
      SortedCons(ws[0], t);
    }
  }

  /** Insertion keeps a strictly increasing sentence strictly increasing when the new key is
      not taken yet. */
  lemma {:induction false} InsertStrict(w: Word, ws: seq<Word>)
    requires StrictlySorted(ws) && forall i :: 0 <= i < |ws| ==> Key(ws[i]) != Key(w)
    ensures StrictlySorted(Insert(w, ws))
  {
    if ws != [] && Key(w) > Key(ws[0]) {
      var t := Insert(w, ws[1..]);
      SplitHead(ws);
      InsertStrict(w, ws[1..]);
      InsertKeys(w, ws[1..], Key(ws[0]));
      SortedCons(ws[0], t);
    }
  }

  /** The tail of a (strictly) sorted sequence is (strictly) sorted and bounded by the head. */
  lemma SplitHead(ws: seq<Word>)
    requires ws != []
    ensures Sorted(ws) ==> Sorted(ws[1..]) && forall i :: 0 <= i < |ws[1..]| ==> Key(ws[0]) <= Key(ws[1..][i])
    ensures StrictlySorted(ws) ==> StrictlySorted(ws[1..]) && forall i :: 0 <= i < |ws[1..]| ==> Key(ws[0]) < Key(ws[1..][i])
    ensures forall i :: 0 <= i < |ws[1..]| ==> ws[1..][i] == ws[i + 1]
  {
  }

  /** The keys after an insertion are those of the sequence and the inserted card. */
  lemma InsertKeys(w: Word, ws: seq<Word>, bound: int)
    ensures bound <= Key(w) && (forall i :: 0 <= i < |ws| ==> bound <= Key(ws[i])) ==>
              forall j :: 0 <= j < |Insert(w, ws)| ==> bound <= Key(Insert(w, ws)[j])
    ensures bound < Key(w) && (forall i :: 0 <= i < |ws| ==> bound < Key(ws[i])) ==>
              forall j :: 0 <= j < |Insert(w, ws)| ==> bound < Key(Insert(w, ws)[j])
  {
    assert multiset(Insert(w, ws)) == multiset(ws + [w]);
    KeysOfPermutation(ws + [w], Insert(w, ws), bound);
  }

  /** Rearranging cards keeps every bound on their keys. */
  lemma KeysOfPermutation(ws: seq<Word>, perm: seq<Word>, bound: int)
    requires multiset(perm) == multiset(ws)
    ensures (forall m :: 0 <= m < |ws| ==> bound <= Key(ws[m])) ==> forall j :: 0 <= j < |perm| ==> bound <= Key(perm[j])
    ensures (forall m :: 0 <= m < |ws| ==> bound < Key(ws[m])) ==> forall j :: 0 <= j < |perm| ==> bound < Key(perm[j])
    ensures (forall m :: 0 <= m < |ws| ==> Key(ws[m]) != bound) ==> forall j :: 0 <= j < |perm| ==> Key(perm[j]) != bound
    ensures (forall m :: 0 <= m < |ws| ==> Key(ws[m]) < bound) ==> forall j :: 0 <= j < |perm| ==> Key(perm[j]) < bound
  {
    forall j | 0 <= j < |perm| ensures exists m :: 0 <= m < |ws| && ws[m] == perm[j] {
      assert perm[j] in multiset(ws);
    }
  }

  /** A card in front of a sorted sequence whose keys are at least (above) its own. */
  lemma SortedCons(x: Word, t: seq<Word>)
    ensures Sorted(t) && (forall j :: 0 <= j < |t| ==> Key(x) <= Key(t[j])) ==> Sorted([x] + t)
    ensures StrictlySorted(t) && (forall j :: 0 <= j < |t| ==> Key(x) < Key(t[j])) ==> StrictlySorted([x] + t)
  {
  }

  /** The stable sort `sort((a, b) => (a.clickOrder || 0) - (b.clickOrder || 0))`. */
  function SortByKey(ws: seq<Word>): (r: seq<Word>)
    ensures |r| == |ws| && multiset(r) == multiset(ws)
  {
    if ws == [] then [] else
      assert ws == [ws[0]] + ws[1..];
      Insert(ws[0], SortByKey(ws[1..]))
  }

  /** The sorted sentence is in ascending click order. */
  lemma {:induction false} SortByKeySorted(ws: seq<Word>)
    ensures Sorted(SortByKey(ws))
  {
    if ws != [] {
      SortByKeySorted(ws[1..]);
      InsertSorted(ws[0], SortByKey(ws[1..]));
    }
  }

  /** With distinct keys the sorted sentence is strictly increasing. */
  lemma {:induction false} SortByKeyStrict(ws: seq<Word>)
    requires DistinctKeys(ws)
    ensures StrictlySorted(SortByKey(ws))
  {
    if ws != [] {
      var t := SortByKey(ws[1..]);
      assert DistinctKeys(ws[1..]);
      SortByKeyStrict(ws[1..]);
      SortByKeySorted(ws[1..]);
      KeysOfPermutation(ws[1..], t, Key(ws[0]));
      InsertStrict(ws[0], t);
    }
  }

  /** Two strictly increasing arrangements of the same words are the same sequence: the
      sentence does not depend on how the sort breaks ties. */
  lemma {:induction false} StrictlySortedUnique(a: seq<Word>, b: seq<Word>)
    requires StrictlySorted(a) && StrictlySorted(b)
    requires multiset(a) == multiset(b)
    ensures a == b
  {
    if a == [] {
      assert |b| == |multiset(b)|;
    } else {
      assert |b| == |multiset(b)| == |multiset(a)| == |a|;
      SmallestFirst(a, b);
      DropHead(a, b);
      StrictlySortedUnique(a[1..], b[1..]);
      assert a == [a[0]] + a[1..] && b == [b[0]] + b[1..];
    }
  }

  /** Two strictly increasing arrangements of the same cards start with the same card. */
  lemma SmallestFirst(a: seq<Word>, b: seq<Word>)
    requires StrictlySorted(a) && StrictlySorted(b) && multiset(a) == multiset(b) && a != [] && b != []
    ensures a[0] == b[0]
  {
    assert a[0] in multiset(b) && b[0] in multiset(a);
    var j :| 0 <= j < |b| && b[j] == a[0];
    var k :| 0 <= k < |a| && a[k] == b[0];
    assert k == 0 || Key(a[0]) < Key(a[k]);
  }

  /** Equal multisets with equal first elements have equal tails as multisets. */
  lemma DropHead(a: seq<Word>, b: seq<Word>)
    requires multiset(a) == multiset(b) && a != [] && b != [] && a[0] == b[0]
    ensures multiset(a[1..]) == multiset(b[1..])
    ensures StrictlySorted(a) ==> StrictlySorted(a[1..])
    ensures StrictlySorted(b) ==> StrictlySorted(b[1..])
  {
    assert a == [a[0]] + a[1..] && b == [b[0]] + b[1..];
    assert multiset(a[1..]) == multiset(a) - multiset{a[0]};
    assert multiset(b[1..]) == multiset(b) - multiset{b[0]};
  }

  /** The sentence area: the placed words in the order they were clicked. */
  function Sentence(ws: seq<Word>): seq<Word> {
    SortByKey(Placed(ws))
  }

  /** The player's answer: the sentence words' texts joined by single spaces. */
  function PlayerAnswer(ws: seq<Word>): string {
    Join(Texts(Sentence(ws)), " ")
  }

  /** `validateAnswer`: the joined sentence equals the question's answer string. */
  predicate ValidateAnswer(ws: seq<Word>, q: Question) {
    PlayerAnswer(ws) == q.correctAnswer
  }

  /** For a well-formed question the string comparison is exact: the answer is right if and
      only if the sentence holds exactly the correct words in the correct order. */
  lemma ValidateAnswerIffCorrectOrder(ws: seq<Word>, q: Question)
    requires q.correctAnswer == Join(q.correctOrder, " ")
    requires Separable(q.correctOrder, ' ') && WordsSeparable(ws)
    ensures ValidateAnswer(ws, q) <==> Texts(Sentence(ws)) == q.correctOrder
  {
    var s := Texts(Sentence(ws));
    assert Separable(s, ' ') by {
      forall i | 0 <= i < |s| ensures s[i] != [] && ' ' !in s[i] {
        var x := Sentence(ws)[i];
        assert x in multiset(Placed(ws));
        var m :| 0 <= m < |ws| && ws[m] == x;
      }
    }
    if ValidateAnswer(ws, q) {
      JoinInjective(s, q.correctOrder, ' ');
    }
  }

  // ----- clicking a word -----

  /** The card after a click on `id`: a pool word moves to the sentence as click number
      `counter + 1`, a sentence word goes back to the pool without a click number. */
  function Click(w: Word, id: int, counter: int): (r: Word)
    ensures r.id == w.id && r.text == w.text
    ensures w.id != id ==> r == w
    ensures w.id == id ==> r.isShuffled == !w.isShuffled
    ensures w.id == id && w.isShuffled ==> r.clickOrder == Some(counter + 1)
    ensures w.id == id && !w.isShuffled ==> r.clickOrder == None
  {
    if w.id == id then
      if w.isShuffled then w.(isShuffled := false, clickOrder := Some(counter + 1))
      else w.(isShuffled := true, clickOrder := None)
    else w
  }

  /** How many times the click increments the counter: once per pool word carrying `id`. */
  function PoolHits(ws: seq<Word>, id: int): nat {
    if ws == [] then 0 else (if ws[0].id == id && ws[0].isShuffled then 1 else 0) + PoolHits(ws[1..], id)
  }

  /** With distinct ids, the click counts once exactly when the card carrying `id` is in the pool. */
  lemma {:induction false} PoolHitsOfDistinct(ws: seq<Word>, id: int)
    requires IdsDistinct(ws)
    ensures forall k :: 0 <= k < |ws| && ws[k].id == id ==> PoolHits(ws, id) == if ws[k].isShuffled then 1 else 0
  {
    if ws != [] {
      assert IdsDistinct(ws[1..]) by {
        forall i, j | 0 <= i < j < |ws[1..]| ensures ws[1..][i].id != ws[1..][j].id {
          assert ws[1..][i] == ws[i + 1] && ws[1..][j] == ws[j + 1];
        }
      }
      PoolHitsOfDistinct(ws[1..], id);
      forall k | 1 <= k < |ws| && ws[k].id == id ensures PoolHits(ws, id) == if ws[k].isShuffled then 1 else 0 {
        assert ws[1..][k - 1] == ws[k];
        assert ws[0].id != id;
      }
      if ws[0].id == id {
        PoolHitsAbsent(ws[1..], id);
      }
    }
  }

  lemma {:induction false} PoolHitsAbsent(ws: seq<Word>, id: int)
    requires forall k :: 0 <= k < |ws| ==> ws[k].id != id
    ensures PoolHits(ws, id) == 0
  {
    if ws != [] {
      PoolHitsAbsent(ws[1..], id);
    }
  }

  /** The words as the pool and sentence see them: placed words carry distinct click numbers
      from 1 to `counter`, pool words carry none. */
  predicate ClickOrdersConsistent(ws: seq<Word>, counter: int) {
    && (forall i :: 0 <= i < |ws| ==> (ws[i].isShuffled <==> ws[i].clickOrder.None?))
    && (forall i :: 0 <= i < |ws| && !ws[i].isShuffled ==> 1 <= ws[i].clickOrder.value <= counter)
    && (forall i, j :: 0 <= i < j < |ws| && !ws[i].isShuffled && !ws[j].isShuffled ==> Key(ws[i]) != Key(ws[j]))
  }

  /** Placed words with distinct click numbers give a strictly increasing sentence. */
  lemma {:induction false} PlacedKeysDistinct(ws: seq<Word>, counter: int)
    requires ClickOrdersConsistent(ws, counter)
    ensures DistinctKeys(Placed(ws))
  {
    if ws != [] {
      var t := ws[1..];
      assert ClickOrdersConsistent(t, counter) by {
        forall i | 0 <= i < |t| ensures t[i] == ws[i + 1] {
        }
      }
      PlacedKeysDistinct(t, counter);
      if !ws[0].isShuffled {
        forall x | x in Placed(t) ensures Key(x) != Key(ws[0]) {
          var m :| 0 <= m < |t| && t[m] == x;
          assert ws[m + 1] == x;
        }
      }
    }
  }

  /** Filtering distributes over concatenation. */
  lemma {:induction false} PlacedAppend(a: seq<Word>, b: seq<Word>)
    ensures Placed(a + b) == Placed(a) + Placed(b)
  {
    if a == [] {
      assert a + b == b;
    } else {
      assert (a + b)[1..] == a[1..] + b;
      PlacedAppend(a[1..], b);
    }
  }

  /** The placed words of a single card. */
  lemma PlacedSingle(w: Word)
    ensures Placed([w]) == PlacedPart(w)
  {
    assert [w][1..] == [];
  }

  /** A sequence is the part before index `k`, the element at `k`, and the part after. */
  lemma SplitAround<T>(s: seq<T>, k: nat)
    requires k < |s|
    ensures s == (s[..k] + [s[k]]) + s[k + 1..]
  {
  }

  /** Replacing the element at `k` leaves the parts before and after it alone. */
  lemma UpdateAround<T>(s: seq<T>, k: nat, x: T)
    requires k < |s|
    ensures s[k := x][..k] == s[..k] && s[k := x][k + 1..] == s[k + 1..]
  {
  }

  /** The placed words around card `k`, split into before, the card, and after. */
  lemma PlacedAround(ws: seq<Word>, k: nat)
    requires k < |ws|
    ensures Placed(ws) == (Placed(ws[..k]) + PlacedPart(ws[k])) + Placed(ws[k + 1..])
  {
    var before, w, after := ws[..k], ws[k], ws[k + 1..];
    SplitAround(ws, k);
    PlacedAppend(before + [w], after);
    PlacedAppend(before, [w]);
    PlacedSingle(w);
  }

  /** How the placed words change when one card is replaced. */
  lemma PlacedUpdate(ws: seq<Word>, k: nat, x: Word)
    requires k < |ws|
    ensures multiset(Placed(ws[k := x])) + multiset(PlacedPart(ws[k])) == multiset(Placed(ws)) + multiset(PlacedPart(x))
  {
    var ws' := ws[k := x];
    UpdateAround(ws, k, x);
    PlacedAround(ws, k);
    PlacedAround(ws', k);
    var before, after := multiset(Placed(ws[..k])), multiset(Placed(ws[k + 1..]));
    var gone, added := multiset(PlacedPart(ws[k])), multiset(PlacedPart(x));
    assert multiset(Placed(ws)) == before + gone + after;
    assert multiset(Placed(ws')) == before + added + after;
  }

  /** Placing a pool card as click number `counter + 1` keeps the click numbers consistent. */
  lemma PlaceKeepsConsistent(ws: seq<Word>, k: nat, counter: nat)
    requires k < |ws| && ClickOrdersConsistent(ws, counter) && ws[k].isShuffled
    ensures ClickOrdersConsistent(ws[k := Click(ws[k], ws[k].id, counter)], counter + 1)
  {
    var ws' := ws[k := Click(ws[k], ws[k].id, counter)];
    forall i | 0 <= i < |ws'|
      ensures (ws'[i].isShuffled <==> ws'[i].clickOrder.None?)
      ensures !ws'[i].isShuffled ==> 1 <= ws'[i].clickOrder.value <= counter + 1
    {
      if i != k {
        assert ws'[i] == ws[i];
      }
    }
    forall i, j | 0 <= i < j < |ws'| && !ws'[i].isShuffled && !ws'[j].isShuffled
      ensures Key(ws'[i]) != Key(ws'[j])
    {
      if i != k && j != k {
        assert ws'[i] == ws[i] && ws'[j] == ws[j];
      }
    }
  }

  /** Returning a sentence card to the pool keeps the click numbers consistent. */
  lemma UnplaceKeepsConsistent(ws: seq<Word>, k: nat, counter: int)
    requires k < |ws| && ClickOrdersConsistent(ws, counter) && !ws[k].isShuffled
    ensures ClickOrdersConsistent(ws[k := Click(ws[k], ws[k].id, counter)], counter)
  {
    var ws' := ws[k := Click(ws[k], ws[k].id, counter)];
    forall i, j | 0 <= i < j < |ws'| && !ws'[i].isShuffled && !ws'[j].isShuffled
      ensures Key(ws'[i]) != Key(ws'[j])
    {
      assert ws'[i] == ws[i] && ws'[j] == ws[j];
    }
  }

  /** Every sentence card's click number is at most the counter. */
  lemma SentenceKeysBounded(ws: seq<Word>, counter: int)
    requires ClickOrdersConsistent(ws, counter)
    ensures forall j :: 0 <= j < |Sentence(ws)| ==> Key(Sentence(ws)[j]) < counter + 1
  {
    var p := Placed(ws);
    forall j | 0 <= j < |p| ensures Key(p[j]) < counter + 1 {
      assert p[j] in ws;
    }
    KeysOfPermutation(p, Sentence(ws), counter + 1);
  }

  /** A card after a strictly increasing sequence of smaller keys. */
  lemma StrictlySortedSnoc(t: seq<Word>, x: Word)
    requires StrictlySorted(t) && forall j :: 0 <= j < |t| ==> Key(t[j]) < Key(x)
    ensures StrictlySorted(t + [x])
  {
  }

  /** Clicking a pool word appends it to the end of the sentence, everything else in place. */
  lemma PlaceAppends(ws: seq<Word>, k: nat, counter: nat)
    requires k < |ws| && ClickOrdersConsistent(ws, counter) && ws[k].isShuffled
    ensures ClickOrdersConsistent(ws[k := Click(ws[k], ws[k].id, counter)], counter + 1)
    ensures Sentence(ws[k := Click(ws[k], ws[k].id, counter)]) == Sentence(ws) + [Click(ws[k], ws[k].id, counter)]
  {
    var x := Click(ws[k], ws[k].id, counter);
    var ws' := ws[k := x];
    PlaceKeepsConsistent(ws, k, counter);
    var a, b := Sentence(ws'), Sentence(ws) + [x];
    assert StrictlySorted(a) by {
      PlacedKeysDistinct(ws', counter + 1);
      SortByKeyStrict(Placed(ws'));
    }
    assert StrictlySorted(b) by {
      PlacedKeysDistinct(ws, counter);
      SortByKeyStrict(Placed(ws));
      SentenceKeysBounded(ws, counter);
      StrictlySortedSnoc(Sentence(ws), x);
    }
    assert multiset(a) == multiset(b) by {
      PlacedUpdate(ws, k, x);
      calc {
        multiset(a);
        multiset(Placed(ws'));
        multiset(Placed(ws')) + multiset(PlacedPart(ws[k]));
        multiset(Placed(ws)) + multiset(PlacedPart(x));
        multiset(Sentence(ws)) + multiset{x};
        multiset(b);
      }
    }
    StrictlySortedUnique(a, b);
  }

  /** Clicking a sentence word takes it, and only it, out of the sentence. */
  lemma UnplaceRemoves(ws: seq<Word>, k: nat, counter: int)
    requires k < |ws| && ClickOrdersConsistent(ws, counter) && !ws[k].isShuffled
    ensures ClickOrdersConsistent(ws[k := Click(ws[k], ws[k].id, counter)], counter)
    ensures multiset(Sentence(ws[k := Click(ws[k], ws[k].id, counter)])) == multiset(Sentence(ws)) - multiset{ws[k]}
    ensures StrictlySorted(Sentence(ws[k := Click(ws[k], ws[k].id, counter)]))
  {
    var x := Click(ws[k], ws[k].id, counter);
    var ws' := ws[k := x];
    UnplaceKeepsConsistent(ws, k, counter);
    assert StrictlySorted(Sentence(ws')) by {
      PlacedKeysDistinct(ws', counter);
      SortByKeyStrict(Placed(ws'));
    }
    var after, before := multiset(Placed(ws')), multiset(Placed(ws));
    assert after + multiset{ws[k]} == before by {
      PlacedUpdate(ws, k, x);
      assert PlacedPart(ws[k]) == [ws[k]] && PlacedPart(x) == [];
    }
    assert after == before - multiset{ws[k]};
  }

  /** `prevWords.map(...)` in `handleWordClick`: every card passes through `Click`. */
  function ClickAll(ws: seq<Word>, id: int, counter: int): (r: seq<Word>)
    ensures |r| == |ws|
  {
    seq(|ws|, i requires 0 <= i < |ws| => Click(ws[i], id, counter))
  }

  /** A click on a pool card: only that card changes, it becomes click number `counter + 1`,
      the counter advances once, and the sentence grows by exactly that card at its end. */
  lemma ClickPlaces(ws: seq<Word>, counter: nat, k: nat)
    requires IdsDistinct(ws) && ClickOrdersConsistent(ws, counter) && k < |ws| && ws[k].isShuffled
    ensures ClickAll(ws, ws[k].id, counter) == ws[k := ws[k].(isShuffled := false, clickOrder := Some(counter + 1))]
    ensures PoolHits(ws, ws[k].id) == 1
    ensures Sentence(ClickAll(ws, ws[k].id, counter)) == Sentence(ws) + [ClickAll(ws, ws[k].id, counter)[k]]
  {
    ClickMapIsUpdate(ws, ws[k].id, counter, k);
    PoolHitsOfDistinct(ws, ws[k].id);
    PlaceAppends(ws, k, counter);
  }

  /** A click on a sentence card: only that card changes, it returns to the pool without a
      click number, the counter stays, and the sentence loses exactly that card. */
  lemma ClickUnplaces(ws: seq<Word>, counter: nat, k: nat)
    requires IdsDistinct(ws) && ClickOrdersConsistent(ws, counter) && k < |ws| && !ws[k].isShuffled
    ensures ClickAll(ws, ws[k].id, counter) == ws[k := ws[k].(isShuffled := true, clickOrder := None)]
    ensures PoolHits(ws, ws[k].id) == 0
    ensures multiset(Sentence(ClickAll(ws, ws[k].id, counter))) == multiset(Sentence(ws)) - multiset{ws[k]}
  {
    ClickMapIsUpdate(ws, ws[k].id, counter, k);
    PoolHitsOfDistinct(ws, ws[k].id);
    UnplaceRemoves(ws, k, counter);
  }

  /** A click on an id no card carries changes nothing. */
  lemma ClickMisses(ws: seq<Word>, id: int, counter: int)
    requires forall k :: 0 <= k < |ws| ==> ws[k].id != id
    ensures ClickAll(ws, id, counter) == ws && PoolHits(ws, id) == 0
  {
    PoolHitsAbsent(ws, id);
  }

  /** With distinct ids the map changes the one card carrying `id`. */
  lemma ClickMapIsUpdate(ws: seq<Word>, id: int, counter: int, k: nat)
    requires IdsDistinct(ws) && k < |ws| && ws[k].id == id
    ensures ClickAll(ws, id, counter) == ws[k := Click(ws[k], id, counter)]
  {
  }

  // ----- the end screen -----

  /** `Math.round((score / total) * 100)`: the nearest whole percentage, halves rounded up. */
  function Percentage(score: nat, total: nat): (p: int)
    requires total > 0
    ensures (2 * total) * p <= 200 * score + total < (2 * total) * p + 2 * total
    ensures score <= total ==> 0 <= p <= 100
  {
    DivisionBounds(200 * score + total, 2 * total);
    PercentageAtMost100(score, total, (200 * score + total) / (2 * total));
    (200 * score + total) / (2 * total)
  }

  lemma PercentageAtMost100(score: nat, total: nat, p: int)
    requires total > 0 && (2 * total) * p <= 200 * score + total
    ensures score <= total ==> p <= 100
  {
    if score <= total {
      assert (2 * total) * (101 - p) > 0;
    }
  }

  lemma DivisionBounds(n: int, d: int)
    requires d > 0
    ensures d * (n / d) <= n < d * (n / d) + d
  {
  }

  // ----- the game -----

  /** A card list made from the question's words, whatever side each card is on. */
  predicate FromQuestion(ws: seq<Word>, q: Question) {
    |ws| == |q.words| && forall i :: 0 <= i < |ws| ==> ws[i].(isShuffled := true, clickOrder := None) in q.words
  }

  /** What the game keeps about a card list dealt from question `q` at click count `counter`. */
  predicate CardsValid(ws: seq<Word>, q: Question, counter: int) {
    && FromQuestion(ws, q)
    && IdsDistinct(ws)
    && WordsSeparable(ws)
    && ClickOrdersConsistent(ws, counter)
  }

  class Game {
    /** The question list, `QUESTIONS` in the running game. */
    const questions: seq<Question>
    var currentIndex: nat
    var words: seq<Word>
    var isGameActive: bool
    var clickCounter: nat
    var score: nat
    var gameEnded: bool
    var leftGame: bool

    /** The cards are the current question's, with distinct ids and consistent click numbers;
        the score counts at most the questions already checked. */
    predicate Valid()
      reads this
    {
      && Dealt()
      && score <= currentIndex + (if gameEnded then 1 else 0)
      && (gameEnded ==> currentIndex == |questions| - 1)
    }

    /** The current cards are a valid deal of the current question. */
    predicate Dealt()
      reads this`currentIndex, this`words, this`clickCounter
    {
      && QuestionsValid()
      && currentIndex < |questions|
      && CardsValid(words, questions[currentIndex], clickCounter)
    }

    predicate QuestionsValid()
    {
      forall i :: 0 <= i < |questions| ==> QuestionWellFormed(questions[i])
    }

    /** The initial state: first question, its words shuffled, nothing placed, score 0.
        The page runs the game over `QUESTIONS`, which `QuestionsWellFormed` shows meets
        the requirement on `qs`. */
    constructor (qs: seq<Question>, roll: nat -> nat)
      requires qs != [] && forall i :: 0 <= i < |qs| ==> QuestionWellFormed(qs[i])
      ensures Valid() && questions == qs
      ensures currentIndex == 0 && words == Shuffle(qs[0].words, roll) && Placed(words) == []
      ensures isGameActive && clickCounter == 0 && score == 0 && !gameEnded && !leftGame
    {
      questions := qs;
      currentIndex := 0;
      words := Shuffle(qs[0].words, roll);
      isGameActive := true;
      clickCounter := 0;
      score := 0;
      gameEnded := false;
      leftGame := false;
      FreshDeal(qs[0], roll);
    }

    /** `handleWordClick(id)`: ignored once the game is inactive; otherwise the card with
        that id changes sides: from the pool it goes to the end of the sentence and the
        counter advances, from the sentence it goes back to the pool. */
    method WordClick(id: int)
      requires Valid()
      modifies this`words, this`clickCounter
      ensures Valid()
      ensures !isGameActive ==> words == old(words) && clickCounter == old(clickCounter)
      ensures isGameActive ==>
                words == ClickAll(old(words), id, old(clickCounter))
                && clickCounter == old(clickCounter) + PoolHits(old(words), id)
    {
      if !isGameActive {
        return;
      }
      var before, counter := words, clickCounter;
      words := ClickAll(before, id, counter);
      clickCounter := clickCounter + PoolHits(before, id);
      if k :| 0 <= k < |before| && before[k].id == id {
        ClickMapIsUpdate(before, id, counter, k);
        PoolHitsOfDistinct(before, id);
        ClickKeepsCards(before, questions[currentIndex], counter, k);
      } else {
        ClickMisses(before, id, counter);
      }
    }

    /** `validateAnswer` for the current question: right exactly when the sentence holds
        the question's words in the correct order. */
    method CheckAnswer() returns (correct: bool)
      requires Valid()
      ensures correct == ValidateAnswer(words, questions[currentIndex])
      ensures correct <==> Texts(Sentence(words)) == questions[currentIndex].correctOrder
    {
      correct := PlayerAnswer(words) == questions[currentIndex].correctAnswer;
      ValidateAnswerIffCorrectOrder(words, questions[currentIndex]);
    }

    /** `handleNextQuestion`, offered while the sentence is not empty: a correct answer
        scores one point; then either the next question is dealt freshly shuffled, or,
        after the last one, the game ends. */
    method NextQuestion(roll: nat -> nat) returns (correct: bool)
      requires Valid() && !gameEnded && Placed(words) != []
      modifies this`score, this`currentIndex, this`words, this`clickCounter, this`gameEnded
      ensures Valid()
      ensures correct == ValidateAnswer(old(words), questions[old(currentIndex)])
      ensures score == old(score) + if correct then 1 else 0
      ensures old(currentIndex) < |questions| - 1 ==>
                && currentIndex == old(currentIndex) + 1 && !gameEnded && clickCounter == 0
                && words == Shuffle(questions[currentIndex].words, roll) && Placed(words) == []
      ensures old(currentIndex) == |questions| - 1 ==>
                gameEnded && currentIndex == old(currentIndex) && words == old(words) && clickCounter == old(clickCounter)
    {
      correct := CheckAnswer();
      Award(correct);
      if currentIndex < |questions| - 1 {
        Deal(currentIndex + 1, roll);
      } else {
        gameEnded := true;
      }
    }

    /** One point for a correct answer to the question still on screen. */
    method Award(correct: bool)
      requires Valid() && !gameEnded
      modifies this`score
      ensures Dealt() && !gameEnded
      ensures score == old(score) + if correct then 1 else 0
      ensures score <= currentIndex + 1
    {
      if correct {
        score := score + 1;
      }
    }

    /** Deals question `index` freshly shuffled with the click counter back at 0. */
    method Deal(index: nat, roll: nat -> nat)
      requires QuestionsValid() && index < |questions|
      modifies this`currentIndex, this`words, this`clickCounter
      ensures Dealt()
      ensures currentIndex == index && words == Shuffle(questions[index].words, roll) && Placed(words) == []
      ensures clickCounter == 0
    {
      currentIndex := index;
      words := Shuffle(questions[index].words, roll);
      clickCounter := 0;
      FreshDeal(questions[index], roll);
    }

    /** The end screen's "play again": back to the first question, freshly shuffled, score 0.
        The state it starts from does not matter beyond the question list. */
    method PlayAgain(roll: nat -> nat)
      requires QuestionsValid() && questions != [] && gameEnded
      modifies this`currentIndex, this`words, this`clickCounter, this`score, this`gameEnded, this`isGameActive
      ensures Valid()
      ensures currentIndex == 0 && words == Shuffle(questions[0].words, roll) && Placed(words) == []
      ensures clickCounter == 0 && score == 0 && !gameEnded && isGameActive
    {
      score := 0;
      gameEnded := false;
      isGameActive := true;
      Deal(0, roll);
    }

    /** `handleExitGame`: clicks are ignored from now on and the page is left. */
    method ExitGame()
      requires Valid()
      modifies this`isGameActive, this`leftGame
      ensures Valid()
      ensures !isGameActive && leftGame
    {
      isGameActive := false;
      leftGame := true;
    }
  }

  /** A click keeps the cards those of the question, with distinct ids and readable texts. */
  lemma ClickKeepsCards(ws: seq<Word>, q: Question, counter: nat, k: nat)
    requires CardsValid(ws, q, counter) && k < |ws|
    ensures CardsValid(ws[k := Click(ws[k], ws[k].id, counter)], q, counter + if ws[k].isShuffled then 1 else 0)
  {
    var ws' := ws[k := Click(ws[k], ws[k].id, counter)];
    if ws[k].isShuffled {
      PlaceKeepsConsistent(ws, k, counter);
    } else {
      UnplaceKeepsConsistent(ws, k, counter);
    }
    assert forall i :: 0 <= i < |ws| ==>
      && ws'[i].id == ws[i].id && ws'[i].text == ws[i].text
      && ws'[i].(isShuffled := true, clickOrder := None) == ws[i].(isShuffled := true, clickOrder := None);
  }

  /** A freshly shuffled well-formed question satisfies the card invariants with no word placed. */
  lemma FreshDeal(q: Question, roll: nat -> nat)
    requires QuestionWellFormed(q)
    ensures CardsValid(Shuffle(q.words, roll), q, 0) && Placed(Shuffle(q.words, roll)) == []
  {
    var ws := Shuffle(q.words, roll);
    ShuffleKeepsIdsDistinct(q.words, roll);
    MembersOfPermutation(q.words, ws);
    assert forall i :: 0 <= i < |ws| ==> ws[i].isShuffled && ws[i].clickOrder.None? && ws[i].text != [] && ' ' !in ws[i].text by {
      forall i | 0 <= i < |ws| ensures ws[i].isShuffled && ws[i].clickOrder.None? && ws[i].text != [] && ' ' !in ws[i].text {
        var m :| 0 <= m < |q.words| && q.words[m] == ws[i];
      }
    }
    assert FromQuestion(ws, q) by {
      forall i | 0 <= i < |ws| ensures ws[i].(isShuffled := true, clickOrder := None) in q.words {
        assert ws[i].(isShuffled := true, clickOrder := None) == ws[i];
      }
    }
    NothingPlaced(ws);
  }

  /** Every card of a rearrangement is one of the original cards. */
  lemma MembersOfPermutation(ws: seq<Word>, perm: seq<Word>)
    requires multiset(perm) == multiset(ws)
    ensures forall j :: 0 <= j < |perm| ==> perm[j] in ws
  {
    forall j | 0 <= j < |perm| ensures perm[j] in ws {
      assert perm[j] in multiset(ws);
    }
  }

  lemma {:induction false} NothingPlaced(ws: seq<Word>)
    requires forall i :: 0 <= i < |ws| ==> ws[i].isShuffled
    ensures Placed(ws) == []
  {
    if ws != [] {
      NothingPlaced(ws[1..]);
    }
  }
}

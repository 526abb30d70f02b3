/** The airplane quiz engine: the player's plane flies through answer clouds scrolling in
    from the right. Flying into the cloud with the correct answer scores and moves on to the
    next question; flying into a wrong one costs a life. In math mode the engine makes up
    its own arithmetic questions. */
module Airplane {

  import opened Wrappers
  import opened Seqs
  import opened Text

  const CanvasWidth := 800
  const CanvasHeight := 600
  const PlayerSize := 50
  const CloudWidth := 150
  const CloudHeight := 80
  /** Milliseconds between two cloud spawns. */
  const SpawnRate := 2500
  const CloudSpeed := 3
  /** Clouds whose right edge is at or left of this coordinate are dropped. */
  const CullEdge := -50

  datatype GameStatus = Menu | Loading | Playing | Paused | GameOver | Victory
  datatype GameMode = MathMode | General

  /** A box on the canvas; the player is one. */
  datatype Entity = Entity(x: int, y: int, width: int, height: int)

  datatype Cloud = Cloud(id: string, x: int, y: int, width: int, height: int, text: string, isCorrect: bool, speed: int)

  datatype Question = Question(question: string, correctAnswer: string, wrongAnswers: seq<string>)

  /** The two questions used when the game list cannot be fetched or holds no airplane game. */
  const FallbackQuestions: seq<Question> := [
    Question("Ibukota Indonesia?", "Jakarta", ["Bali", "Medan"]),
    Question("Warna langit cerah?", "Biru", ["Merah", "Hijau"])
  ]

  /** Where the plane starts: x 50, vertically centred, 50 by 50. */
  const StartPlayer := Entity(50, CanvasHeight / 2, PlayerSize, PlayerSize)

  // ---------------------------------------------------------------------------------------
  // Collision

  /** The overlap test of `checkCollisions`: the boxes overlap strictly on both axes. */
  predicate Overlaps(p: Entity, c: Cloud) {
    && p.x < c.x + c.width && p.x + p.width > c.x
    && p.y < c.y + c.height && p.y + p.height > c.y
  }

  /** Pixel (u, v) lies in the box with corner (x, y) and the given size. */
  predicate Covers(x: int, y: int, width: int, height: int, u: int, v: int) {
    x <= u < x + width && y <= v < y + height
  }

  /** For boxes of positive size the overlap test holds exactly when some pixel lies in both. */
  lemma OverlapsIffSharedPixel(p: Entity, c: Cloud)
    requires p.width > 0 && p.height > 0 && c.width > 0 && c.height > 0
    ensures Overlaps(p, c) <==>
            exists u, v :: Covers(p.x, p.y, p.width, p.height, u, v) && Covers(c.x, c.y, c.width, c.height, u, v)
  {
    if Overlaps(p, c) {
      var u := if p.x < c.x then c.x else p.x;
      var v := if p.y < c.y then c.y else p.y;
      assert Covers(p.x, p.y, p.width, p.height, u, v) && Covers(c.x, c.y, c.width, c.height, u, v);
    }
  }

  // ---------------------------------------------------------------------------------------
  // Math questions

  /** The random draws behind one math question: the rolls for the two operands, the sign,
      and the stream of rolls the wrong-answer loop consumes, one per iteration. */
  datatype MathDraw = MathDraw(aRoll: nat, bRoll: nat, plus: bool, offsets: seq<nat>)

  /** `Math.floor(Math.random() * 10) + 1`. */
  function Operand(roll: nat): (n: nat)
    ensures 1 <= n <= 10
  {
    roll % 10 + 1
  }

  /** `a + b` or `a - b`. */
  function Answer(d: MathDraw): int {
    if d.plus then Operand(d.aRoll) + Operand(d.bRoll) else Operand(d.aRoll) - Operand(d.bRoll)
  }

  /** One candidate wrong answer: `ans + Math.floor(Math.random() * 10) - 5`. */
  function Candidate(ans: int, roll: nat): (w: int)
    ensures ans - 5 <= w <= ans + 4
  {
    ans + roll % 10 - 5
  }

  /** The wrong answers the generator's set holds after the given rolls, in insertion order:
      each candidate joins unless it is the answer or already present. */
  function Collected(ans: int, rolls: seq<nat>): seq<int> {
    if rolls == [] then []
    else
      var prev := Collected(ans, rolls[..|rolls| - 1]);
      var w := Candidate(ans, rolls[|rolls| - 1]);
      if w != ans && w !in prev then prev + [w] else prev
  }

  /** One more roll: the collection grows by its candidate when that is new and not the answer. */
  lemma CollectedStep(ans: int, rolls: seq<nat>, i: nat)
    requires i < |rolls|
    ensures var prev, w := Collected(ans, rolls[..i]), Candidate(ans, rolls[i]);
            Collected(ans, rolls[..i + 1]) == if w != ans && w !in prev then prev + [w] else prev
  {
    assert rolls[..i + 1][..i] == rolls[..i];
  }

  /** The prefix of full length is the whole sequence. */
  lemma WholePrefix<T>(s: seq<T>)
    ensures s[..|s|] == s
  {
  }

  /** The rolls let the generator's loop stop: they yield three different wrong answers. */
  predicate EnoughDraws(d: MathDraw) {
    |Collected(Answer(d), d.offsets)| >= 3
  }

  /** `String(n)` for each number. */
  function Strings(ns: seq<int>): (r: seq<string>)
    ensures |r| == |ns| && forall i :: 0 <= i < |ns| ==> r[i] == IntToString(ns[i])
  {
    seq(|ns|, i requires 0 <= i < |ns| => IntToString(ns[i]))
  }

  /** The question `generateMathQuestion` makes from the draws `d`. */
  function MathQuestion(d: MathDraw): Question
    requires EnoughDraws(d)
  {
    Question(NatToString(Operand(d.aRoll)) + " " + (if d.plus then "+" else "-") + " "
               + NatToString(Operand(d.bRoll)) + " = ?",
             IntToString(Answer(d)),
             Strings(Collected(Answer(d), d.offsets)[..3]))
  }

  /** Three wrong answers, pairwise different and none of them the correct answer. */
  predicate WrongAnswersSound(q: Question) {
    && |q.wrongAnswers| == 3
    && NoDuplicates(q.wrongAnswers)
    && q.correctAnswer !in q.wrongAnswers
  }

  /** The collected wrong answers are never the answer, lie within five below to four above
      it, and are pairwise different. */
  lemma {:induction false} CollectedSound(ans: int, rolls: seq<nat>)
    ensures forall k :: 0 <= k < |Collected(ans, rolls)| ==>
              var w := Collected(ans, rolls)[k]; w != ans && ans - 5 <= w <= ans + 4
    ensures NoDuplicates(Collected(ans, rolls))
  {
    if rolls != [] {
      CollectedSound(ans, rolls[..|rolls| - 1]);
    }
  }

  /** Later rolls only ever add to the end of the collection. */
  lemma {:induction false} CollectedPrefix(ans: int, rolls: seq<nat>, i: nat)
    requires i <= |rolls|
    ensures Collected(ans, rolls[..i]) <= Collected(ans, rolls)
  {
    if i < |rolls| {
      var shorter := rolls[..|rolls| - 1];
      assert shorter[..i] == rolls[..i];
      CollectedPrefix(ans, shorter, i);
    } else {
      assert rolls[..i] == rolls;
    }
  }

  /** Every candidate that is not the answer ends up in the collection. */
  lemma {:induction false} CollectedComplete(ans: int, rolls: seq<nat>, t: nat)
    requires t < |rolls| && Candidate(ans, rolls[t]) != ans
    ensures Candidate(ans, rolls[t]) in Collected(ans, rolls)
  {
    var shorter := rolls[..|rolls| - 1];
    if t < |rolls| - 1 {
      assert shorter[t] == rolls[t];
      CollectedComplete(ans, shorter, t);
    }
  }

  /** Three rolls that differ from each other and from 5 (modulo 10) are enough for the
      generator's loop to stop. */
  lemma ThreeUsableRollsSuffice(d: MathDraw, i: nat, j: nat, k: nat)
    requires i < |d.offsets| && j < |d.offsets| && k < |d.offsets|
    requires d.offsets[i] % 10 != 5 && d.offsets[j] % 10 != 5 && d.offsets[k] % 10 != 5
    requires d.offsets[i] % 10 != d.offsets[j] % 10 && d.offsets[i] % 10 != d.offsets[k] % 10
    requires d.offsets[j] % 10 != d.offsets[k] % 10
    ensures EnoughDraws(d)
  {
    var ans := Answer(d);
    CollectedComplete(ans, d.offsets, i);
    CollectedComplete(ans, d.offsets, j);
    CollectedComplete(ans, d.offsets, k);
    ThreeDistinctMembers(Collected(ans, d.offsets), Candidate(ans, d.offsets[i]),
                         Candidate(ans, d.offsets[j]), Candidate(ans, d.offsets[k]));
  }

  /** A sequence holding three different values has at least three elements. */
  lemma ThreeDistinctMembers(s: seq<int>, a: int, b: int, c: int)
    requires a in s && b in s && c in s && a != b && a != c && b != c
    ensures |s| >= 3
  {
  }

  /** A generated question has three distinct wrong answers, none of them the correct one,
      and each the rendering of a number within five below to four above the answer. */
  lemma MathQuestionSound(d: MathDraw)
    requires EnoughDraws(d)
    ensures WrongAnswersSound(MathQuestion(d))
    ensures forall k :: 0 <= k < 3 ==>
              var w := Collected(Answer(d), d.offsets)[k];
              && MathQuestion(d).wrongAnswers[k] == IntToString(w)
              && w != Answer(d) && Answer(d) - 5 <= w <= Answer(d) + 4
  {
    var ans := Answer(d);
    var ws := Collected(ans, d.offsets)[..3];
    var q := MathQuestion(d);
    CollectedSound(ans, d.offsets);
    forall i, j | 0 <= i < j < 3 ensures q.wrongAnswers[i] != q.wrongAnswers[j] {
      if q.wrongAnswers[i] == q.wrongAnswers[j] {
        IntToStringInjective(ws[i], ws[j]);
      }
    }
    forall i | 0 <= i < 3 ensures q.wrongAnswers[i] != q.correctAnswer {
      if q.wrongAnswers[i] == q.correctAnswer {
        IntToStringInjective(ws[i], ans);
      }
    }
  }

  /** `generateMathQuestion`: two operands from 1 to 10, a random sign, and a loop that draws
      candidates `ans - 5 .. ans + 4` until three different wrong answers are in the set. */
  method GenerateMathQuestion(d: MathDraw) returns (q: Question)
    requires EnoughDraws(d)
    ensures q == MathQuestion(d)
  {
    var a: int, b: int := Operand(d.aRoll), Operand(d.bRoll);
    var ans := if d.plus then a + b else a - b;
    var wrongs := CollectWrongAnswers(ans, d.offsets);
    q := Question(NatToString(a) + " " + (if d.plus then "+" else "-") + " " + NatToString(b) + " = ?",
                  IntToString(ans), Strings(wrongs));
  }

  /** The `while (wrongs.size < 3)` loop of `generateMathQuestion`, consuming one roll per
      iteration; the set is kept as the numbers whose strings it holds, in insertion order. */
  method CollectWrongAnswers(ans: int, rolls: seq<nat>) returns (wrongs: seq<int>)
    requires |Collected(ans, rolls)| >= 3
    ensures wrongs == Collected(ans, rolls)[..3]
  {
    wrongs := [];
    var i := 0;
    while |wrongs| < 3
      invariant i <= |rolls|
      invariant wrongs == Collected(ans, rolls[..i])
      invariant |wrongs| <= 3
      decreases |rolls| - i
    {
      if i == |rolls| {
        WholePrefix(rolls);
        assert false;
      }
      var w := ans + rolls[i] % 10 - 5;
      CollectedStep(ans, rolls, i);
      if w != ans && w !in wrongs {
        wrongs := wrongs + [w];
      }
      i := i + 1;
    }
    CollectedPrefix(ans, rolls, i);
  }

  // ---------------------------------------------------------------------------------------
  // Clouds

  /** `cloud.x -= cloud.speed` for every cloud. */
  function Moved(cs: seq<Cloud>): (r: seq<Cloud>)
    ensures |r| == |cs|
    ensures forall i :: 0 <= i < |cs| ==> r[i] == cs[i].(x := cs[i].x - cs[i].speed)
  {
    seq(|cs|, i requires 0 <= i < |cs| => cs[i].(x := cs[i].x - cs[i].speed))
  }

  /** The clouds kept after scrolling: those whose right edge is still right of the cull edge. */
  function Visible(cs: seq<Cloud>): (r: seq<Cloud>)
    ensures forall c :: c in r <==> c in cs && c.x + c.width > CullEdge
  {
    if cs == [] then [] else (if cs[0].x + cs[0].width > CullEdge then [cs[0]] else []) + Visible(cs[1..])
  }

  /** Culling keeps the clouds it keeps in their order: filtering a joined list is joining
      the filtered halves. */
  lemma {:induction false} VisibleAppend(a: seq<Cloud>, b: seq<Cloud>)
    ensures Visible(a + b) == Visible(a) + Visible(b)
  {
    if a == [] {
      assert a + b == b;
    } else {
      assert (a + b)[1..] == a[1..] + b;
      VisibleAppend(a[1..], b);
    }
  }

  /** How many of the clouds `cs` whose correctness is `correct` the plane `p` touches. */
  function Hits(p: Entity, cs: seq<Cloud>, correct: bool): nat {
    if cs == [] then 0
    else (if Overlaps(p, cs[0]) && cs[0].isCorrect == correct then 1 else 0) + Hits(p, cs[1..], correct)
  }

  /** The clouds left once every wrong cloud the plane touches is spliced out. */
  function Survivors(p: Entity, cs: seq<Cloud>): (r: seq<Cloud>)
    ensures forall c :: c in r <==> c in cs && !(Overlaps(p, c) && !c.isCorrect)
  {
    if cs == [] then []
    else (if Overlaps(p, cs[0]) && !cs[0].isCorrect then [] else [cs[0]]) + Survivors(p, cs[1..])
  }

  /** The collision scan takes one more cloud, at position `j`, into account. */
  lemma ScanStep(p: Entity, frame: seq<Cloud>, j: nat)
    requires j < |frame|
    ensures forall b :: Hits(p, frame[j..], b)
                        == (if Overlaps(p, frame[j]) && frame[j].isCorrect == b then 1 else 0) + Hits(p, frame[j + 1..], b)
    ensures Survivors(p, frame[j..])
            == (if Overlaps(p, frame[j]) && !frame[j].isCorrect then [] else [frame[j]]) + Survivors(p, frame[j + 1..])
  {
    assert frame[j..][1..] == frame[j + 1..];
  }

  /** Splicing out position `j` of a scan state whose first `j + 1` clouds are untouched. */
  lemma SpliceStep(frame: seq<Cloud>, rest: seq<Cloud>, j: nat)
    requires j < |frame|
    ensures RemoveAt(frame[..j + 1] + rest, j) == frame[..j] + rest
    ensures frame[..j + 1] + rest == frame[..j] + ([frame[j]] + rest)
  {
    assert frame[..j + 1] == frame[..j] + [frame[j]];
  }

  /** What `checkCollisions` changes: score, lives, game state, clouds, questions and index. */
  datatype ScanState = ScanState(score: int, lives: int, state: GameStatus, clouds: seq<Cloud>,
                                 questions: seq<Question>, index: nat)

  /** The collision scan's effect of cloud `c` at position `i` on the state `st`; `first` is
      the state the scan began in, whose question index and question count the handler's
      closure sees, and `regenerated` the question a correct hit generates in math mode. */
  function ScanCloud(p: Entity, st: ScanState, c: Cloud, i: nat, first: ScanState, mode: GameMode, regenerated: Question): ScanState {
    if !Overlaps(p, c) then st
    else if c.isCorrect then
      st.(score := st.score + 10, clouds := [],
          questions := if mode == MathMode then [regenerated] else st.questions,
          index := if mode == MathMode then st.index
                   else if first.index < |first.questions| - 1 then st.index + 1
                   else 0)
    else
      st.(lives := st.lives - 1, state := if st.lives - 1 <= 0 then GameOver else st.state,
          clouds := if i < |st.clouds| then RemoveAt(st.clouds, i) else st.clouds)
  }

  /** The state after the scan has visited positions `|frame| - 1` down to `i`. */
  function Scan(p: Entity, frame: seq<Cloud>, i: nat, first: ScanState, mode: GameMode, regenerated: Question): ScanState
    requires i <= |frame|
    decreases |frame| - i
  {
    if i == |frame| then first
    else ScanCloud(p, Scan(p, frame, i + 1, first, mode, regenerated), frame[i], i, first, mode, regenerated)
  }

  /** The scan adds 10 points per touched correct cloud and takes a life per touched wrong
      one; the game is over once some wrong hit brought the lives to zero or below. */
  lemma {:induction false} ScanTotals(p: Entity, frame: seq<Cloud>, i: nat, first: ScanState, mode: GameMode, regenerated: Question)
    requires i <= |frame|
    ensures var st, wrong := Scan(p, frame, i, first, mode, regenerated), Hits(p, frame[i..], false);
            && st.score == first.score + 10 * Hits(p, frame[i..], true)
            && st.lives == first.lives - wrong
            && st.state == if wrong > 0 && first.lives - wrong <= 0 then GameOver else first.state
    decreases |frame| - i
  {
    if i < |frame| {
      ScanTotals(p, frame, i + 1, first, mode, regenerated);
      ScanStep(p, frame, i);
    }
  }

  /** Once a correct cloud is touched the list is empty; until then the touched wrong clouds
      are spliced out of the list the scan started from. */
  lemma {:induction false} ScanClouds(p: Entity, frame: seq<Cloud>, i: nat, first: ScanState, mode: GameMode, regenerated: Question)
    requires i <= |frame| && first.clouds == frame
    ensures Scan(p, frame, i, first, mode, regenerated).clouds
            == if Hits(p, frame[i..], true) > 0 then [] else frame[..i] + Survivors(p, frame[i..])
    decreases |frame| - i
  {
    if i < |frame| {
      ScanClouds(p, frame, i + 1, first, mode, regenerated);
      ScanStep(p, frame, i);
      var rest := Scan(p, frame, i + 1, first, mode, regenerated);
      var tail := Survivors(p, frame[i + 1..]);
      if Hits(p, frame[i + 1..], true) == 0 {
        assert rest.clouds == frame[..i + 1] + tail;
        SpliceStep(frame, tail, i);
        if Overlaps(p, frame[i]) && !frame[i].isCorrect {
          assert Survivors(p, frame[i..]) == tail;
        } else if !Overlaps(p, frame[i]) {
          assert Survivors(p, frame[i..]) == [frame[i]] + tail;
        }
      } else {
        assert rest.clouds == [];
      }
    } else {
      assert frame[..i] == frame;
    }
  }

  /** In math mode a correct hit replaces the question by `regenerated` and the index stays; in
      general mode the index moves on by one per correct hit, or back to 0 when the scan
      began on the last question. */
  lemma {:induction false} ScanQuestions(p: Entity, frame: seq<Cloud>, i: nat, first: ScanState, mode: GameMode, regenerated: Question)
    requires i <= |frame|
    ensures var st, correct := Scan(p, frame, i, first, mode, regenerated), Hits(p, frame[i..], true);
            && (mode == MathMode ==>
                  st.index == first.index && st.questions == if correct > 0 then [regenerated] else first.questions)
            && (mode == General ==>
                  && st.questions == first.questions
                  && st.index == if correct == 0 then first.index
                                 else if first.index < |first.questions| - 1 then first.index + correct
                                 else 0)
    decreases |frame| - i
  {
    if i < |frame| {
      ScanQuestions(p, frame, i + 1, first, mode, regenerated);
      ScanStep(p, frame, i);
    }
  }

  /** The question a correct hit generates: a new math question in math mode; general mode
      generates none. */
  function Regenerated(mode: GameMode, d: MathDraw): Question
    requires mode == MathMode ==> EnoughDraws(d)
  {
    if mode == MathMode then MathQuestion(d) else Question("", "", [])
  }

  /** The scan over the whole frame in closed form. */
  lemma ScanOutcome(p: Entity, frame: seq<Cloud>, first: ScanState, mode: GameMode, regenerated: Question)
    requires first.clouds == frame
    ensures var st, correct, wrong := Scan(p, frame, 0, first, mode, regenerated), Hits(p, frame, true), Hits(p, frame, false);
            && st.score == first.score + 10 * correct
            && st.lives == first.lives - wrong
            && st.state == (if wrong > 0 && first.lives - wrong <= 0 then GameOver else first.state)
            && st.clouds == (if correct > 0 then [] else Survivors(p, frame))
            && (mode == MathMode ==>
                  st.index == first.index && st.questions == if correct > 0 then [regenerated] else first.questions)
            && (mode == General ==>
                  && st.questions == first.questions
                  && st.index == if correct == 0 then first.index
                                 else if first.index < |first.questions| - 1 then first.index + correct
                                 else 0)
  {
    ScanTotals(p, frame, 0, first, mode, regenerated);
    ScanClouds(p, frame, 0, first, mode, regenerated);
    ScanQuestions(p, frame, 0, first, mode, regenerated);
    assert frame[0..] == frame;
  }

  /** The loop of `checkCollisions`: `for (let i = clouds.length - 1; i >= 0; i--)` over the
      clouds as they were when it began, splicing touched wrong clouds out of the current list
      and replacing the list by an empty one on a correct hit. */
  method ScanCollisions(p: Entity, frame: seq<Cloud>, first: ScanState, mode: GameMode, d: MathDraw)
    returns (st: ScanState)
    requires mode == MathMode ==> EnoughDraws(d)
    ensures st == Scan(p, frame, 0, first, mode, Regenerated(mode, d))
  {
    st := first;
    var i := |frame|;
    while i > 0
      invariant 0 <= i <= |frame|
      invariant st == Scan(p, frame, i, first, mode, Regenerated(mode, d))
    {
      i := i - 1;
      st := ScanOne(p, st, frame[i], i, first, mode, d);
    }
  }

  /** One iteration of the collision loop, for cloud `c` at position `i`. */
  method ScanOne(p: Entity, st: ScanState, c: Cloud, i: nat, first: ScanState, mode: GameMode, d: MathDraw)
    returns (next: ScanState)
    requires mode == MathMode ==> EnoughDraws(d)
    ensures next == ScanCloud(p, st, c, i, first, mode, Regenerated(mode, d))
  {
    next := st;
    if Overlaps(p, c) {
      if c.isCorrect {
        var questions := st.questions;
        if mode == MathMode {
          var q := GenerateMathQuestion(d);
          questions := [q];
        }
        next := st.(score := st.score + 10, clouds := [], questions := questions,
                    index := if mode == MathMode then st.index
                             else if first.index < |first.questions| - 1 then st.index + 1
                             else 0);
      } else {
        var remaining := if i < |st.clouds| then RemoveAt(st.clouds, i) else st.clouds;
        next := st.(lives := st.lives - 1, state := if st.lives - 1 <= 0 then GameOver else st.state,
                    clouds := remaining);
      }
    }
  }

  /** Splicing clouds out keeps the rest as they were. */
  lemma SurvivorsShaped(p: Entity, cs: seq<Cloud>)
    requires CloudsShaped(cs)
    ensures CloudsShaped(Survivors(p, cs)) && CloudsShaped([])
  {
  }

  /** Clouds as `spawnCloud` makes them: 150 by 80, moving 3 per frame. */
  predicate CloudsShaped(cs: seq<Cloud>) {
    forall c :: c in cs ==> c.width == CloudWidth && c.height == CloudHeight && c.speed == CloudSpeed
  }

  /** The fallback questions each have distinct wrong answers, none of them correct; with two
      wrong answers each they are not math-shaped, which asks for three. */
  lemma FallbackWrongAnswersDistinct()
    ensures forall q :: q in FallbackQuestions ==>
              NoDuplicates(q.wrongAnswers) && q.correctAnswer !in q.wrongAnswers
  {
  }

  /** Scores come in tens and never go negative; there are never more than three lives;
      every cloud has the spawn shape; in math mode the one question on screen has three
      distinct wrong answers, none of them the correct one. */
  predicate EngineValid(score: int, lives: int, clouds: seq<Cloud>, mode: GameMode, questions: seq<Question>) {
    && score >= 0 && score % 10 == 0
    && lives <= 3
    && CloudsShaped(clouds)
    && (mode == MathMode ==> |questions| == 1 && WrongAnswersSound(questions[0]))
  }

  /** A collision scan keeps the engine invariant: scores move in tens, lives only go down,
      the surviving clouds keep their shape and a regenerated math question is sound. */
  lemma ScanKeepsValid(p: Entity, frame: seq<Cloud>, first: ScanState, mode: GameMode, regenerated: Question, st: ScanState)
    requires EngineValid(first.score, first.lives, frame, mode, first.questions)
    requires mode == MathMode ==> WrongAnswersSound(regenerated)
    requires st.score == first.score + 10 * Hits(p, frame, true)
    requires st.lives == first.lives - Hits(p, frame, false)
    requires st.clouds == if Hits(p, frame, true) > 0 then [] else Survivors(p, frame)
    requires mode == MathMode ==> st.questions == if Hits(p, frame, true) > 0 then [regenerated] else first.questions
    ensures EngineValid(st.score, st.lives, st.clouds, mode, st.questions)
  {
    SurvivorsShaped(p, frame);
  }

  /** The whole collision scan in closed form, from the state `first` whose cloud list is
      the frame being scanned; it keeps the engine invariant. */
  method Collide(p: Entity, first: ScanState, mode: GameMode, d: MathDraw) returns (st: ScanState)
    requires mode == MathMode ==> EnoughDraws(d)
    requires EngineValid(first.score, first.lives, first.clouds, mode, first.questions)
    ensures EngineValid(st.score, st.lives, st.clouds, mode, st.questions)
    ensures var correct, wrong := Hits(p, first.clouds, true), Hits(p, first.clouds, false);
            && st.score == first.score + 10 * correct
            && st.lives == first.lives - wrong
            && st.state == (if wrong > 0 && first.lives - wrong <= 0 then GameOver else first.state)
            && st.clouds == (if correct > 0 then [] else Survivors(p, first.clouds))
            && (mode == MathMode ==>
                  st.index == first.index && st.questions == if correct > 0 then [MathQuestion(d)] else first.questions)
            && (mode == General ==>
                  && st.questions == first.questions
                  && st.index == if correct == 0 then first.index
                                 else if first.index < |first.questions| - 1 then first.index + correct
                                 else 0)
  {
    st := ScanCollisions(p, first.clouds, first, mode, d);
    ScanOutcome(p, first.clouds, first, mode, Regenerated(mode, d));
    if mode == MathMode {
      MathQuestionSound(d);
    }
    ScanKeepsValid(p, first.clouds, first, mode, Regenerated(mode, d), st);
  }

  // ---------------------------------------------------------------------------------------
  // The engine

  class Engine {
    var gameState: GameStatus
    var gameMode: GameMode
    var score: int
    var lives: int
    var questions: seq<Question>
    var currentQIndex: nat
    var player: Entity
    var clouds: seq<Cloud>
    var lastSpawn: int

    predicate Valid()
      reads this
    {
      EngineValid(score, lives, clouds, gameMode, questions)
    }

    /** The menu: general mode, score 0, three lives, no questions, no clouds. */
    constructor ()
      ensures Valid()
      ensures gameState == Menu && gameMode == General && score == 0 && lives == 3
      ensures questions == [] && currentQIndex == 0 && player == StartPlayer && clouds == [] && lastSpawn == 0
    {
      gameState := Menu;
      gameMode := General;
      score := 0;
      lives := 3;
      questions := [];
      currentQIndex := 0;
      player := StartPlayer;
      clouds := [];
      lastSpawn := 0;
    }

    /** `getCurrentQuestion`: the only question in math mode, the current one otherwise;
        JavaScript's `undefined` past the end is `None`. */
    function CurrentQuestion(): (r: Option<Question>)
      reads this`gameMode, this`questions, this`currentQIndex
      ensures r.Some? <==> if gameMode == MathMode then |questions| > 0 else currentQIndex < |questions|
      ensures r.Some? ==> r.value in questions
      ensures r.Some? && gameMode == MathMode ==> r.value == questions[0]
    {
      if gameMode == MathMode then
        if |questions| > 0 then Some(questions[0]) else None
      else
        if currentQIndex < |questions| then Some(questions[currentQIndex]) else None
    }

    /** `startGame(mode)`: score 0, three lives, question 0, no clouds, the plane back at its
        start; math mode generates its question from `d` and plays at once, general mode
        starts loading. */
    method StartGame(mode: GameMode, d: MathDraw)
      requires Valid() && (mode == MathMode ==> EnoughDraws(d))
      modifies this`gameMode, this`score, this`lives, this`currentQIndex, this`clouds, this`player
      modifies this`questions, this`gameState
      ensures Valid()
      ensures gameMode == mode && score == 0 && lives == 3 && currentQIndex == 0 && clouds == []
      ensures player == StartPlayer
      ensures mode == MathMode ==> questions == [MathQuestion(d)] && gameState == Playing
      ensures mode == General ==> questions == old(questions) && gameState == Loading
    {
      gameMode := mode;
      score := 0;
      lives := 3;
      currentQIndex := 0;
      clouds := [];
      player := StartPlayer;
      if mode == MathMode {
        var q := GenerateMathQuestion(d);
        MathQuestionSound(d);
        questions := [q];
        gameState := Playing;
      } else {
        gameState := Loading;
      }
    }

    /** The end of `startGeneralGame`: the questions found in the fetched game, or the
        fallback questions when none were found or the fetch failed; then play. */
    method GeneralLoaded(found: seq<Question>)
      requires Valid() && gameState == Loading && gameMode == General
      modifies this`questions, this`gameState
      ensures Valid()
      ensures questions == if |found| > 0 then found else FallbackQuestions
      ensures gameState == Playing
    {
      if |found| > 0 {
        questions := found;
      } else {
        questions := FallbackQuestions;
      }
      gameState := Playing;
    }

    /** `spawnCloud(timestamp)`: more than 2500 ms after the last spawn, with a question on
        screen, a cloud enters at x 850; it is correct when `chance > 0.6` and then carries
        the correct answer, otherwise a wrong answer picked by `wrongRoll`. */
    method SpawnCloud(timestamp: int, chance: real, wrongRoll: nat, id: string, y: int)
      requires Valid()
      modifies this`clouds, this`lastSpawn
      ensures Valid()
      ensures var q := CurrentQuestion();
              if timestamp - old(lastSpawn) > SpawnRate && |questions| > 0 && q.Some? then
                && lastSpawn == timestamp && |clouds| == |old(clouds)| + 1 && clouds[..|old(clouds)|] == old(clouds)
                && var c := clouds[|old(clouds)|];
                   && c.id == id && c.x == CanvasWidth + 50 && c.y == y && c.isCorrect == (chance > 0.6)
                   && (c.isCorrect ==> c.text == q.value.correctAnswer)
                   && (!c.isCorrect && q.value.wrongAnswers != [] ==> c.text in q.value.wrongAnswers)
                   && (WrongAnswersSound(q.value) ==> (c.isCorrect <==> c.text == q.value.correctAnswer))
              else
                clouds == old(clouds) && lastSpawn == old(lastSpawn)
    {
      if timestamp - lastSpawn > SpawnRate && |questions| > 0 {
        var current := CurrentQuestion();
        if current.None? {
          return;
        }
        var q := current.value;
        var isCorrect := chance > 0.6;
        var text := if isCorrect then q.correctAnswer
                    else if |q.wrongAnswers| > 0 then q.wrongAnswers[wrongRoll % |q.wrongAnswers|]
                    else "";
        clouds := clouds + [Cloud(id, CanvasWidth + 50, y, CloudWidth, CloudHeight, text, isCorrect, CloudSpeed)];
        lastSpawn := timestamp;
      }
    }

    /** The cloud half of `updatePhysics`: the plane takes the position the mouse-following easing
        produced, every cloud moves left by its speed, and clouds that left the screen are
        dropped. */
    method UpdatePhysics(px: int, py: int)
      requires Valid()
      modifies this`player, this`clouds
      ensures Valid()
      ensures player == old(player).(x := px, y := py)
      ensures clouds == Visible(Moved(old(clouds)))
    {
      player := player.(x := px, y := py);
      var moving := clouds;
      var i := 0;
      while i < |moving|
        invariant i <= |moving| == |clouds|
        invariant forall k :: 0 <= k < i ==> moving[k] == clouds[k].(x := clouds[k].x - clouds[k].speed)
        invariant forall k :: i <= k < |moving| ==> moving[k] == clouds[k]
      {
        moving := moving[i := moving[i].(x := moving[i].x - moving[i].speed)];
        i := i + 1;
      }
      assert moving == Moved(clouds);
      clouds := Visible(moving);
    }

    /** `checkCollisions`, scanning the clouds from last to first. Each touched correct
        cloud scores 10, empties the cloud list and moves on (a new math question, or the
        next general question, back to the first after the last); each touched wrong cloud
        costs a life, ends the game once lives reach zero, and is spliced out of the list. The
        scan reads the clouds as they were when it began and the question index as it was
        when the frame began, as the handler's closure does. */
    method CheckCollisions(d: MathDraw)
      requires Valid() && (gameMode == MathMode ==> EnoughDraws(d))
      modifies this`score, this`lives, this`gameState, this`clouds, this`questions, this`currentQIndex
      ensures Valid()
      ensures score == old(score) + 10 * Hits(player, old(clouds), true)
      ensures lives == old(lives) - Hits(player, old(clouds), false)
      ensures gameState == if Hits(player, old(clouds), false) > 0 && old(lives) - Hits(player, old(clouds), false) <= 0
                           then GameOver else old(gameState)
      ensures clouds == if Hits(player, old(clouds), true) > 0 then [] else Survivors(player, old(clouds))
      ensures gameMode == MathMode ==>
                && currentQIndex == old(currentQIndex)
                && questions == if Hits(player, old(clouds), true) > 0 then [MathQuestion(d)] else old(questions)
      ensures gameMode == General ==>
                && questions == old(questions)
                && currentQIndex == if Hits(player, old(clouds), true) == 0 then old(currentQIndex)
                                    else if old(currentQIndex) < |questions| - 1 then old(currentQIndex) + Hits(player, old(clouds), true)
                                    else 0
    {
      var st := Collide(player, ScanState(score, lives, gameState, clouds, questions, currentQIndex), gameMode, d);
      score, lives, gameState, clouds, questions, currentQIndex :=
        st.score, st.lives, st.state, st.clouds, st.questions, st.index;
    }

    /** `pauseGame`. */
    method PauseGame()
      requires Valid()
      modifies this`gameState
      ensures Valid() && gameState == Paused
    {
      gameState := Paused;
    }

    /** `resumeGame`. */
    method ResumeGame()
      requires Valid()
      modifies this`gameState
      ensures Valid() && gameState == Playing
    {
      gameState := Playing;
    }

    /** One animation frame of `gameLoop`: while playing, a spawn attempt, the physics step
        and the collision scan; in any other state nothing happens. The frame's score never
        falls and its lives never rise. */
    method Frame(timestamp: int, chance: real, wrongRoll: nat, id: string, y: int, px: int, py: int, d: MathDraw)
      requires Valid() && (gameMode == MathMode ==> EnoughDraws(d))
      modifies this`clouds, this`lastSpawn, this`player, this`score, this`lives, this`gameState
      modifies this`questions, this`currentQIndex
      ensures Valid()
      ensures old(gameState) != Playing ==>
                clouds == old(clouds) && lastSpawn == old(lastSpawn) && player == old(player)
                && score == old(score) && lives == old(lives) && gameState == old(gameState)
                && questions == old(questions) && currentQIndex == old(currentQIndex)
      ensures score >= old(score) && lives <= old(lives) && gameMode == old(gameMode)
      ensures gameState in {old(gameState), GameOver}
    {
      if gameState == Playing {
        SpawnCloud(timestamp, chance, wrongRoll, id, y);
        UpdatePhysics(px, py);
        CheckCollisions(d);
      }
    }
  }
}

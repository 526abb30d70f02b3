/** The image-reveal quiz play page: a 16 x 8 grid of tiles hides the picture, a
    reveal timer uncovers one random tile per tick, a countdown clock runs beside it,
    and the player buzzes in to pick an answer. Faster correct answers earn more
    points, shown as score particles on still-hidden tiles. */
module ImageQuizPlay {

  import opened Wrappers
  import opened Seqs

  const GridCols: nat := 16
  const GridRows: nat := 8
  const TotalBlocks: nat := GridCols * GridRows

  /** Points for a correct answer given after `seconds` seconds; every bound is inclusive. */
  function CalculatePoints(seconds: real): (p: nat)
    ensures 1 <= p <= 5 && p != 2
    ensures p == 5 <==> seconds <= 5.0
    ensures p >= 4 <==> seconds <= 10.0
    ensures p >= 3 <==> seconds <= 20.0
  {
    if seconds <= 5.0 then 5
    else if seconds <= 10.0 then 4
    else if seconds <= 20.0 then 3
    else 1
  }

  /** Points on whole milliseconds of elapsed time, the form the page's clock gives. */
  function PointsForMs(ms: int): (p: nat)
    ensures 1 <= p <= 5 && p != 2
    ensures p == 5 <==> ms <= 5000
    ensures p >= 4 <==> ms <= 10000
    ensures p >= 3 <==> ms <= 20000
  {
    if ms <= 5000 then 5
    else if ms <= 10000 then 4
    else if ms <= 20000 then 3
    else 1
  }

  /** The page divides the elapsed milliseconds by 1000 before looking up the points; on
      whole milliseconds that is the same table with every bound multiplied by 1000. */
  lemma PointsForMsMatchesSeconds(ms: int)
    ensures PointsForMs(ms) == CalculatePoints(ms as real / 1000.0)
  {
  }

  /** Answering later never earns more. */
  lemma PointsNeverIncrease(earlier: int, later: int)
    requires earlier <= later
    ensures PointsForMs(later) <= PointsForMs(earlier)
  {
  }

  /** Every tile index of the grid, in order. */
  function AllBlocks(): (r: seq<nat>)
    ensures |r| == TotalBlocks
    ensures forall i :: 0 <= i < |r| ==> r[i] == i
  {
    seq(TotalBlocks, i => i)
  }

  /** A list of hidden tiles: grid positions, each at most once. */
  predicate TilesWellFormed(h: seq<nat>) {
    (forall k :: 0 <= k < |h| ==> h[k] < TotalBlocks) && NoDuplicates(h)
  }

  /** The full grid holds each tile once and nothing outside the grid. */
  lemma AllBlocksWellFormed()
    ensures TilesWellFormed(AllBlocks())
  {
  }

  /** Uncovering one tile keeps the hidden list well formed. */
  lemma {:induction false} RemoveTileWellFormed(h: seq<nat>, i: nat)
    requires TilesWellFormed(h) && i < |h|
    ensures TilesWellFormed(RemoveAt(h, i))
  {
    var r := RemoveAt(h, i);
    NoDuplicatesOfSubMultiset(r, h);
    forall k | 0 <= k < |r| ensures r[k] < TotalBlocks {
      assert r[k] in multiset(h);
    }
  }

  /** `path.replace(/\\/g, "/")`: every backslash becomes a slash. */
  function ForwardSlashes(path: string): (r: string)
    ensures |r| == |path|
    ensures forall i :: 0 <= i < |r| ==> r[i] == if path[i] == '\\' then '/' else path[i]
  {
    if path == [] then [] else [if path[0] == '\\' then '/' else path[0]] + ForwardSlashes(path[1..])
  }

  /** The URL of an image: nothing for a missing or empty path, an absolute "http..." path
      as it is, anything else under the API base with backslashes turned into slashes. */
  function GetImageUrl(path: Option<string>, apiBase: string): (r: Option<string>)
    ensures r.None? <==> path.None? || path.value == []
    ensures r.Some? && "http" <= path.value ==> r == path
    ensures r.Some? && !("http" <= path.value) ==>
      |r.value| == |apiBase| + 1 + |path.value| && r.value[..|apiBase| + 1] == apiBase + "/"
      && forall i :: |apiBase| + 1 <= i < |r.value| ==> r.value[i] != '\\'
    ensures r.Some? && !("http" <= path.value) ==> r.value == apiBase + "/" + ForwardSlashes(path.value)
  {
    if path.None? || path.value == [] then None
    else if "http" <= path.value then path
    else Some(apiBase + "/" + ForwardSlashes(path.value))
  }

  /** The tiles of a list of particles. */
  function Blocks(ps: seq<Particle>): (r: seq<nat>)
    ensures |r| == |ps| && forall i :: 0 <= i < |ps| ==> r[i] == ps[i].blockIndex
  {
    seq(|ps|, i requires 0 <= i < |ps| => ps[i].blockIndex)
  }

  /** `time_limit_seconds || 30`: a missing or zero limit falls back to thirty seconds. */
  function TimeLimitOf(q: PlayQuiz): (t: int)
    ensures t == 30 || (q.timeLimitSeconds.Some? && t == q.timeLimitSeconds.value)
    ensures t != 0
    ensures q.timeLimitSeconds.None? ==> t == 30
    ensures q.timeLimitSeconds.Some? && q.timeLimitSeconds.value != 0 ==> t == q.timeLimitSeconds.value
  {
    match q.timeLimitSeconds
    case None => 30
    case Some(t) => if t == 0 then 30 else t
  }

  datatype Modal = Closed | PauseMenu | AnswerDialog
  datatype PlayQuestion = PlayQuestion(questionId: string, correctAnswerId: string)
  datatype PlayQuiz = PlayQuiz(questions: seq<PlayQuestion>, timeLimitSeconds: Option<int>)
  datatype AnswerRecord = AnswerRecord(questionId: string, selectedAnswerId: string, timeSpentMs: int)
  datatype Particle = Particle(blockIndex: nat, delay: nat)

  function Min(a: nat, b: nat): nat { if a <= b then a else b }

  /** Picks the score particles: up to `count` tiles drawn without repetition from `pool`,
      the `i`-th one appearing after `200 * i` ms. `roll(i) % n` stands for the random
      position among the `n` tiles still available at draw `i`. */
  method PickParticles(pool: seq<nat>, count: nat, roll: nat -> nat) returns (ps: seq<Particle>)
    ensures |ps| == Min(count, |pool|)
    ensures forall i :: 0 <= i < |ps| ==> ps[i].delay == 200 * i
    ensures multiset(Blocks(ps)) <= multiset(pool)
  {
    var available := pool;
    ps := [];
    var i := 0;
    while i < count
      invariant i <= count && |ps| == i
      invariant |available| == |pool| - i
      invariant forall k :: 0 <= k < |ps| ==> ps[k].delay == 200 * k
      invariant multiset(Blocks(ps)) + multiset(available) == multiset(pool)
    {
      if |available| == 0 {
        break;
      }
      var k := roll(i) % |available|;
      assert Blocks(ps + [Particle(available[k], 200 * i)]) == Blocks(ps) + [available[k]];
      ps := ps + [Particle(available[k], 200 * i)];
      available := RemoveAt(available, k);
      i := i + 1;
    }
  }

  /** Particles drawn from a list of distinct tiles sit on distinct tiles. */
  lemma ParticlesDistinct(ps: seq<Particle>, pool: seq<nat>)
    requires NoDuplicates(pool) && multiset(Blocks(ps)) <= multiset(pool)
    ensures NoDuplicates(Blocks(ps))
    ensures forall i :: 0 <= i < |ps| ==> ps[i].blockIndex in pool
  {
    NoDuplicatesOfSubMultiset(Blocks(ps), pool);
    forall i | 0 <= i < |ps| ensures ps[i].blockIndex in pool {
      assert Blocks(ps)[i] in multiset(Blocks(ps));
    }
  }

  /** What a correct answer earns: the tier points; a wrong answer earns nothing. */
  function Award(q: PlayQuestion, selectedId: string, ms: int): (p: nat)
    ensures selectedId == q.correctAnswerId <==> p > 0
    ensures p <= 5
  {
    if selectedId == q.correctAnswerId then PointsForMs(ms) else 0
  }

  /** `ps` are the particles for `count` points drawn from `pool`: as many as the points
      allow and the pool holds, on distinct tiles of the pool, 200 ms apart. */
  predicate ParticlesFrom(ps: seq<Particle>, pool: seq<nat>, count: nat) {
    && |ps| == Min(count, |pool|)
    && NoDuplicates(Blocks(ps))
    && (forall i :: 0 <= i < |ps| ==> ps[i].blockIndex in pool)
    && (forall i :: 0 <= i < |ps| ==> ps[i].delay == 200 * i)
  }

  /** The state of the play page. Timers are flags saying whether they are armed; their
      firings are the methods `CountdownTick`, `RevealTick`, `TimeTick`, `AdvanceAfterFeedback`
      and `ClearParticles`, and React effects are the methods ending in `Effect`. */
  class RoundController {
    var quiz: Option<PlayQuiz>
    var loading: bool
    var error: Option<string>
    var currentIndex: nat
    var isPlaying: bool
    var isPaused: bool
    var modal: Modal
    var isTimeUp: bool
    var hidden: seq<nat>
    var timeLeft: int
    var timeLimit: int
    var countdown: Option<int>
    var score: int
    var particles: seq<Particle>
    var answers: seq<AnswerRecord>
    var finished: bool
    var totalScore: Option<int>
    var roundStart: int
    var revealTimerOn: bool
    var advancePending: bool
    var advanceDelayMs: nat
    var particleClearPending: bool
    var particleClearDelayMs: nat
    var submitting: bool

    /** The hidden tiles are grid positions, each listed once. */
    predicate GridValid()
      reads this`hidden
    {
      TilesWellFormed(hidden)
    }

    /** Playing and paused exclude each other; the reveal timer runs only while playing; a
        time-up shows the answer dialog; a countdown runs from 3 to 1 while nothing plays. */
    predicate PlayValid()
      reads this`isPlaying, this`isPaused, this`revealTimerOn, this`isTimeUp, this`modal
      reads this`countdown, this`timeLeft, this`timeLimit
    {
      && !(isPlaying && isPaused)
      && (revealTimerOn ==> isPlaying)
      && (isTimeUp ==> isPaused && modal == AnswerDialog)
      && (countdown.Some? ==> !isPlaying && !isPaused && 1 <= countdown.value <= 3)
      && (0 <= timeLeft || timeLeft == timeLimit)
    }

    predicate Valid()
      reads this
    {
      && GridValid()
      && PlayValid()
      && (quiz.None? ==> currentIndex == 0 && countdown.None? && !isPlaying && !isPaused && !advancePending)
      && (quiz.Some? && |quiz.value.questions| > 0 ==> currentIndex < |quiz.value.questions|)
      && (advancePending ==> !isPlaying && !isPaused && countdown.None? && hidden == [] && !finished
                             && quiz.Some? && currentIndex < |quiz.value.questions|)
      && (finished ==> !isPlaying && !isPaused && countdown.None? && !advancePending)
      && (submitting ==> finished && totalScore.None?)
      && (totalScore.Some? ==> finished)
    }

    /** Before the quiz arrives: question 0, thirty seconds, no tiles, nothing armed. */
    constructor ()
      ensures Valid()
      ensures quiz.None? && currentIndex == 0 && score == 0 && answers == [] && hidden == []
      ensures timeLeft == 30 && timeLimit == 30 && countdown.None? && !finished
    {
      quiz := None;
      loading := false;
      error := None;
      currentIndex := 0;
      isPlaying := false;
      isPaused := false;
      modal := Closed;
      isTimeUp := false;
      hidden := [];
      timeLeft := 30;
      timeLimit := 30;
      countdown := None;
      score := 0;
      particles := [];
      answers := [];
      finished := false;
      totalScore := None;
      roundStart := 0;
      revealTimerOn := false;
      advancePending := false;
      advanceDelayMs := 0;
      particleClearPending := false;
      particleClearDelayMs := 0;
      submitting := false;
    }

    /** The load effect: while fetching only `loading` is set; a non-empty fetch error is
        recorded; otherwise fetched data becomes the quiz, with its time limit (thirty when
        missing or zero) on the clock and every tile hidden. */
    method LoadEffect(fetching: bool, fetchError: Option<string>, data: Option<PlayQuiz>)
      requires Valid() && quiz.None?
      modifies this
      ensures Valid()
      ensures loading == fetching
      ensures error == if !fetching && fetchError.Some? && fetchError.value != [] then fetchError else old(error)
      ensures if !fetching && (fetchError.None? || fetchError.value == []) && data.Some? then
                quiz == data && timeLimit == TimeLimitOf(data.value) && timeLeft == timeLimit
                && hidden == AllBlocks()
              else
                quiz == old(quiz) && timeLimit == old(timeLimit) && timeLeft == old(timeLeft)
                && hidden == old(hidden)
      ensures currentIndex == old(currentIndex) && score == old(score) && answers == old(answers)
      ensures isPlaying == old(isPlaying) && isPaused == old(isPaused) && countdown == old(countdown)
    {
      if fetching {
        loading := true;
        return;
      }
      loading := false;
      if fetchError.Some? && fetchError.value != [] {
        error := fetchError;
        return;
      }
      if data.Some? {
        quiz := data;
        timeLimit := TimeLimitOf(data.value);
        timeLeft := timeLimit;
        hidden := AllBlocks();
        AllBlocksWellFormed();
      }
    }

    /** `resetGrid`: every tile hidden again, no particles, nothing playing, paused or shown,
        the reveal timer cleared and the clock back at the time limit. */
    method ResetGrid()
      requires Valid() && !advancePending
      modifies this`hidden, this`particles, this`isPlaying, this`isPaused, this`modal, this`isTimeUp
      modifies this`revealTimerOn, this`timeLeft
      ensures Valid()
      ensures hidden == AllBlocks() && particles == []
      ensures !isPlaying && !isPaused && modal == Closed && !isTimeUp && !revealTimerOn
      ensures timeLeft == timeLimit
    {
      hidden := AllBlocks();
      AllBlocksWellFormed();
      particles := [];
      isPlaying := false;
      isPaused := false;
      modal := Closed;
      isTimeUp := false;
      revealTimerOn := false;
      timeLeft := timeLimit;
    }

    /** `initiateRoundStart`, reached from the START ROUND button (shown only while nothing
        plays and nothing is paused) and after a round: a loaded, unfinished quiz starts a
        three-second countdown; otherwise nothing happens. */
    method InitiateRoundStart()
      requires Valid() && !isPlaying && !isPaused && !advancePending
      modifies this`countdown
      ensures Valid()
      ensures countdown == if quiz.Some? && !finished then Some(3) else old(countdown)
    {
      if quiz.None? || finished {
        return;
      }
      countdown := Some(3);
    }

    /** `startActualGame`: playing, unpaused, no dialog, the clock at the time limit, the round
        start stamped `now` and the reveal timer armed. */
    method StartActualGame(now: int)
      requires Valid() && quiz.Some? && countdown.None? && !advancePending && !finished
      modifies this`isPlaying, this`isPaused, this`modal, this`isTimeUp, this`timeLeft
      modifies this`roundStart, this`revealTimerOn
      ensures Valid()
      ensures isPlaying && !isPaused && modal == Closed && !isTimeUp && revealTimerOn
      ensures timeLeft == timeLimit && roundStart == now
    {
      isPlaying := true;
      isPaused := false;
      modal := Closed;
      isTimeUp := false;
      timeLeft := timeLimit;
      roundStart := now;
      revealTimerOn := true;
    }

    /** The countdown's one-second timeout (armed while the countdown is positive), followed
        by the countdown effect: the count drops by one, and when it reaches zero the
        countdown disappears and the round starts at time `now`. */
    method CountdownTick(now: int)
      requires Valid() && countdown.Some? && countdown.value > 0
      modifies this
      ensures Valid()
      ensures old(countdown.value) > 1 ==>
        countdown == Some(old(countdown.value) - 1) && isPlaying == old(isPlaying) && revealTimerOn == old(revealTimerOn)
      ensures old(countdown.value) == 1 ==>
        countdown.None? && isPlaying && !isPaused && revealTimerOn && timeLeft == timeLimit && roundStart == now
      ensures hidden == old(hidden) && quiz == old(quiz) && currentIndex == old(currentIndex)
      ensures score == old(score) && answers == old(answers)
    {
      countdown := Some(countdown.value - 1);
      if countdown.value == 0 {
        countdown := None;
        StartActualGame(now);
      }
    }

    /** One firing of the reveal interval: an empty grid stops the timer; otherwise the tile
        at position `roll % |hidden|` is uncovered and the others keep their order. */
    method RevealTick(roll: nat)
      requires Valid() && revealTimerOn
      modifies this`hidden, this`revealTimerOn
      ensures Valid()
      ensures old(hidden) == [] ==> hidden == [] && !revealTimerOn
      ensures old(hidden) != [] ==> hidden == RemoveAt(old(hidden), roll % |old(hidden)|) && revealTimerOn
    {
      if hidden == [] {
        revealTimerOn := false;
      } else {
        RemoveTileWellFormed(hidden, roll % |hidden|);
        hidden := RemoveAt(hidden, roll % |hidden|);
      }
    }

    /** One firing of the clock interval, armed while playing, not paused and with time
        left: the clock shows `max(0, timeLeft - 1)`. */
    method TimeTick()
      requires Valid() && isPlaying && !isPaused && timeLeft > 0
      modifies this`timeLeft
      ensures Valid()
      ensures timeLeft == old(timeLeft) - 1 && timeLeft >= 0
    {
      timeLeft := if timeLeft - 1 < 0 then 0 else timeLeft - 1;
    }

    /** `handleTimeUp`: out of time, the timers stop and the answer dialog opens, paused. */
    method HandleTimeUp()
      requires Valid() && isPlaying
      modifies this
      ensures Valid()
      ensures isTimeUp && !isPlaying && isPaused && modal == AnswerDialog && !revealTimerOn
      ensures hidden == old(hidden) && timeLeft == old(timeLeft) && score == old(score)
      ensures answers == old(answers) && currentIndex == old(currentIndex) && quiz == old(quiz)
    {
      isTimeUp := true;
      revealTimerOn := false;
      isPlaying := false;
      isPaused := true;
      modal := AnswerDialog;
    }

    /** The time-up effect: once the clock shows zero or less during play, time is up. */
    method TimeUpEffect()
      requires Valid()
      modifies this
      ensures Valid()
      ensures old(timeLeft <= 0 && isPlaying && !isPaused) ==>
        isTimeUp && !isPlaying && isPaused && modal == AnswerDialog && !revealTimerOn
      ensures !old(timeLeft <= 0 && isPlaying && !isPaused) ==>
        isTimeUp == old(isTimeUp) && isPlaying == old(isPlaying) && isPaused == old(isPaused) && modal == old(modal)
      ensures hidden == old(hidden) && timeLeft == old(timeLeft) && score == old(score)
      ensures answers == old(answers) && currentIndex == old(currentIndex)
    {
      if timeLeft <= 0 && isPlaying && !isPaused {
        HandleTimeUp();
      }
    }

    /** The pause button during play: timers stop and the pause menu opens. */
    method OpenPauseMenu()
      requires Valid() && isPlaying && !isPaused
      modifies this
      ensures Valid()
      ensures !isPlaying && isPaused && modal == PauseMenu && !revealTimerOn && !isTimeUp
      ensures hidden == old(hidden) && timeLeft == old(timeLeft) && score == old(score)
      ensures answers == old(answers) && currentIndex == old(currentIndex) && quiz == old(quiz)
    {
      revealTimerOn := false;
      isPlaying := false;
      isPaused := true;
      modal := PauseMenu;
    }

    /** The buzzer during play: timers stop and the answer dialog opens. */
    method OpenAnswerModal()
      requires Valid() && isPlaying && !isPaused
      modifies this
      ensures Valid()
      ensures !isPlaying && isPaused && modal == AnswerDialog && !revealTimerOn && !isTimeUp
      ensures hidden == old(hidden) && timeLeft == old(timeLeft) && score == old(score)
      ensures answers == old(answers) && currentIndex == old(currentIndex) && quiz == old(quiz)
    {
      revealTimerOn := false;
      isPlaying := false;
      isPaused := true;
      modal := AnswerDialog;
    }

    /** `handleResumeGame`, reachable only while paused: nothing at all once time is up;
        otherwise the dialog closes and, for an unfinished loaded quiz with time left, play
        and the reveal timer resume. */
    method ResumeGame()
      requires Valid() && isPaused
      modifies this
      ensures Valid()
      ensures old(isTimeUp) ==> isPaused && modal == old(modal) && !isPlaying && revealTimerOn == old(revealTimerOn)
      ensures !old(isTimeUp) ==>
                !isPaused && modal == Closed && isPlaying == revealTimerOn
                && (isPlaying <==> !old(finished) && old(quiz).Some? && old(timeLeft) > 0)
      ensures isTimeUp == old(isTimeUp)
      ensures hidden == old(hidden) && timeLeft == old(timeLeft) && score == old(score)
      ensures answers == old(answers) && currentIndex == old(currentIndex) && quiz == old(quiz)
    {
      if isTimeUp {
        return;
      }
      isPaused := false;
      modal := Closed;
      if !finished && quiz.Some? && timeLeft > 0 {
        isPlaying := true;
        revealTimerOn := true;
      }
    }

    /** A click on answer `selectedId` in the answer dialog at time `now`: timers stop, the
        grid is uncovered, the tier points are added when the answer is correct, particles
        are drawn from the tiles that were still hidden, one record joins the answer log,
        and the feedback timeout (2500 ms after a correct answer, 1500 ms otherwise) is armed. */
    method AnswerSelect(selectedId: string, now: int, roll: nat -> nat)
      requires Valid() && isPaused && modal == AnswerDialog
      requires quiz.Some? && currentIndex < |quiz.value.questions|
      modifies this`revealTimerOn, this`isPlaying, this`isPaused, this`modal, this`isTimeUp, this`hidden
      modifies this`score, this`answers, this`advancePending, this`advanceDelayMs
      modifies this`particles, this`particleClearPending, this`particleClearDelayMs
      ensures Valid()
      ensures !isPlaying && !isPaused && modal == Closed && !isTimeUp && !revealTimerOn && hidden == []
      ensures score == old(score) + Award(quiz.value.questions[currentIndex], selectedId, now - roundStart)
      ensures answers == old(answers) + [AnswerRecord(quiz.value.questions[currentIndex].questionId, selectedId, now - roundStart)]
      ensures advancePending
      ensures if selectedId == quiz.value.questions[currentIndex].correctAnswerId then
                advanceDelayMs == 2500 && ParticlesFrom(particles, old(hidden), PointsForMs(now - roundStart))
                && particleClearPending && particleClearDelayMs == (PointsForMs(now - roundStart) - 1) * 200 + 1400
              else
                advanceDelayMs == 1500 && particles == old(particles)
    {
      var q := quiz.value.questions[currentIndex];
      var spent := now - roundStart;
      var correct := selectedId == q.correctAnswerId;
      var points := Award(q, selectedId, spent);
      if correct {
        ShowParticles(hidden, points, roll);
      }
      StopForAnswer();
      RecordAnswer(points, AnswerRecord(q.questionId, selectedId, spent), if correct then 2500 else 1500);
    }

    /** The second half of an answer: the points join the score, the record joins the log
        and the feedback timeout is armed. */
    method RecordAnswer(points: nat, record: AnswerRecord, delayMs: nat)
      requires Valid() && !isPlaying && !isPaused && hidden == [] && countdown.None? && !finished
      requires quiz.Some? && currentIndex < |quiz.value.questions|
      modifies this`score, this`answers, this`advancePending, this`advanceDelayMs
      ensures Valid()
      ensures score == old(score) + points && answers == old(answers) + [record]
      ensures advancePending && advanceDelayMs == delayMs
    {
      score := score + points;
      answers := answers + [record];
      advancePending := true;
      advanceDelayMs := delayMs;
    }

    /** The first half of an answer: timers stop, nothing plays or is paused, no dialog, and
        the whole picture shows. */
    method StopForAnswer()
      requires Valid() && isPaused && !advancePending
      modifies this`revealTimerOn, this`isPlaying, this`isPaused, this`modal, this`isTimeUp, this`hidden
      ensures Valid()
      ensures !isPlaying && !isPaused && modal == Closed && !isTimeUp && !revealTimerOn && hidden == []
      ensures countdown.None? && !finished
    {
      revealTimerOn, isPlaying, isPaused, modal, isTimeUp, hidden := false, false, false, Closed, false, [];
    }

    /** Shows the particles for `points` points drawn from `pool` and arms their removal. */
    method ShowParticles(pool: seq<nat>, points: nat, roll: nat -> nat)
      requires NoDuplicates(pool) && points > 0
      modifies this`particles, this`particleClearPending, this`particleClearDelayMs
      ensures ParticlesFrom(particles, pool, points)
      ensures particleClearPending && particleClearDelayMs == (points - 1) * 200 + 1400
    {
      var ps := PickParticles(pool, points, roll);
      ParticlesDistinct(ps, pool);
      particles := ps;
      particleClearPending := true;
      particleClearDelayMs := (points - 1) * 200 + 1400;
    }

    /** The particle timeout: the particles disappear. */
    method ClearParticles()
      requires Valid() && particleClearPending
      modifies this
      ensures Valid()
      ensures particles == [] && !particleClearPending
      ensures hidden == old(hidden) && score == old(score) && answers == old(answers)
      ensures isPlaying == old(isPlaying) && isPaused == old(isPaused) && advancePending == old(advancePending)
    {
      particles := [];
      particleClearPending := false;
    }

    /** The feedback timeout: after any question but the last, the next question's grid is
        reset and its countdown starts; after the last, the game is finished and the answer
        log is submitted. */
    method AdvanceAfterFeedback()
      requires Valid() && advancePending
      modifies this
      ensures Valid()
      ensures !advancePending
      ensures var last := old(currentIndex) == |old(quiz).value.questions| - 1;
              && (!last ==> currentIndex == old(currentIndex) + 1 && hidden == AllBlocks()
                            && countdown == Some(3) && timeLeft == timeLimit && !finished
                            && !isPlaying && !isPaused && modal == Closed && particles == [])
              && (last ==> currentIndex == old(currentIndex) && finished && submitting && hidden == old(hidden))
      ensures score == old(score) && answers == old(answers) && quiz == old(quiz)
    {
      advancePending := false;
      if currentIndex != |quiz.value.questions| - 1 {
        currentIndex := currentIndex + 1;
        ResetGrid();
        InitiateRoundStart();
      } else {
        finished := true;
        loading := true;
        revealTimerOn := false;
        submitting := true;
      }
    }

    /** The answer check's reply: a total score replaces the local score and shows the result
        screen; a failure records an error message. */
    method ReceiveResult(reply: Option<int>)
      requires Valid() && submitting
      modifies this
      ensures Valid()
      ensures !submitting && !loading && finished
      ensures reply.Some? ==> totalScore == reply && score == reply.value && error == old(error)
      ensures reply.None? ==> totalScore.None? && score == old(score) && error == Some("Failed to submit results.")
      ensures answers == old(answers) && currentIndex == old(currentIndex) && hidden == old(hidden)
    {
      submitting := false;
      loading := false;
      match reply {
        case Some(total) =>
          totalScore := Some(total);
          score := total;
        case None =>
          error := Some("Failed to submit results.");
      }
    }

    /** "Play Again" on the result screen and "Restart Round" in the pause menu: back to the
        first question with a zero score, an empty answer log and a fresh grid. */
    method PlayAgain()
      requires Valid()
      requires (finished && totalScore.Some?) || (isPaused && modal == PauseMenu)
      modifies this
      ensures Valid()
      ensures !finished && totalScore.None? && score == 0 && currentIndex == 0 && answers == []
      ensures hidden == AllBlocks() && !isPlaying && !isPaused && modal == Closed && timeLeft == timeLimit
      ensures quiz == old(quiz)
    {
      finished := false;
      totalScore := None;
      score := 0;
      currentIndex := 0;
      answers := [];
      ResetGrid();
    }
  }
}

/** The three-level whack-a-mole board. Level 1 ("data breach") has a bonus spell in which
    only enemies and golden moles appear; level 2 ("phishing attack") adds phishing robots
    that cost points; level 3 ("boss raid") has a boss that takes five hits. Reaching 30
    and then 70 points moves up a level after a three-second transition, and 120 points at
    level 3 wins the game. */
module WhackLevel {

  import opened Wrappers

  datatype MoleType = Enemy | Trap | Golden | Phishing | Boss

  /** `LEVEL_REQUIREMENTS`: the score that completes each level. */
  function Requirement(level: int): (points: int)
    requires 1 <= level <= 3
    ensures points in {30, 70, 120}
  {
    if level == 1 then 30 else if level == 2 then 70 else 120
  }

  /** Each level asks for more points than the one before. */
  lemma RequirementsIncrease(a: int, b: int)
    requires 1 <= a < b <= 3
    ensures Requirement(a) < Requirement(b)
  {
  }

  /** How long a mole stays up at a level: 1100, 900 or 700 ms less 10 ms per point,
      never under 400 ms at level 3 or 500 ms before it. */
  function Speed(level: int, score: int): (ms: int)
    requires 1 <= level <= 3
    ensures ms >= SpeedFloor(level) && ms >= BaseSpeed(level) - 10 * score
    ensures ms == SpeedFloor(level) || ms == BaseSpeed(level) - 10 * score
    ensures score >= 0 ==> ms <= BaseSpeed(level)
  {
    if BaseSpeed(level) - score * 10 > SpeedFloor(level) then BaseSpeed(level) - score * 10 else SpeedFloor(level)
  }

  /** The speed a level starts at. */
  function BaseSpeed(level: int): int {
    if level == 1 then 1100 else if level == 2 then 900 else 700
  }

  /** The fastest a level gets. */
  function SpeedFloor(level: int): int {
    if level == 3 then 400 else 500
  }

  /** Moles never slow down as the score grows, and never slow down from one level to
      the next at the same score. */
  lemma SpeedMonotone(level: int, lower: int, higher: int)
    requires 1 <= level <= 3 && lower <= higher
    ensures Speed(level, higher) <= Speed(level, lower)
    ensures level < 3 ==> Speed(level + 1, lower) <= Speed(level, lower)
  {
  }

  /** Hits score double from the fifth consecutive hit on ("rampage"). */
  function Multiplier(combo: nat): nat {
    if combo >= 5 then 2 else 1
  }

  /** The type of the next mole, from a random `chance` in [0, 1). */
  function MoleTypeFor(level: int, bossHealth: int, bonusActive: bool, chance: real): (t: MoleType)
    ensures t == Boss <==> level == 3 && bossHealth > 0
    ensures t != Boss && bonusActive ==> t == Enemy || t == Golden
    ensures t == Phishing ==> level == 2 && !bonusActive
    ensures t == Golden ==> chance > 0.7
  {
    if level == 3 && bossHealth > 0 then Boss
    else if bonusActive then (if chance > 0.7 then Golden else Enemy)
    else if level == 2 then
      (if chance > 0.9 then Golden else if chance > 0.75 then Trap else if chance > 0.5 then Phishing else Enemy)
    else
      (if chance > 0.9 then Golden else if chance > 0.7 then Trap else Enemy)
  }

  /** Outside bonus and boss play, level 2 shows a phishing robot for a quarter of the
      chances, (0.5, 0.75]. */
  lemma PhishingShare(bossHealth: int, chance: real)
    ensures MoleTypeFor(2, bossHealth, false, chance) == Phishing <==> 0.5 < chance <= 0.75
  {
  }

  class Board {
    var score: int
    var timeLeft: int
    var isPlaying: bool
    var isPaused: bool
    var activeIndex: Option<nat>
    var activeType: MoleType
    var gameSpeed: int
    var combo: nat
    var currentLevel: int
    var levelComplete: bool
    var gameComplete: bool
    var bonusActive: bool
    var bossHealth: int
    var showLevelTransition: bool
    var isHit: bool
    /** The level the pending three-second transition timeout will switch to. */
    var pendingLevel: Option<int>
    /** Whether the five-second timeout that ends the bonus is still pending. */
    var bonusTimerArmed: bool
    var exited: bool

    /** The score and the clock stay non-negative, the mole is in one of nine holes, the
        level is 1, 2 or 3, the speed stays between 400 and 1100 ms, and the transition
        screen shows exactly while a level is complete. */
    predicate Valid()
      reads this
    {
      && score >= 0 && timeLeft >= 0
      && (activeIndex.Some? ==> activeIndex.value < 9)
      && 1 <= currentLevel <= 3
      && 400 <= gameSpeed <= 1100
      && levelComplete == showLevelTransition
      && (pendingLevel.Some? ==> 2 <= pendingLevel.value <= 3)
    }

    constructor ()
      ensures Valid()
      ensures score == 0 && timeLeft == 30 && !isPlaying && !isPaused && activeIndex.None?
      ensures currentLevel == 1 && !levelComplete && !gameComplete && !bonusActive && bossHealth == 0
      ensures gameSpeed == 1100 && combo == 0 && pendingLevel.None? && !bonusTimerArmed
    {
      score := 0;
      timeLeft := 30;
      isPlaying := false;
      isPaused := false;
      activeIndex := None;
      activeType := Enemy;
      gameSpeed := 1100;
      combo := 0;
      currentLevel := 1;
      levelComplete := false;
      gameComplete := false;
      bonusActive := false;
      bossHealth := 0;
      showLevelTransition := false;
      isHit := false;
      pendingLevel := None;
      bonusTimerArmed := false;
      exited := false;
    }

    /** `startGame`: level 1 from scratch, thirty seconds, no bonus, no boss, no transition. */
    method StartGame()
      requires Valid()
      modifies this
      ensures Valid()
      ensures score == 0 && timeLeft == 30 && isPlaying && !isPaused && gameSpeed == 1100
      ensures activeIndex.None? && combo == 0 && currentLevel == 1 && !levelComplete && !gameComplete
      ensures !bonusActive && bossHealth == 0 && !showLevelTransition && !isHit
      ensures activeType == old(activeType) && pendingLevel == old(pendingLevel)
      ensures bonusTimerArmed == old(bonusTimerArmed) && exited == old(exited)
    {
      ResetRound();
      ResetLevels();
    }

    /** The first half of `startGame`: score, clock, speed, mole and combo. */
    method ResetRound()
      requires Valid()
      modifies this`score, this`timeLeft, this`isPlaying, this`isPaused, this`gameSpeed
      modifies this`activeIndex, this`combo, this`isHit
      ensures Valid()
      ensures score == 0 && timeLeft == 30 && isPlaying && !isPaused && gameSpeed == 1100
      ensures activeIndex.None? && combo == 0 && !isHit
    {
      score, timeLeft, isPlaying, isPaused := 0, 30, true, false;
      gameSpeed, activeIndex, combo, isHit := 1100, None, 0, false;
    }

    /** The second half of `startGame`: level 1, nothing complete, no bonus, no boss. */
    method ResetLevels()
      requires Valid()
      modifies this`currentLevel, this`levelComplete, this`gameComplete, this`bonusActive
      modifies this`bossHealth, this`showLevelTransition
      ensures Valid()
      ensures currentLevel == 1 && !levelComplete && !gameComplete
      ensures !bonusActive && bossHealth == 0 && !showLevelTransition
    {
      currentLevel, levelComplete, gameComplete := 1, false, false;
      bonusActive, bossHealth, showLevelTransition := false, 0, false;
    }

    /** `togglePause` flips the paused flag and nothing else. */
    method TogglePause()
      requires Valid()
      modifies this`isPaused
      ensures Valid()
      ensures isPaused == !old(isPaused)
    {
      isPaused := !isPaused;
    }

    /** `handleExitGame`: play stops, the pause clears and the board is left. */
    method ExitGame()
      requires Valid()
      modifies this`isPlaying, this`isPaused, this`exited
      ensures Valid()
      ensures !isPlaying && !isPaused && exited
    {
      isPlaying := false;
      isPaused := false;
      exited := true;
    }

    /** The level-completion effect, for a running, unwon game: 30 points at level 1 or 70
        at level 2 complete the level, show the transition and arm the three-second timeout
        to the next level; 120 points at level 3 win the game and stop play. */
    method LevelEffect()
      requires Valid()
      modifies this`levelComplete, this`showLevelTransition, this`pendingLevel
      modifies this`gameComplete, this`isPlaying
      ensures Valid()
      ensures var running := old(isPlaying) && !old(gameComplete);
              var up := running && currentLevel < 3 && score >= Requirement(currentLevel) && !old(levelComplete);
              var won := running && currentLevel == 3 && score >= 120;
              && (up ==> levelComplete && showLevelTransition && pendingLevel == Some(currentLevel + 1)
                         && isPlaying && !gameComplete)
              && (won ==> gameComplete && !isPlaying && levelComplete == old(levelComplete)
                          && pendingLevel == old(pendingLevel))
              && (!up && !won ==> levelComplete == old(levelComplete) && pendingLevel == old(pendingLevel)
                                  && gameComplete == old(gameComplete) && isPlaying == old(isPlaying))
    {
      if !isPlaying || gameComplete {
        return;
      }
      if currentLevel == 1 && score >= 30 && !levelComplete {
        levelComplete := true;
        showLevelTransition := true;
        pendingLevel := Some(2);
      } else if currentLevel == 2 && score >= 70 && !levelComplete {
        levelComplete := true;
        showLevelTransition := true;
        pendingLevel := Some(3);
      } else if currentLevel == 3 && score >= 120 {
        gameComplete := true;
        isPlaying := false;
      }
    }

    /** The transition timeout: the next level starts with thirty seconds on the clock. */
    method LevelTimeout()
      requires Valid() && pendingLevel.Some?
      modifies this`currentLevel, this`levelComplete, this`timeLeft, this`showLevelTransition, this`pendingLevel
      ensures Valid()
      ensures currentLevel == old(pendingLevel.value) && !levelComplete && !showLevelTransition
      ensures timeLeft == 30 && pendingLevel.None?
    {
      currentLevel := pendingLevel.value;
      levelComplete := false;
      timeLeft := 30;
      showLevelTransition := false;
      pendingLevel := None;
    }

    /** When the level-1 bonus is due: running unpaused at level 1 with exactly fifteen
        seconds left and no bonus yet. */
    predicate BonusDue()
      reads this
    {
      currentLevel == 1 && isPlaying && !isPaused && timeLeft == 15 && !bonusActive
    }

    /** The bonus effect as the page intends it: when due, the bonus starts and a
        five-second timeout that ends it stays pending until it fires. */
    method BonusEffect()
      requires Valid()
      modifies this`bonusActive, this`bonusTimerArmed
      ensures Valid()
      ensures old(BonusDue()) ==> bonusActive && bonusTimerArmed
      ensures !old(BonusDue()) ==> bonusActive == old(bonusActive) && bonusTimerArmed == old(bonusTimerArmed)
    {
      if BonusDue() {
        bonusActive := true;
        bonusTimerArmed := true;
      }
    }

    /** The bonus effect as written: every run first clears the pending bonus timeout, and
        setting `bonusActive` makes React run the effect again at once, so the timeout armed
        a moment before is cleared and the bonus has nothing left that can end it. */
    method BonusEffectAsWritten()
      requires Valid()
      modifies this`bonusActive, this`bonusTimerArmed
      ensures Valid()
      ensures old(BonusDue()) ==> bonusActive && !bonusTimerArmed
      ensures !old(BonusDue()) ==> bonusActive == old(bonusActive) && !bonusTimerArmed
    {
      bonusTimerArmed := false;
      if BonusDue() {
        bonusActive := true;
        bonusTimerArmed := true;
        // `bonusActive` is a dependency of the effect: the cleanup runs, then the effect,
        // whose condition no longer holds.
        bonusTimerArmed := false;
      }
    }

    /** The bonus timeout: the bonus ends. */
    method BonusTimeout()
      requires Valid() && bonusTimerArmed
      modifies this`bonusActive, this`bonusTimerArmed
      ensures Valid()
      ensures !bonusActive && !bonusTimerArmed
    {
      bonusActive := false;
      bonusTimerArmed := false;
    }

    /** The boss effect: at level 3, running unpaused, a boss with no health left spawns
        again with five. */
    method BossEffect()
      requires Valid()
      modifies this`bossHealth
      ensures Valid()
      ensures bossHealth == if currentLevel == 3 && isPlaying && !isPaused && old(bossHealth) == 0 then 5 else old(bossHealth)
    {
      if currentLevel == 3 && isPlaying && !isPaused && bossHealth == 0 {
        bossHealth := 5;
      }
    }

    /** One firing of the countdown interval, armed while running unpaused with time left and
        no transition on screen. */
    method CountdownTick()
      requires Valid() && isPlaying && !isPaused && timeLeft > 0 && !showLevelTransition
      modifies this`timeLeft
      ensures Valid()
      ensures timeLeft == old(timeLeft) - 1
    {
      timeLeft := timeLeft - 1;
    }

    /** The countdown effect's other branch: at zero seconds an unwon game stops and its mole
        goes away. */
    method CountdownEndEffect()
      requires Valid()
      modifies this`isPlaying, this`activeIndex
      ensures Valid()
      ensures old(isPlaying) && timeLeft == 0 && !gameComplete ==> !isPlaying && activeIndex.None?
      ensures !(old(isPlaying) && timeLeft == 0 && !gameComplete) ==>
                isPlaying == old(isPlaying) && activeIndex == old(activeIndex)
    {
      if isPlaying && timeLeft == 0 && !gameComplete {
        isPlaying := false;
        activeIndex := None;
      }
    }

    /** The movement effect's speed update while the game runs outside a transition. */
    method SpeedEffect()
      requires Valid()
      modifies this`gameSpeed
      ensures Valid()
      ensures gameSpeed == if isPlaying && !isPaused && !showLevelTransition then Speed(currentLevel, score) else old(gameSpeed)
    {
      if isPlaying && !isPaused && !showLevelTransition {
        gameSpeed := Speed(currentLevel, score);
      }
    }

    /** One firing of the movement interval, armed while running unpaused outside a
        transition: a previous mole that was neither a trap nor the boss and was never hit
        breaks the combo; the next mole appears in hole `holeRoll % 9`. */
    method MoleMove(holeRoll: nat, chance: real)
      requires Valid() && isPlaying && !isPaused && !showLevelTransition
      modifies this`combo, this`isHit, this`activeIndex, this`activeType
      ensures Valid()
      ensures combo == if !old(isHit) && old(activeIndex).Some? && old(activeType) != Trap && old(activeType) != Boss
                       then 0 else old(combo)
      ensures !isHit && activeIndex == Some(holeRoll % 9)
      ensures activeType == MoleTypeFor(currentLevel, bossHealth, bonusActive, chance)
    {
      if !isHit && activeIndex.Some? && activeType != Trap && activeType != Boss {
        combo := 0;
      }
      isHit := false;
      activeIndex := Some(holeRoll % 9);
      activeType := MoleTypeFor(currentLevel, bossHealth, bonusActive, chance);
    }

    /** `handleWhack(index)`: nothing happens unless the game runs unpaused and `index` is the
        active hole. A boss hit takes one health and extends the combo; the hit that takes the
        last health gives 10 points (doubled on a rampage) and 10 seconds. Golden and enemy
        hits score as on the simple board; a phishing robot costs 5 points and a trap 3, never
        below zero, and both break the combo. */
    method Whack(index: nat)
      requires Valid()
      modifies this`score, this`timeLeft, this`combo, this`isHit, this`bossHealth
      ensures Valid()
      ensures !(old(isPlaying) && !old(isPaused) && old(activeIndex) == Some(index)) ==>
                score == old(score) && timeLeft == old(timeLeft) && combo == old(combo)
                && isHit == old(isHit) && bossHealth == old(bossHealth)
      ensures old(isPlaying) && !old(isPaused) && old(activeIndex) == Some(index) ==>
                isHit
                && bossHealth == (if activeType == Boss then old(bossHealth) - 1 else old(bossHealth))
                && (activeType == Boss ==>
                      combo == old(combo) + 1
                      && score == old(score) + (if bossHealth == 0 then 10 * Multiplier(old(combo)) else 0)
                      && timeLeft == old(timeLeft) + (if bossHealth == 0 then 10 else 0))
                && (activeType == Golden ==>
                      score == old(score) + 5 * Multiplier(old(combo)) && timeLeft == old(timeLeft) + 5
                      && combo == old(combo) + 1)
                && (activeType == Enemy ==>
                      score == old(score) + Multiplier(old(combo)) && timeLeft == old(timeLeft)
                      && combo == old(combo) + 1)
                && (activeType == Phishing ==>
                      score == (if old(score) - 5 > 0 then old(score) - 5 else 0) && timeLeft == old(timeLeft)
                      && combo == 0)
                && (activeType == Trap ==>
                      score == (if old(score) - 3 > 0 then old(score) - 3 else 0) && timeLeft == old(timeLeft)
                      && combo == 0)
    {
      if !isPlaying || isPaused || activeIndex != Some(index) {
        return;
      }
      isHit := true;
      var multiplier := Multiplier(combo);
      match activeType {
        case Boss =>
          bossHealth := bossHealth - 1;
          if bossHealth == 0 {
            score := score + 10 * multiplier;
            timeLeft := timeLeft + 10;
          }
          combo := combo + 1;
        case Golden =>
          score := score + 5 * multiplier;
          timeLeft := timeLeft + 5;
          combo := combo + 1;
        case Enemy =>
          score := score + 1 * multiplier;
          combo := combo + 1;
        case Phishing =>
          score := if score - 5 > 0 then score - 5 else 0;
          combo := 0;
        case Trap =>
          score := if score - 3 > 0 then score - 3 else 0;
          combo := 0;
      }
    }
  }

  /** As written, a level-1 game that reaches fifteen seconds turns the bonus on for good:
      after the effect no bonus timeout is pending, so `BonusTimeout` can never run and the
      level-2 moles keep coming from the bonus mix (never phishing, never traps). */
  method BonusNeverEndsAsWritten() returns (b: Board)
    ensures b.Valid() && b.bonusActive && !b.bonusTimerArmed
    ensures b.currentLevel == 1 && b.isPlaying && b.timeLeft == 15
    ensures forall chance: real :: MoleTypeFor(2, b.bossHealth, b.bonusActive, chance) != Phishing
  {
    b := new Board();
    b.StartGame();
    var i := 0;
    while i < 15
      invariant 0 <= i <= 15
      invariant b.Valid() && b.isPlaying && !b.isPaused && !b.showLevelTransition
      invariant b.timeLeft == 30 - i && b.currentLevel == 1 && !b.bonusActive
    {
      b.CountdownTick();
      i := i + 1;
    }
    b.BonusEffectAsWritten();
  }

  /** As intended, the same game's bonus ends once its five-second timeout fires, and the
      level-2 mix includes phishing robots again. */
  method BonusEndsAsIntended() returns (b: Board)
    ensures b.Valid() && !b.bonusActive && b.currentLevel == 1 && b.timeLeft == 15
    ensures MoleTypeFor(2, 0, b.bonusActive, 0.6) == Phishing
  {
    b := new Board();
    b.StartGame();
    var i := 0;
    while i < 15
      invariant 0 <= i <= 15
      invariant b.Valid() && b.isPlaying && !b.isPaused && !b.showLevelTransition
      invariant b.timeLeft == 30 - i && b.currentLevel == 1 && !b.bonusActive
    {
      b.CountdownTick();
      i := i + 1;
    }
    b.BonusEffect();
    assert b.bonusActive && b.bonusTimerArmed;
    b.BonusTimeout();
  }
}

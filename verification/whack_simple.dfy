/** The single-level whack-a-mole board: a mole of some type pops up in one of nine
    holes on a timer; hitting it scores by type, a streak of hits builds a combo that
    doubles the points, and a thirty-second countdown ends the game. */
module WhackSimple {

  import opened Wrappers

  datatype MoleType = Enemy | Trap | Golden

  /** How long a mole stays up: 1100 ms, 18 ms less per point, never under 500 ms. */
  function Speed(score: int): (ms: int)
    ensures ms >= 500
    ensures score >= 0 ==> ms <= 1100
    ensures ms >= 1100 - 18 * score
    ensures ms == 500 || ms == 1100 - 18 * score
    ensures ms > 500 ==> ms == 1100 - 18 * score
  {
    if 1100 - score * 18 > 500 then 1100 - score * 18 else 500
  }

  /** A higher score never slows the moles down. */
  lemma SpeedNeverRises(lower: int, higher: int)
    requires lower <= higher
    ensures Speed(higher) <= Speed(lower)
  {
  }

  /** Hits score double from the fifth consecutive hit on ("rampage"). */
  function Multiplier(combo: nat): nat {
    if combo >= 5 then 2 else 1
  }

  /** The type of a new mole from a random `chance` in [0, 1): golden above 0.9, trap
      above 0.7, enemy otherwise. */
  function MoleTypeFor(chance: real): MoleType {
    if chance > 0.9 then Golden else if chance > 0.7 then Trap else Enemy
  }

  /** The mix of mole types: one in ten golden, two in ten traps, the rest enemies. */
  lemma MoleTypeShares(chance: real)
    requires 0.0 <= chance < 1.0
    ensures MoleTypeFor(chance) == Golden <==> 0.9 < chance
    ensures MoleTypeFor(chance) == Trap <==> 0.7 < chance <= 0.9
    ensures MoleTypeFor(chance) == Enemy <==> chance <= 0.7
  {
  }

  class Board {
    var score: int
    var timeLeft: int
    var isPlaying: bool
    var isPaused: bool
    var activeIndex: Option<nat>
    var activeType: MoleType
    var gameSpeed: int
    var combo: nat
    var isHit: bool
    var exited: bool

    /** The score never goes negative, the clock never shows less than zero, the mole
        is in one of the nine holes, and the speed stays between 500 and 1100 ms. */
    predicate Valid()
      reads this
    {
      && score >= 0 && timeLeft >= 0
      && (activeIndex.Some? ==> activeIndex.value < 9)
      && 500 <= gameSpeed <= 1100
    }

    constructor ()
      ensures Valid()
      ensures score == 0 && timeLeft == 30 && !isPlaying && !isPaused && activeIndex.None?
      ensures activeType == Enemy && gameSpeed == 1100 && combo == 0 && !isHit && !exited
    {
      score := 0;
      timeLeft := 30;
      isPlaying := false;
      isPaused := false;
      activeIndex := None;
      activeType := Enemy;
      gameSpeed := 1100;
      combo := 0;
      isHit := false;
      exited := false;
    }

    /** `startGame`: a fresh thirty-second game at score 0, combo 0, medium speed, no mole. */
    method StartGame()
      requires Valid()
      modifies this
      ensures Valid()
      ensures score == 0 && timeLeft == 30 && isPlaying && !isPaused && gameSpeed == 1100
      ensures activeIndex.None? && combo == 0 && !isHit
      ensures activeType == old(activeType) && exited == old(exited)
    {
      score := 0;
      timeLeft := 30;
      isPlaying := true;
      isPaused := false;
      gameSpeed := 1100;
      activeIndex := None;
      combo := 0;
      isHit := false;
    }

    /** `togglePause` flips the paused flag and nothing else. */
    method TogglePause()
      requires Valid()
      modifies this`isPaused
      ensures Valid()
      ensures isPaused == !old(isPaused)
    {
      isPaused := !isPaused;
    }

    /** `handleExitGame`: play stops, the pause clears and the board is left. */
    method ExitGame()
      requires Valid()
      modifies this`isPlaying, this`isPaused, this`exited
      ensures Valid()
      ensures !isPlaying && !isPaused && exited
    {
      isPlaying := false;
      isPaused := false;
      exited := true;
    }

    /** One firing of the countdown interval, armed while playing, not paused, with time left. */
    method CountdownTick()
      requires Valid() && isPlaying && !isPaused && timeLeft > 0
      modifies this`timeLeft
      ensures Valid()
      ensures timeLeft == old(timeLeft) - 1
    {
      timeLeft := timeLeft - 1;
    }

    /** The countdown effect's other branch: a game whose clock reached zero stops and its
        mole goes away. */
    method CountdownEndEffect()
      requires Valid()
      modifies this`isPlaying, this`activeIndex
      ensures Valid()
      ensures old(isPlaying) && timeLeft == 0 ==> !isPlaying && activeIndex.None?
      ensures !(old(isPlaying) && timeLeft == 0) ==> isPlaying == old(isPlaying) && activeIndex == old(activeIndex)
    {
      if isPlaying && timeLeft == 0 {
        isPlaying := false;
        activeIndex := None;
      }
    }

    /** The movement effect's speed update while the game runs. */
    method SpeedEffect()
      requires Valid()
      modifies this`gameSpeed
      ensures Valid()
      ensures gameSpeed == if isPlaying && !isPaused then Speed(score) else old(gameSpeed)
    {
      if isPlaying && !isPaused {
        gameSpeed := Speed(score);
      }
    }

    /** One firing of the movement interval, armed while playing and not paused: a previous
        non-trap mole that was never hit breaks the combo; the next mole appears in hole
        `holeRoll % 9` with the type drawn from `chance`. */
    method MoleMove(holeRoll: nat, chance: real)
      requires Valid() && isPlaying && !isPaused
      modifies this`combo, this`isHit, this`activeIndex, this`activeType
      ensures Valid()
      ensures combo == if !old(isHit) && old(activeIndex).Some? && old(activeType) != Trap then 0 else old(combo)
      ensures !isHit && activeIndex == Some(holeRoll % 9) && activeIndex.value < 9
      ensures activeType == MoleTypeFor(chance)
    {
      if !isHit && activeIndex.Some? && activeType != Trap {
        combo := 0;
      }
      isHit := false;
      activeIndex := Some(holeRoll % 9);
      activeType := MoleTypeFor(chance);
    }

    /** `handleWhack(index)`: nothing happens unless the game runs unpaused and `index` is
        the active hole. Otherwise the mole counts as hit; with combo five or more points
        double; a golden mole gives 5 points and 5 seconds, an enemy 1 point, both extend
        the combo; a trap costs 3 points, never below zero, and breaks the combo. */
    method Whack(index: nat)
      requires Valid()
      modifies this`score, this`timeLeft, this`combo, this`isHit
      ensures Valid()
      ensures !(old(isPlaying) && !old(isPaused) && old(activeIndex) == Some(index)) ==>
                score == old(score) && timeLeft == old(timeLeft) && combo == old(combo) && isHit == old(isHit)
      ensures old(isPlaying) && !old(isPaused) && old(activeIndex) == Some(index) ==>
                isHit
                && (activeType == Golden ==>
                      score == old(score) + 5 * Multiplier(old(combo)) && timeLeft == old(timeLeft) + 5
                      && combo == old(combo) + 1)
                && (activeType == Enemy ==>
                      score == old(score) + Multiplier(old(combo)) && timeLeft == old(timeLeft)
                      && combo == old(combo) + 1)
                && (activeType == Trap ==>
                      score == (if old(score) - 3 > 0 then old(score) - 3 else 0) && timeLeft == old(timeLeft)
                      && combo == 0)
    {
      if !isPlaying || isPaused || activeIndex != Some(index) {
        return;
      }
      isHit := true;
      var multiplier := Multiplier(combo);
      match activeType {
        case Golden =>
          score := score + 5 * multiplier;
          timeLeft := timeLeft + 5;
          combo := combo + 1;
        case Enemy =>
          score := score + 1 * multiplier;
          combo := combo + 1;
        case Trap =>
          score := if score - 3 > 0 then score - 3 else 0;
          combo := 0;
      }
    }
  }
}

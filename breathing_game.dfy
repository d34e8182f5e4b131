/**
 * components/games/breathing-game.tsx: guided breathing in four-second phases (inhale, hold,
 * exhale); an interval ticks once a second while playing, and five full cycles complete the game.
 */
module BreathingGames {

  import opened Records
  import opened Storage
  import GameCompletion
  import Games
  import Gamification

  datatype Phase = Inhale | Hold | Exhale

  /** `targetCycles`. */
  const TargetCycles: nat := 5

  /** Seconds each phase lasts: the timer restarts at this value. */
  const PhaseLength: int := 4

  /** The part of the state one interval tick changes. */
  datatype Breath = Breath(phase: Phase, timer: int, cycles: nat)

  /** The phase that follows when the timer runs out. */
  function NextPhase(p: Phase): Phase
  {
    match p
    case Inhale => Hold
    case Hold => Exhale
    case Exhale => Inhale
  }

  /**
   * One interval tick: with more than a second left the timer counts down and nothing else
   * changes; otherwise the next phase starts with a full timer, and leaving the exhale phase
   * completes a cycle.
   */
  function Tick(b: Breath): (r: Breath)
    ensures b.timer > 1 ==> r == b.(timer := b.timer - 1)
    ensures b.timer <= 1 ==> r.phase == NextPhase(b.phase) && r.timer == PhaseLength
    ensures r.cycles == if b.timer <= 1 && b.phase == Exhale then b.cycles + 1 else b.cycles
  {
    if b.timer <= 1 then
      if b.phase == Exhale then Breath(Inhale, PhaseLength, b.cycles + 1)
      else Breath(NextPhase(b.phase), PhaseLength, b.cycles)
    else b.(timer := b.timer - 1)
  }

  /** `n` ticks in a row. */
  function Ticks(b: Breath, n: nat): Breath
  {
    if n == 0 then b else Tick(Ticks(b, n - 1))
  }

  /** Ticks keep the timer between 1 and the phase length. */
  lemma TickKeepsTimer(b: Breath)
    requires 1 <= b.timer <= PhaseLength
    ensures 1 <= Tick(b).timer <= PhaseLength
  {
  }

  lemma {:induction false} TicksAdd(b: Breath, m: nat, n: nat)
    ensures Ticks(b, m + n) == Ticks(Ticks(b, m), n)
    decreases n
  {
    if n > 0 {
      TicksAdd(b, m, n - 1);
    }
  }

  /** A phase started with a full timer lasts four ticks: the fourth starts the next phase. */
  lemma FourTicks(p: Phase, cycles: nat)
    ensures Ticks(Breath(p, PhaseLength, cycles), 4) == Tick(Breath(p, 1, cycles))
  {
    var b := Breath(p, PhaseLength, cycles);
    assert Ticks(b, 1) == Breath(p, 3, cycles);
    assert Ticks(b, 2) == Breath(p, 2, cycles);
    assert Ticks(b, 3) == Breath(p, 1, cycles);
  }

  /** From the start of an inhale, twelve ticks bring the next inhale and exactly one more cycle. */
  lemma OneCycle(cycles: nat)
    ensures Ticks(Breath(Inhale, PhaseLength, cycles), 12) == Breath(Inhale, PhaseLength, cycles + 1)
  {
    var b := Breath(Inhale, PhaseLength, cycles);
    FourTicks(Inhale, cycles);
    FourTicks(Hold, cycles);
    FourTicks(Exhale, cycles);
    TicksAdd(b, 4, 4);
    TicksAdd(b, 8, 4);
  }

  /** Uninterrupted play from the start of an inhale completes one cycle every twelve seconds. */
  lemma {:induction false} CyclesOverTime(cycles: nat, n: nat)
    ensures Ticks(Breath(Inhale, PhaseLength, cycles), 12 * n) == Breath(Inhale, PhaseLength, cycles + n)
    decreases n
  {
    if n > 0 {
      var b := Breath(Inhale, PhaseLength, cycles);
      CyclesOverTime(cycles, n - 1);
      TicksAdd(b, 12 * (n - 1), 12);
      OneCycle(cycles + n - 1);
    }
  }

  /** A fresh game played without pause reaches the five target cycles after sixty ticks. */
  lemma SixtySeconds()
    ensures Ticks(Breath(Inhale, PhaseLength, 0), 60).cycles == TargetCycles
  {
    CyclesOverTime(0, 5);
  }

  class BreathingGame {
    var isPlaying: bool
    var phase: Phase
    var cycles: nat
    var timer: int
    var isComplete: bool

    ghost predicate Valid()
      reads this
    {
      1 <= timer <= PhaseLength
    }

    /** The initial state; `handleReset` restores it. */
    constructor ()
      ensures Valid()
      ensures !isPlaying && phase == Inhale && cycles == 0 && timer == PhaseLength && !isComplete
    {
      isPlaying := false;
      phase := Inhale;
      cycles := 0;
      timer := PhaseLength;
      isComplete := false;
    }

    /** The play/pause button. */
    method TogglePlay()
      requires Valid()
      modifies this
      ensures Valid()
      ensures isPlaying == !old(isPlaying)
      ensures phase == old(phase) && cycles == old(cycles) && timer == old(timer) && isComplete == old(isComplete)
    {
      isPlaying := !isPlaying;
    }

    /** The interval callback, which runs only while playing. */
    method OnTick()
      requires Valid() && isPlaying
      modifies this
      ensures Valid()
      ensures Breath(phase, timer, cycles) == Tick(old(Breath(phase, timer, cycles)))
      ensures isPlaying == old(isPlaying) && isComplete == old(isComplete)
    {
      if timer <= 1 {
        if phase == Inhale {
          phase := Hold;
          timer := PhaseLength;
        } else if phase == Hold {
          phase := Exhale;
          timer := PhaseLength;
        } else {
          cycles := cycles + 1;
          phase := Inhale;
          timer := PhaseLength;
        }
      } else {
        timer := timer - 1;
      }
    }

    /**
     * The completion effect: from the target number of cycles on, play stops, a score of 100 is
     * saved, the reward is credited and the game is complete; before that nothing changes.
     */
    method CheckCompletion(st: LocalStorage, userId: string, game: Game, now: Timestamp)
      requires Valid() && st.Valid()
      modifies this, st
      ensures Valid() && st.Valid()
      ensures phase == old(phase) && cycles == old(cycles) && timer == old(timer)
      ensures cycles >= TargetCycles ==>
                && !isPlaying && isComplete
                && Games.GetGameScores(st, userId) == old(Games.GetGameScores(st, userId)) + [GameScore(userId, game.id, 100, now)]
                && st.items == old(st.items)
                     [Games.ScoresKey(userId) := ScoreList(old(Games.GetGameScores(st, userId)) + [GameScore(userId, game.id, 100, now)])]
                     [Gamification.ProgressKey(userId) := ProgressRecord(old(Gamification.GetUserProgress(st, userId)).(points := game.pointsReward))]
      ensures cycles < TargetCycles ==>
                isPlaying == old(isPlaying) && isComplete == old(isComplete)
                && st.items == old(st.items) && st.keys == old(st.keys)
    {
      if cycles >= TargetCycles {
        isPlaying := false;
        GameCompletion.CompleteGame(st, userId, game, 100, now);
        isComplete := true;
      }
    }

    /** `handleReset`: stopped, at the start of an inhale, no cycles, not complete. */
    method HandleReset()
      modifies this
      ensures Valid()
      ensures !isPlaying && phase == Inhale && cycles == 0 && timer == PhaseLength && !isComplete
    {
      isPlaying := false;
      phase := Inhale;
      cycles := 0;
      timer := PhaseLength;
      isComplete := false;
    }
  }
}

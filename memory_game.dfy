/**
 * components/games/memory-game.tsx: ten face-down cards forming five pairs; two cards are
 * turned at a time, a pair of equal faces stays matched, and the score falls with the moves.
 * The component's React state is the class below; each handler and effect is a method.
 */
module MemoryGames {

  import opened Builtins
  import opened Records
  import opened Storage
  import GameCompletion
  import Games
  import Gamification

  /** The deck before shuffling: five distinct faces, each repeated five places later, so five pairs. */
  function Deck(): (deck: seq<string>)
    ensures |deck| == 10
    ensures forall i, j :: 0 <= i < j < 5 ==> deck[i] != deck[j]
    ensures forall i :: 0 <= i < 5 ==> deck[i] == deck[i + 5]
  {
    ["😊", "😢", "😡", "😰", "😴", "😊", "😢", "😡", "😰", "😴"]
  }

  /** `Math.max(100 - moves * 5, 10)`. */
  function MemoryScore(moves: nat): (score: int)
    ensures 10 <= score <= 100
    ensures moves <= 18 ==> score == 100 - 5 * moves
  {
    Max(100 - moves * 5, 10)
  }

  /** More moves never score more, and from 18 moves on the score stays at its floor of 10. */
  lemma MemoryScoreMonotone(fewer: nat, more: nat)
    requires fewer <= more
    ensures MemoryScore(fewer) >= MemoryScore(more)
    ensures more >= 18 ==> MemoryScore(more) == 10
  {
  }

  predicate Distinct(s: seq<int>)
  {
    forall i, j :: 0 <= i < j < |s| ==> s[i] != s[j]
  }

  /**
   * What the handlers keep true of the state: at most two distinct cards face up, none of them
   * matched; a pair left face up shows different faces (it waits to be turned back); matched
   * indices are distinct, valid and come in consecutive pairs of equal faces; and every matched
   * pair cost a move.
   */
  predicate Consistent(cards: seq<string>, flipped: seq<int>, matched: seq<int>, moves: nat)
  {
    && |flipped| <= 2
    && (forall i :: 0 <= i < |flipped| ==> 0 <= flipped[i] < |cards| && flipped[i] !in matched)
    && (|flipped| == 2 ==> flipped[0] != flipped[1] && cards[flipped[0]] != cards[flipped[1]])
    && (forall i :: 0 <= i < |matched| ==> 0 <= matched[i] < |cards|)
    && Distinct(matched)
    && |matched| % 2 == 0
    && (forall i :: 0 <= i < |matched| && i % 2 == 0 ==> cards[matched[i]] == cards[matched[i + 1]])
    && |matched| <= 2 * moves
  }

  /** Permutations have the same length. */
  lemma SameLength<T>(a: seq<T>, b: seq<T>)
    requires multiset(a) == multiset(b)
    ensures |a| == |b|
  {
    assert |a| == |multiset(a)|;
  }

  /** `handleCardClick`'s guard: fewer than two cards up, and the card neither up nor matched. */
  predicate Accepts(flipped: seq<int>, matched: seq<int>, index: int)
  {
    |flipped| < 2 && index !in flipped && index !in matched
  }

  /** Turning a first card keeps the state consistent. */
  lemma FirstCardKeeps(cards: seq<string>, matched: seq<int>, moves: nat, index: int)
    requires Consistent(cards, [], matched, moves)
    requires 0 <= index < |cards| && index !in matched
    ensures Consistent(cards, [index], matched, moves)
  {
  }

  /** A second card showing the same face as the first: both join the matched cards, at the cost of a move. */
  lemma PairMatchKeeps(cards: seq<string>, first: int, matched: seq<int>, moves: nat, index: int)
    requires Consistent(cards, [first], matched, moves)
    requires 0 <= first < |cards| && 0 <= index < |cards|
    requires index !in matched && index != first && cards[first] == cards[index]
    ensures Consistent(cards, [], matched + [first, index], moves + 1)
  {
    var m := matched + [first, index];
    assert m[|matched|] == first && m[|matched| + 1] == index;
    forall i, j | 0 <= i < j < |m| ensures m[i] != m[j] {
      if j < |matched| {
        assert m[i] == matched[i] && m[j] == matched[j];
      }
    }
  }

  /** A second card showing another face: the two stay up, and the move is counted. */
  lemma MismatchKeeps(cards: seq<string>, first: int, matched: seq<int>, moves: nat, index: int)
    requires Consistent(cards, [first], matched, moves)
    requires 0 <= first < |cards| && 0 <= index < |cards|
    requires index !in matched && cards[first] != cards[index]
    ensures Consistent(cards, [first, index], matched, moves + 1)
  {
  }

  class MemoryGame {
    var cards: seq<string>
    var flipped: seq<int>
    var matched: seq<int>
    var moves: nat
    var isComplete: bool

    ghost predicate Valid()
      reads this
    {
      Consistent(cards, flipped, matched, moves)
    }

    /** The state before the mount effect has dealt the cards. */
    constructor ()
      ensures Valid()
      ensures cards == [] && flipped == [] && matched == [] && moves == 0 && !isComplete
    {
      cards := [];
      flipped := [];
      matched := [];
      moves := 0;
      isComplete := false;
    }

    /** `shuffleCards`: some order of the deck (the random order is the parameter), and a fresh game. */
    method ShuffleCards(shuffled: seq<string>)
      requires multiset(shuffled) == multiset(Deck())
      modifies this
      ensures Valid()
      ensures cards == shuffled && |cards| == 10
      ensures flipped == [] && matched == [] && moves == 0 && !isComplete
    {
      SameLength(shuffled, Deck());
      cards := shuffled;
      flipped := [];
      matched := [];
      moves := 0;
      isComplete := false;
    }

    /**
     * `handleCardClick` followed by the pair-evaluation effect it triggers: an accepted card is
     * turned; when it is the second one, the move is counted and a pair of equal faces is matched
     * and turned away, while a pair of different faces stays up for `HideMismatch`.
     */
    method HandleCardClick(index: int)
      requires Valid() && 0 <= index < |cards|
      modifies this
      ensures Valid()
      ensures cards == old(cards) && isComplete == old(isComplete)
      ensures !Accepts(old(flipped), old(matched), index) ==>
                flipped == old(flipped) && matched == old(matched) && moves == old(moves)
      ensures Accepts(old(flipped), old(matched), index) && old(flipped) == [] ==>
                flipped == [index] && matched == old(matched) && moves == old(moves)
      ensures Accepts(old(flipped), old(matched), index) && |old(flipped)| == 1 ==>
                && moves == old(moves) + 1
                && (cards[old(flipped)[0]] == cards[index] ==>
                      matched == old(matched) + [old(flipped)[0], index] && flipped == [])
                && (cards[old(flipped)[0]] != cards[index] ==>
                      matched == old(matched) && flipped == old(flipped) + [index])
    {
      if |flipped| < 2 && index !in flipped && index !in matched {
        if flipped == [] {
          FirstCardKeeps(cards, matched, moves, index);
          flipped := [index];
        } else {
          var first := flipped[0];
          if cards[first] == cards[index] {
            PairMatchKeeps(cards, first, matched, moves, index);
            matched := matched + [first, index];
            flipped := [];
          } else {
            MismatchKeeps(cards, first, matched, moves, index);
            flipped := [first, index];
          }
          moves := moves + 1;
        }
      }
    }

    /** The timeout after a mismatch: the two cards are turned face down again. */
    method HideMismatch()
      requires Valid()
      modifies this
      ensures Valid()
      ensures flipped == []
      ensures cards == old(cards) && matched == old(matched) && moves == old(moves) && isComplete == old(isComplete)
    {
      flipped := [];
    }

    /**
     * The completion effect: once every card is matched (and there are cards), the score
     * `MemoryScore(moves)` is saved, the reward is credited and the game is complete.
     */
    method CheckCompletion(st: LocalStorage, userId: string, game: Game, now: Timestamp)
      requires Valid() && st.Valid()
      modifies this, st
      ensures Valid() && st.Valid()
      ensures cards == old(cards) && flipped == old(flipped) && matched == old(matched) && moves == old(moves)
      ensures isComplete == (old(isComplete) || (|matched| == |cards| && |cards| > 0))
      ensures |matched| == |cards| && |cards| > 0 ==>
                Games.GetGameScores(st, userId)
                == old(Games.GetGameScores(st, userId)) + [GameScore(userId, game.id, MemoryScore(moves), now)]
      ensures |matched| == |cards| && |cards| > 0 ==>
                st.items == old(st.items)
                  [Games.ScoresKey(userId) := ScoreList(old(Games.GetGameScores(st, userId)) + [GameScore(userId, game.id, MemoryScore(moves), now)])]
                  [Gamification.ProgressKey(userId) := ProgressRecord(old(Gamification.GetUserProgress(st, userId)).(points := game.pointsReward))]
      ensures !(|matched| == |cards| && |cards| > 0) ==> st.items == old(st.items) && st.keys == old(st.keys)
    {
      if |matched| == |cards| && |cards| > 0 {
        var score := MemoryScore(moves);
        GameCompletion.CompleteGame(st, userId, game, score, now);
        isComplete := true;
      }
    }
  }

  lemma {:induction false} DistinctCount(s: seq<int>)
    requires Distinct(s)
    ensures |set x | x in s| == |s|
    decreases |s|
  {
    if s != [] {
      var front := s[..|s| - 1];
      DistinctCount(front);
      assert (set x | x in s) == (set x | x in front) + {s[|s| - 1]};
      assert s[|s| - 1] !in front;
    }
  }

  /** The indices 0 .. n - 1. */
  function Range(n: nat): (r: set<int>)
    ensures forall i :: i in r <==> 0 <= i < n
    ensures |r| == n
  {
    if n == 0 then {} else Range(n - 1) + {n - 1}
  }

  lemma SubsetSize<T>(a: set<T>, b: set<T>)
    requires a <= b
    ensures |a| <= |b|
    ensures |a| == |b| ==> a == b
  {
    assert b == a + (b - a);
  }

  /**
   * Completion means the whole deck is matched: with as many matched indices as cards, every
   * card is matched, no card is left face up, and the game took at least half as many moves
   * as there are cards, so a full deck scores at most 75.
   */
  lemma CompleteMatchesAll(cards: seq<string>, flipped: seq<int>, matched: seq<int>, moves: nat)
    requires Consistent(cards, flipped, matched, moves)
    requires |matched| == |cards|
    ensures forall i :: 0 <= i < |cards| ==> i in matched
    ensures flipped == []
    ensures |cards| == 10 ==> MemoryScore(moves) <= 75
  {
    var seen := set x | x in matched;
    var up := set x | x in flipped;
    var all := Range(|cards|);
    DistinctCount(matched);
    DistinctCount(flipped);
    assert up * seen == {};
    SubsetSize(up + seen, all);
    SubsetSize(seen, all);
    forall i | 0 <= i < |cards| ensures i in matched {
      assert i in all;
    }
  }
}

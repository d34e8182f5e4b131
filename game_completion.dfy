/**
 * The completion step the three mini-games share (the components under components/games): the score is saved,
 * `updateUserProgress(user.id, 0)` is called, the game's reward is added to the progress it
 * returns, and that progress is written back under the student's progress key.
 */
module GameCompletion {

  import opened Records
  import opened Storage
  import opened Gamification
  import opened Games

  /** Score lists and progress records of any two students never share a key. */
  lemma KeysApart(a: string, b: string)
    ensures ScoresKey(a) != ProgressKey(b)
  {
    assert ScoresKey(a)[6] != ProgressKey(b)[6];
  }

  /** No entries badge is earned with zero entries, so an update with zero entries awards nothing. */
  lemma {:induction false} NothingAwardedAtZero(held: seq<string>, badges: seq<Badge>)
    requires forall b :: b in badges ==> b.requirement >= 1
    ensures Awarded(held, badges, 0) == held
    decreases |badges|
  {
    if badges != [] {
      NothingAwardedAtZero(held, badges[..|badges| - 1]);
    }
  }

  /**
   * `updateUserProgress(user.id, 0)` followed by adding the reward and writing the result back:
   * the stored points become exactly the reward (whatever was stored before is overwritten by the
   * zero-entry update), and the badges, streak and last date are kept.
   */
  method CreditReward(st: LocalStorage, userId: string, reward: int)
    requires st.Valid()
    modifies st
    ensures st.Valid()
    ensures st.items == old(st.items)[ProgressKey(userId) := ProgressRecord(old(GetUserProgress(st, userId)).(points := reward))]
  {
    ghost var before := GetUserProgress(st, userId);
    var progress := UpdateUserProgress(st, userId, 0);
    NothingAwardedAtZero(before.badges, AvailableBadges());
    progress := progress.(points := progress.points + reward);
    st.SetItem(ProgressKey(userId), ProgressRecord(progress));
  }

  /** The completion effect: the score is appended to the student's scores and the reward credited. */
  method CompleteGame(st: LocalStorage, userId: string, game: Game, score: int, now: Timestamp)
    requires st.Valid()
    modifies st
    ensures st.Valid()
    ensures GetGameScores(st, userId) == old(GetGameScores(st, userId)) + [GameScore(userId, game.id, score, now)]
    ensures GetUserProgress(st, userId) == old(GetUserProgress(st, userId)).(points := game.pointsReward)
    ensures st.items == old(st.items)[ScoresKey(userId) := ScoreList(old(GetGameScores(st, userId)) + [GameScore(userId, game.id, score, now)])]
                                     [ProgressKey(userId) := ProgressRecord(old(GetUserProgress(st, userId)).(points := game.pointsReward))]
  {
    SaveGameScore(st, userId, game.id, score, now);
    KeysApart(userId, userId);
    CreditReward(st, userId, game.pointsReward);
  }
}

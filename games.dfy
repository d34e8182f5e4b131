/**
 * lib/games.ts: the game catalogue and the scores each student records.
 */
module Games {

  import opened Records
  import opened Storage

  /** Each student's scores live under "vozes_game_scores_<userId>". */
  function ScoresKey(userId: string): string
  {
    "vozes_game_scores_" + userId
  }

  /** Milliseconds in a day: a timestamp's calendar day is its quotient by this. */
  const DayLength: int := 86400000

  /** `availableGames`: four games with distinct ids and positive rewards. */
  function AvailableGames(): (games: seq<Game>)
    ensures |games| == 4
    ensures forall i, j :: 0 <= i < j < |games| ==> games[i].id != games[j].id
    ensures forall i :: 0 <= i < |games| ==> games[i].pointsReward > 0
  {
    [ Game("memory-emotions", "Memória das Emoções", "Encontre os pares de emoções iguais", "🧠", 20, Easy),
      Game("breathing-exercise", "Exercício de Respiração", "Pratique técnicas de respiração guiada", "🌬️", 15, Easy),
      Game("emotion-quiz", "Quiz das Emoções", "Teste seus conhecimentos sobre inteligência emocional", "❓", 25, Medium),
      Game("mindfulness-challenge", "Desafio Mindfulness", "Complete exercícios de atenção plena", "🧘", 30, Medium) ]
  }

  /** `getGameScores`: the stored scores of the student, or none. */
  function GetGameScores(st: LocalStorage, userId: string): (scores: seq<GameScore>)
    reads st
    ensures ScoresKey(userId) !in st.items ==> scores == []
    ensures ScoresKey(userId) in st.items && st.items[ScoresKey(userId)].ScoreList? ==> scores == st.items[ScoresKey(userId)].scores
  {
    var key := ScoresKey(userId);
    if key in st.items && st.items[key].ScoreList? then st.items[key].scores else []
  }

  /** `saveGameScore`: exactly one record with the given user, game and score, dated `now`, is appended. */
  method SaveGameScore(st: LocalStorage, userId: string, gameId: string, score: int, now: Timestamp)
    requires st.Valid()
    modifies st
    ensures st.Valid()
    ensures GetGameScores(st, userId) == old(GetGameScores(st, userId)) + [GameScore(userId, gameId, score, now)]
    ensures st.items == old(st.items)[ScoresKey(userId) := ScoreList(GetGameScores(st, userId))]
  {
    var gameScore := GameScore(userId, gameId, score, now);
    var scores := GetGameScores(st, userId);
    scores := scores + [gameScore];
    st.SetItem(ScoresKey(userId), ScoreList(scores));
  }

  /** `scores.filter((s) => s.gameId === gameId)`. */
  function ScoresOf(scores: seq<GameScore>, gameId: string): (r: seq<GameScore>)
    ensures |r| <= |scores|
    ensures forall s :: s in r <==> s in scores && s.gameId == gameId
  {
    if scores == [] then []
    else ScoresOf(scores[..|scores| - 1], gameId)
         + (if scores[|scores| - 1].gameId == gameId then [scores[|scores| - 1]] else [])
  }

  /** `Math.max(...scores.map((s) => s.score))` on a non-empty list: a recorded score no other exceeds. */
  function MaxScore(scores: seq<GameScore>): (m: int)
    requires scores != []
    ensures exists s :: s in scores && s.score == m
    ensures forall s :: s in scores ==> s.score <= m
  {
    if |scores| == 1 then scores[0].score
    else
      var front := scores[..|scores| - 1];
      var last := scores[|scores| - 1];
      assert forall s :: s in scores <==> s in front || s == last;
      var m := MaxScore(front);
      if last.score > m then last.score else m
  }

  /** The best score is 0 without a score for the game, and otherwise a score for the game that no other beats. */
  function BestScore(scores: seq<GameScore>, gameId: string): (best: int)
    ensures (forall s :: s in scores ==> s.gameId != gameId) ==> best == 0
    ensures (exists s :: s in scores && s.gameId == gameId) ==>
              (exists s :: s in scores && s.gameId == gameId && s.score == best)
              && (forall s :: s in scores && s.gameId == gameId ==> s.score <= best)
  {
    var gameScores := ScoresOf(scores, gameId);
    if |gameScores| > 0 then
      assert gameScores[0] in gameScores;
      MaxScore(gameScores)
    else 0
  }

  /** Recording a score of another game changes neither the game's scores, nor its best score, nor whether it was played on a day. */
  lemma {:induction false} OtherGamesIgnored(scores: seq<GameScore>, gameId: string, extra: GameScore, today: int)
    requires extra.gameId != gameId
    ensures ScoresOf(scores + [extra], gameId) == ScoresOf(scores, gameId)
    ensures BestScore(scores + [extra], gameId) == BestScore(scores, gameId)
    ensures PlayedOn(scores + [extra], gameId, today) == PlayedOn(scores, gameId, today)
  {
    assert (scores + [extra])[..|scores|] == scores;
    assert forall s :: s in scores + [extra] <==> s in scores || s == extra;
  }

  /** Some score of the game is dated on calendar day `today`. */
  predicate PlayedOn(scores: seq<GameScore>, gameId: string, today: int)
  {
    exists s :: s in scores && s.gameId == gameId && s.date / DayLength == today
  }

  /** `getBestScore(userId, gameId)` on the stored scores. */
  function GetBestScore(st: LocalStorage, userId: string, gameId: string): (best: int)
    reads st
    ensures ScoresKey(userId) !in st.items ==> best == 0
    ensures (forall s :: s in GetGameScores(st, userId) ==> s.gameId != gameId) ==> best == 0
    ensures (exists s :: s in GetGameScores(st, userId) && s.gameId == gameId) ==>
              (exists s :: s in GetGameScores(st, userId) && s.gameId == gameId && s.score == best)
              && (forall s :: s in GetGameScores(st, userId) && s.gameId == gameId ==> s.score <= best)
  {
    BestScore(GetGameScores(st, userId), gameId)
  }

  /**
   * `hasPlayedToday`: some stored score of the game falls on the day containing `now`
   * (the clock reading of the source is a parameter; days are counted in UTC).
   */
  function HasPlayedToday(st: LocalStorage, userId: string, gameId: string, now: Timestamp): (played: bool)
    reads st
    ensures ScoresKey(userId) !in st.items ==> !played
    ensures played <==> exists s :: s in GetGameScores(st, userId) && s.gameId == gameId && s.date / DayLength == now / DayLength
  {
    PlayedOn(GetGameScores(st, userId), gameId, now / DayLength)
  }

  /** A score just saved makes the game played today and the best score at least that score; an earlier best is never lowered. */
  lemma SavedScoreCounts(scores: seq<GameScore>, userId: string, gameId: string, score: int, now: Timestamp)
    ensures var after := scores + [GameScore(userId, gameId, score, now)];
            && PlayedOn(after, gameId, now / DayLength)
            && BestScore(after, gameId) >= score
            && ((exists s :: s in scores && s.gameId == gameId) ==> BestScore(after, gameId) >= BestScore(scores, gameId))
  {
    var g := GameScore(userId, gameId, score, now);
    var after := scores + [g];
    assert g in after;
    assert after[..|scores|] == scores;
    if exists s :: s in scores && s.gameId == gameId {
      var s :| s in scores && s.gameId == gameId && s.score == BestScore(scores, gameId);
      assert s in after;
    }
  }
}

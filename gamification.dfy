/**
 * lib/gamification.ts: per-student points and badges, and the top-ten leaderboard.
 */
module Gamification {

  import opened Wrappers
  import opened Builtins
  import opened Records
  import opened Storage
  import opened Sorting

  const LeaderboardKey: string := "vozes_leaderboard"

  /** Each student's progress lives under "vozes_progress_<userId>". */
  function ProgressKey(userId: string): string
  {
    "vozes_progress_" + userId
  }

  /** `availableBadges`: four badges for the number of entries, one special badge. */
  function AvailableBadges(): (badges: seq<Badge>)
    ensures |badges| == 5
    ensures forall i, j :: 0 <= i < j < |badges| ==> badges[i].id != badges[j].id
    ensures forall i :: 0 <= i < |badges| ==> (badges[i].kind == SpecialBadge <==> i == 4)
  {
    [ Badge("first-step", "Primeiro Passo", "Registrou sua primeira emoção", "🌟", 1, EntriesBadge),
      Badge("consistent", "Consistente", "Registrou emoções por 4 semanas", "🔥", 4, EntriesBadge),
      Badge("dedicated", "Dedicado", "Registrou emoções por 8 semanas", "💪", 8, EntriesBadge),
      Badge("champion", "Campeão", "Registrou emoções por 12 semanas", "🏆", 12, EntriesBadge),
      Badge("positive-vibes", "Energia Positiva", "Manteve média acima de 4 por 4 semanas", "✨", 4, SpecialBadge) ]
  }

  /** The progress a student starts with. */
  function InitialProgress(userId: string): UserProgress
  {
    UserProgress(userId, 0, [], 0, None)
  }

  /** `getUserProgress`: the stored progress, or zero points, no badges and no streak. */
  function GetUserProgress(st: LocalStorage, userId: string): (p: UserProgress)
    reads st
    ensures ProgressKey(userId) !in st.items ==> p == InitialProgress(userId)
    ensures ProgressKey(userId) in st.items && st.items[ProgressKey(userId)].ProgressRecord? ==>
              p == st.items[ProgressKey(userId)].progress
  {
    var key := ProgressKey(userId);
    if key in st.items && st.items[key].ProgressRecord? then st.items[key].progress else InitialProgress(userId)
  }

  /** A badge earned by `totalEntries` entries: an entries badge whose requirement is met. */
  predicate Earned(b: Badge, totalEntries: int)
  {
    b.kind == EntriesBadge && totalEntries >= b.requirement
  }

  /**
   * The badge list after the award loop has visited `badges`, starting from `held`: the badges
   * held are kept in front, and every badge added after them is one of `badges` that is earned.
   */
  function Awarded(held: seq<string>, badges: seq<Badge>, totalEntries: int): (r: seq<string>)
    ensures held <= r
    ensures forall i :: |held| <= i < |r| ==> exists b :: b in badges && Earned(b, totalEntries) && b.id == r[i]
  {
    if badges == [] then held
    else
      var acc := Awarded(held, badges[..|badges| - 1], totalEntries);
      var b := badges[|badges| - 1];
      assert b in badges;
      assert forall c :: c in badges[..|badges| - 1] ==> c in badges;
      if Earned(b, totalEntries) && b.id !in acc then acc + [b.id] else acc
  }

  predicate NoDuplicates(s: seq<string>)
  {
    forall i, j :: 0 <= i < j < |s| ==> s[i] != s[j]
  }

  /**
   * The award loop keeps the held badges in front, adds exactly the ids of the earned badges
   * that were missing, never an id twice, and nothing a special or unmet badge would give.
   */
  lemma {:induction false} AwardedSpec(held: seq<string>, badges: seq<Badge>, totalEntries: int)
    ensures held <= Awarded(held, badges, totalEntries)
    ensures forall x :: x in Awarded(held, badges, totalEntries) <==>
              x in held || exists b :: b in badges && Earned(b, totalEntries) && b.id == x
    ensures NoDuplicates(held) ==> NoDuplicates(Awarded(held, badges, totalEntries))
  {
    if badges != [] {
      var front := badges[..|badges| - 1];
      var b := badges[|badges| - 1];
      AwardedSpec(held, front, totalEntries);
      assert forall c :: c in badges <==> c in front || c == b;
    }
  }

  /**
   * `updateUserProgress`: points become ten per entry, overwriting what was stored; the earned
   * entries badges not yet held are appended in catalogue order; the streak and the last entry
   * date are kept. The progress is written back under the student's key.
   */
  method UpdateUserProgress(st: LocalStorage, userId: string, totalEntries: int) returns (progress: UserProgress)
    requires st.Valid()
    modifies st
    ensures st.Valid()
    ensures var before := old(GetUserProgress(st, userId));
            progress == before.(points := totalEntries * 10,
                                badges := Awarded(before.badges, AvailableBadges(), totalEntries))
    ensures st.items == old(st.items)[ProgressKey(userId) := ProgressRecord(progress)]
  {
    progress := GetUserProgress(st, userId);
    ghost var held := progress.badges;

    // Update points
    progress := progress.(points := totalEntries * 10);

    // Check and award badges
    var badges := AvailableBadges();
    for i := 0 to |badges|
      invariant progress == old(GetUserProgress(st, userId)).(points := totalEntries * 10,
                                                               badges := Awarded(held, badges[..i], totalEntries))
    {
      var badge := badges[i];
      assert badges[..i + 1][..i] == badges[..i];
      if badge.kind == EntriesBadge && totalEntries >= badge.requirement {
        if badge.id !in progress.badges {
          progress := progress.(badges := progress.badges + [badge.id]);
        }
      }
    }
    assert badges[..|badges|] == badges;

    // Save progress
    st.SetItem(ProgressKey(userId), ProgressRecord(progress));
  }

  /** After an update every entries badge within reach is held, and the special badge is never handed out. */
  lemma UpdatedBadges(before: UserProgress, totalEntries: int)
    ensures var badges := Awarded(before.badges, AvailableBadges(), totalEntries);
            && before.badges <= badges
            && (forall b :: b in AvailableBadges() && b.kind == EntriesBadge && b.requirement <= totalEntries ==> b.id in badges)
            && ("positive-vibes" in badges <==> "positive-vibes" in before.badges)
            && (NoDuplicates(before.badges) ==> NoDuplicates(badges))
  {
    var badges := Awarded(before.badges, AvailableBadges(), totalEntries);
    AwardedSpec(before.badges, AvailableBadges(), totalEntries);
    forall b | b in AvailableBadges() && Earned(b, totalEntries) ensures b.id != "positive-vibes" {
      var i :| 0 <= i < 5 && AvailableBadges()[i] == b;
    }
  }

  /** A student with no stored progress and twelve entries holds every entries badge, in catalogue order. */
  lemma TwelveEntriesAllBadges()
    ensures Awarded([], AvailableBadges(), 12) == ["first-step", "consistent", "dedicated", "champion"]
  {
    var bs := AvailableBadges();
    assert bs[..4][..3] == bs[..3] && bs[..3][..2] == bs[..2] && bs[..2][..1] == bs[..1] && bs[..1][..0] == [];
    assert Awarded([], bs[..1], 12) == ["first-step"];
    assert Awarded([], bs[..2], 12) == ["first-step", "consistent"];
    assert Awarded([], bs[..3], 12) == ["first-step", "consistent", "dedicated"];
    assert Awarded([], bs[..4], 12) == ["first-step", "consistent", "dedicated", "champion"];
    assert bs[..5] == bs;
  }

  // ---------------------------------------------------------------------------
  // The leaderboard.

  /** `getLeaderboard`: the stored rows, or none. */
  function GetLeaderboard(st: LocalStorage): (rows: seq<LeaderRow>)
    reads st
    ensures LeaderboardKey !in st.items ==> rows == []
    ensures LeaderboardKey in st.items && st.items[LeaderboardKey].LeaderboardList? ==> rows == st.items[LeaderboardKey].rows
  {
    if LeaderboardKey in st.items && st.items[LeaderboardKey].LeaderboardList? then st.items[LeaderboardKey].rows else []
  }

  /** `leaderboard.filter((entry) => entry.userId !== userId)`. */
  function WithoutUser(rows: seq<LeaderRow>, userId: string): (r: seq<LeaderRow>)
    ensures |r| <= |rows|
    ensures forall x :: x in r <==> x in rows && x.userId != userId
  {
    if rows == [] then []
    else (if rows[0].userId != userId then [rows[0]] else []) + WithoutUser(rows[1..], userId)
  }

  /** The comparator `(a, b) => b.points - a.points`: a may come first when it has at least as many points. */
  predicate MorePoints(a: LeaderRow, b: LeaderRow)
  {
    a.points >= b.points
  }

  lemma MorePointsIsTotalPreorder()
    ensures TotalPreorder(MorePoints)
  {
  }

  /** `leaderboard.slice(0, 10)`. */
  function TopTen(rows: seq<LeaderRow>): (r: seq<LeaderRow>)
    ensures |r| == Min(10, |rows|)
    ensures r <= rows
  {
    rows[..Min(10, |rows|)]
  }

  /** The board `updateLeaderboard` writes back. */
  function UpdatedBoard(board: seq<LeaderRow>, userId: string, userName: string, points: int): (r: seq<LeaderRow>)
    ensures |r| == Min(10, |WithoutUser(board, userId)| + 1)
    ensures |r| <= 10
  {
    MorePointsIsTotalPreorder();
    TopTen(SortBy(WithoutUser(board, userId) + [LeaderRow(userId, userName, points)], MorePoints))
  }

  /** `updateLeaderboard`: the user's old rows go, the new row is added, the board is sorted and cut to ten. */
  method UpdateLeaderboard(st: LocalStorage, userId: string, userName: string, points: int)
    requires st.Valid()
    modifies st
    ensures st.Valid()
    ensures st.items == old(st.items)[LeaderboardKey := LeaderboardList(UpdatedBoard(old(GetLeaderboard(st)), userId, userName, points))]
  {
    var leaderboard := GetLeaderboard(st);

    // Remove existing entry for this user
    leaderboard := WithoutUser(leaderboard, userId);

    // Add new entry
    leaderboard := leaderboard + [LeaderRow(userId, userName, points)];

    // Sort by points
    MorePointsIsTotalPreorder();
    leaderboard := SortBy(leaderboard, MorePoints);

    // Keep top 10
    leaderboard := TopTen(leaderboard);

    st.SetItem(LeaderboardKey, LeaderboardList(leaderboard));
  }

  /** The rows a sorted prefix holds are all among the sorted rows. */
  lemma PrefixMembers(r: seq<LeaderRow>, s: seq<LeaderRow>, x: LeaderRow)
    requires r <= s && x in r
    ensures x in s
  {
    var i :| 0 <= i < |r| && r[i] == x;
    assert s[i] == x;
  }

  /**
   * The updated board is sorted by points, non-increasing, holds at most ten rows and at most one
   * for the user, that one with the new points; every other row comes from the old board. It is
   * the top of the candidates: no row occurs more often than among the other users' rows plus the
   * new one, and no row cut has more points than a row kept.
   */
  lemma UpdatedBoardSpec(board: seq<LeaderRow>, userId: string, userName: string, points: int)
    ensures var nb := UpdatedBoard(board, userId, userName, points);
            && |nb| <= 10
            && (forall i, j :: 0 <= i < j < |nb| ==> nb[i].points >= nb[j].points)
            && (forall i, j :: 0 <= i < j < |nb| && nb[i].userId == userId ==> nb[j].userId != userId)
            && (forall x :: x in nb && x.userId == userId ==> x == LeaderRow(userId, userName, points))
            && (forall x :: x in nb && x.userId != userId ==> x in board)
            && var candidates := multiset(WithoutUser(board, userId) + [LeaderRow(userId, userName, points)]);
               && multiset(nb) <= candidates
               && (forall x, y :: x in nb && y in candidates - multiset(nb) ==> x.points >= y.points)
  {
    UpdatedBoardRows(board, userId, userName, points);
    UpdatedBoardKeepsTop(board, userId, userName, points);
  }

  /** The order of the updated board, and where its rows come from. */
  lemma UpdatedBoardRows(board: seq<LeaderRow>, userId: string, userName: string, points: int)
    ensures var nb := UpdatedBoard(board, userId, userName, points);
            && (forall i, j :: 0 <= i < j < |nb| ==> nb[i].points >= nb[j].points)
            && (forall i, j :: 0 <= i < j < |nb| && nb[i].userId == userId ==> nb[j].userId != userId)
            && (forall x :: x in nb && x.userId == userId ==> x == LeaderRow(userId, userName, points))
            && (forall x :: x in nb && x.userId != userId ==> x in board)
  {
    MorePointsIsTotalPreorder();
    var others := WithoutUser(board, userId);
    var row := LeaderRow(userId, userName, points);
    var sorted := SortBy(others + [row], MorePoints);
    var nb := TopTen(sorted);
    assert SortedBy(nb, MorePoints);
    forall x | x in nb ensures x in others + [row] {
      PrefixMembers(nb, sorted, x);
      assert x in multiset(sorted);
    }
    forall i, j | 0 <= i < j < |nb| && nb[i].userId == userId ensures nb[j].userId != userId {
      assert nb[i] in nb && nb[j] in nb;
      assert sorted[i] == row;
      UserRowOnce(others, row, sorted, i);
      assert sorted[j] == nb[j];
    }
  }

  /** The user's row, appended once to rows of other users, occurs once in any permutation. */
  lemma UserRowOnce(others: seq<LeaderRow>, row: LeaderRow, sorted: seq<LeaderRow>, i: int)
    requires row !in others
    requires multiset(sorted) == multiset(others + [row])
    requires 0 <= i < |sorted| && sorted[i] == row
    ensures forall j :: i < j < |sorted| ==> sorted[j] != row
  {
    var tail := sorted[i + 1..];
    assert sorted == sorted[..i] + [row] + tail;
    assert multiset(sorted) == multiset(sorted[..i]) + multiset{row} + multiset(tail);
    assert multiset(others + [row]) == multiset(others) + multiset{row};
    assert multiset(others)[row] == 0;
    assert multiset(sorted)[row] == 1;
    assert multiset(sorted)[row] == multiset(sorted[..i])[row] + 1 + multiset(tail)[row];
    assert multiset(tail)[row] == 0;
    forall j | i < j < |sorted| ensures sorted[j] != row {
      assert sorted[j] == tail[j - i - 1];
      assert sorted[j] in multiset(tail);
    }
  }

  /**
   * "Keep top 10": the updated board is drawn from the other users' rows plus the new row, no row
   * more often than there, and every row kept has at least the points of every row cut.
   */
  lemma UpdatedBoardKeepsTop(board: seq<LeaderRow>, userId: string, userName: string, points: int)
    ensures var nb := UpdatedBoard(board, userId, userName, points);
            var candidates := multiset(WithoutUser(board, userId) + [LeaderRow(userId, userName, points)]);
            && multiset(nb) <= candidates
            && (forall x, y :: x in nb && y in candidates - multiset(nb) ==> x.points >= y.points)
  {
    MorePointsIsTotalPreorder();
    var candidates := WithoutUser(board, userId) + [LeaderRow(userId, userName, points)];
    var sorted := SortBy(candidates, MorePoints);
    var nb := TopTen(sorted);
    assert forall i, j :: 0 <= i < j < |sorted| ==> sorted[i].points >= sorted[j].points;
    PrefixBeatsRest(sorted, |nb|);
  }

  /** A prefix of rows sorted by points, non-increasing, is the top of the rows: no row after it has more points. */
  lemma PrefixBeatsRest(sorted: seq<LeaderRow>, k: nat)
    requires forall i, j :: 0 <= i < j < |sorted| ==> sorted[i].points >= sorted[j].points
    requires k <= |sorted|
    ensures multiset(sorted[..k]) <= multiset(sorted)
    ensures forall x, y :: x in sorted[..k] && y in multiset(sorted) - multiset(sorted[..k]) ==> x.points >= y.points
  {
    var top, cut := sorted[..k], sorted[k..];
    assert sorted == top + cut;
    assert multiset(sorted) - multiset(top) == multiset(cut);
    forall x, y | x in top && y in multiset(cut) ensures x.points >= y.points {
      var i :| 0 <= i < |top| && top[i] == x;
      var j :| 0 <= j < |cut| && cut[j] == y;
      assert sorted[i] == x && sorted[k + j] == y;
    }
  }

  /**
   * With fewer than ten other users on the board the user's new row is kept; when it is cut, the
   * board is full and every row on it has at least the user's points.
   */
  lemma UpdatedBoardKeepsUser(board: seq<LeaderRow>, userId: string, userName: string, points: int)
    ensures var nb := UpdatedBoard(board, userId, userName, points);
            var row := LeaderRow(userId, userName, points);
            && (|WithoutUser(board, userId)| < 10 ==> row in nb)
            && (row !in nb ==> |nb| == 10 && forall x :: x in nb ==> x.points >= points)
  {
    MorePointsIsTotalPreorder();
    var others := WithoutUser(board, userId);
    var row := LeaderRow(userId, userName, points);
    var sorted := SortBy(others + [row], MorePoints);
    var nb := TopTen(sorted);
    assert row in multiset(sorted) by {
      assert row in multiset(others + [row]);
    }
    var k :| 0 <= k < |sorted| && sorted[k] == row;
    if k < |nb| {
      assert nb[k] == row;
    } else {
      forall x | x in nb ensures x.points >= points {
        var i :| 0 <= i < |nb| && nb[i] == x;
        assert sorted[i] == x;
      }
    }
  }
}

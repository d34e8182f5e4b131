# Vozes Escolar: a verified model of the wellbeing core

Vozes Escolar is a school wellbeing dashboard. Students log a weekly mood on a five-point scale
and may add a note. Teachers and psychologists read per-student reports and a weekly cohort
report, leave notes and comments, and chat. A gamification layer gives students points, badges,
a leaderboard, rewards to buy and three mini-games. Everything lives in the browser's
`localStorage`.

This Dafny project models that core:

- **Report engine** (`Reports`, over `Emotions` and `Auth`). Per student, it classifies the mood
  history into a trend and an alert level. A fixed chain of seven rules then adds problem areas
  and recommendations. For the cohort, it computes statistics and insights and sorts the
  students by priority.
- **Storage-backed libraries** (`Emotions`, `Gamification`, `Rewards`, `Games`, `Chat`,
  `SupportNotes`, `TeacherComments`). Each keeps lists under keys of one shared `LocalStorage`
  object (module `Storage`). That object has the enumeration order of its keys and a map from
  key to parsed value.
  - Writers are methods. Their contracts state the whole new storage map, so "exactly one
    element appended, nothing else written" is stated outright.
  - Readers are functions.
- **Mini-games** (`MemoryGames`, `BreathingGames`, `EmotionQuizzes`). Each React component is a
  class whose fields are its state. Each handler, and each effect, is a method. The completion
  step the three games share (save the score, then credit the reward) is modelled once, in
  `GameCompletion`.

Support modules:

- `Records` holds the stored record types.
- `Sorting` is a stable insertion sort by a total preorder, standing in for `Array.prototype.sort`.
- `Builtins` models the JavaScript built-ins the code relies on: negative `slice` indices,
  `Math.round`, `reverse`, `toLowerCase`, `trim`, `includes`, `startsWith`, `join` and
  `toString`.
- `Wrappers` holds `Option`.

Behaviour worth knowing, which the contracts make explicit:

- **Trend window.** The trend compares the mean of the last three entries with the mean of
  `entries.slice(-6, -3)`. That older window is non-empty as soon as there are four entries, so
  the trend is forced to stable only with at most three entries.
  `Reports.TrendWindows` and `Reports.StableWhenFew` state this.
- **Game completion resets points.** Completing a game calls `updateUserProgress(user, 0)`. That
  call overwrites the stored points with 0, and the game reward is then added. The stored points
  therefore become exactly the reward; badges, streak and last entry date are kept.
  `GameCompletion.CompleteGame` states this.
- **Averages are not weekly.** The "weekly" averages are means over every stored entry.

## Model

| member | source | states |
|---|---|---|
| Builtins.NatToString | lib/support-notes.ts:19 | the id of a clock reading is a non-empty string of decimal digits whose decimal value is that reading |
| Auth.MockUsers | lib/auth.ts:10-15 | the roster has four users with distinct ids, and exactly the first two are students |
| Auth.Students | lib/reports.ts:159 | the student filter keeps exactly the roster's student-role users |
| Auth.FindStudent | lib/reports.ts:31 | the lookup finds a roster user with that id and the student role, and finds nothing iff no such user exists |
| Storage.LocalStorage.SetItem | lib/support-notes.ts:31 | the value is stored under the key and no other key's value changes; the key list stays duplicate-free and lists exactly the stored keys |
| Storage.GatheredLength | lib/support-notes.ts:46-54 | the gathered list is as long as all lists under prefixed keys together |
| Storage.GatheredIncludes | lib/support-notes.ts:46-54 | every element stored under an enumerated prefixed key is gathered |
| Storage.GatheredIgnoresOtherKeys | lib/support-notes.ts:48 | rewriting a key without the prefix does not change what is gathered |
| Emotions.EmotionEmojis | lib/emotions.ts:12-18 | the scale has five options with values 1 to 5 in order |
| Emotions.StoredEntries | lib/emotions.ts:36-37 | with nothing stored the log is empty; otherwise the stored entries |
| Emotions.EntriesOf | lib/emotions.ts:38 | the per-user filter holds exactly the log's entries with that user id |
| Emotions.EntriesOfAppend | lib/emotions.ts:38 | the filter keeps stored order: it distributes over concatenation |
| Emotions.SelectEntries | lib/emotions.ts:34-41 | with no id (or the empty id) the whole log; otherwise exactly that user's entries |
| Emotions.GetEmotionEntries | lib/emotions.ts:34-41 | with no id (or the empty id) the whole stored log; otherwise exactly the stored entries of that user |
| Emotions.SaveEmotionEntry | lib/emotions.ts:26-32 | exactly one entry is appended at the end of the log, and no other slot is written |
| Emotions.SavedEntryVisible | lib/emotions.ts:26-41 | after a save, the author's view gains exactly that entry at its end and other users' views are unchanged |
| Emotions.WeeklyAverage | lib/emotions.ts:43-47 | the average is 0 for no entries; otherwise the average times the count is the sum |
| Emotions.AverageBounds | lib/emotions.ts:43-47 | the mean of a non-empty list lies within any bounds on its values, so in [1, 5] on the scale |
| Emotions.HasEntryThisWeek | lib/emotions.ts:49-56 | true iff some stored entry of the user (any user for the empty id) carries the given week and year |
| Gamification.AvailableBadges | lib/gamification.ts:18-59 | five badges with distinct ids, of which only the last is special |
| Gamification.GetUserProgress | lib/gamification.ts:61-74 | the stored progress; with nothing stored, zero points, no badges, no streak |
| Gamification.Awarded | lib/gamification.ts:83-89 | the award loop keeps the held badges in front, and every id it adds is that of an earned badge of the catalogue |
| Gamification.AwardedSpec | lib/gamification.ts:83-89 | the award loop keeps the held badges in front, adds exactly the earned entries badges, and never adds an id twice |
| Gamification.UpdateUserProgress | lib/gamification.ts:76-97 | points become 10 per entry, overwriting what was stored; badges become the award loop's result; streak and last date are kept; only the progress slot is written |
| Gamification.UpdatedBadges | lib/gamification.ts:83-89 | after an update every entries badge within reach is held, held badges are kept, and the special badge is never handed out |
| Gamification.TwelveEntriesAllBadges | lib/gamification.ts:76-89 | twelve entries from scratch award the four entries badges in catalogue order |
| Gamification.GetLeaderboard | lib/gamification.ts:99-105 | with nothing stored the board is empty; otherwise the stored rows |
| Gamification.WithoutUser | lib/gamification.ts:112 | the filter keeps exactly the rows of other users |
| Gamification.TopTen | lib/gamification.ts:121 | the cut is the prefix of length min(10, n) |
| Gamification.UpdatedBoard | lib/gamification.ts:111-121 | the written board has min(10, other users' rows + 1) rows, so never more than ten |
| Gamification.UpdateLeaderboard | lib/gamification.ts:107-125 | the leaderboard slot becomes the updated board of the old board, and nothing else is written |
| Gamification.UpdatedBoardSpec | lib/gamification.ts:111-121 | the new board is sorted by points, non-increasing, and has at most ten rows; the user has at most one row, carrying the new points; every other row comes from the old board; it keeps the top ten: no row occurs more often than among the other users' rows plus the new one, and no row cut has more points than a row kept |
| Gamification.UpdatedBoardRows | lib/gamification.ts:111-121 | the new board is ordered by points, holds the user at most once and with the new points, and its other rows come from the old board |
| Gamification.UpdatedBoardKeepsTop | lib/gamification.ts:118-121 | the kept rows are a sub-multiset of the candidates, and each has at least the points of every candidate cut |
| Gamification.PrefixBeatsRest | lib/gamification.ts:118-121 | a prefix of a board sorted by points is drawn from it and beats every row after it |
| Gamification.UpdatedBoardKeepsUser | lib/gamification.ts:111-121 | with fewer than ten other users the user's row is kept; if it is cut, the board is full and every row has at least the user's points |
| Rewards.AvailableRewards | lib/rewards.ts:19-123 | eleven items with distinct ids, positive costs and positive stock |
| Rewards.GetUserPurchases | lib/rewards.ts:125-131 | with nothing stored for the student, no purchases; otherwise the stored purchases |
| Rewards.PurchaseItem | lib/rewards.ts:133-153 | refused iff the points do not cover the cost, and then nothing is written; otherwise exactly one purchase with the item's id, name and cost is appended, and the total spent grows by exactly the cost |
| Rewards.Total | lib/rewards.ts:155-158 | no purchases total 0 and one purchase totals its cost (with Rewards.TotalAppend this fixes the sum) |
| Rewards.GetTotalSpent | lib/rewards.ts:155-158 | the total spent is the sum of the costs of the stored purchases: 0 with nothing stored, never negative with non-negative costs |
| Rewards.TotalAppend | lib/rewards.ts:155-158 | the total of two runs of purchases is the sum of their totals |
| Rewards.TotalBounds | lib/rewards.ts:155-158 | no purchases total 0; with non-negative costs the total is non-negative and covers every single cost |
| Games.AvailableGames | lib/games.ts:17-50 | four games with distinct ids and positive rewards |
| Games.GetGameScores | lib/games.ts:67-73 | with nothing stored for the student, no scores; otherwise the stored list |
| Games.SaveGameScore | lib/games.ts:52-65 | exactly one record with the given user, game, score and date is appended, and only the student's scores slot is written |
| Games.ScoresOf | lib/games.ts:77 | the filter keeps exactly the scores of the game |
| Games.MaxScore | lib/games.ts:78 | the maximum is a recorded score that no other exceeds |
| Games.BestScore | lib/games.ts:75-79 | the best score is 0 when the game has no score; otherwise it is a score of the game that no score of the game beats |
| Games.GetBestScore | lib/games.ts:75-79 | 0 when no stored score belongs to the game (in particular with nothing stored); otherwise a stored score of the game that no stored score of the game beats |
| Games.HasPlayedToday | lib/games.ts:81-85 | false with nothing stored; otherwise true iff some stored score of the game is dated on the day containing the clock reading |
| Games.OtherGamesIgnored | lib/games.ts:75-85 | a score of another game changes neither the game's scores, nor its best score, nor whether it was played on a day |
| Games.SavedScoreCounts | lib/games.ts:52-85 | a score just saved makes the game played today and the best score at least that score, and never lowers an earlier best |
| Chat.MessagesOf | lib/chat.ts:17 | the filter keeps exactly the messages the user sent or receives |
| Chat.GetChatMessages | lib/chat.ts:12-21 | the view is a permutation of the user's messages, holds exactly them, and is ordered by timestamp, oldest first |
| Chat.SendChatMessage | lib/chat.ts:23-30 | exactly one message is appended to the log, and no other slot is written |
| Chat.MarkOne | lib/chat.ts:37-41 | marking one message changes only its read flag, which ends up set iff it was set or the message goes from the sender to the user |
| Chat.MarkedRead | lib/chat.ts:37-41 | marking keeps the length of the log |
| Chat.MarkMessagesAsRead | lib/chat.ts:32-45 | with no stored log nothing changes; otherwise the log is replaced by its marked copy, and no other slot is written |
| Chat.MarkedReadSpec | lib/chat.ts:37-41 | the read flag is set on exactly the messages from the sender to the user; no other message and no other field changes |
| Chat.MarkedReadIdempotent | lib/chat.ts:37-41 | marking twice is marking once |
| Chat.MarkedReadAppend | lib/chat.ts:37-41 | marking works message by message: marking a concatenation marks each part |
| Chat.MarkedReadKeepsConversations | lib/chat.ts:17-41 | any user's conversation after marking is that conversation before marking, marked the same way: no message is added, removed or reordered |
| SupportNotes.NotesIn | lib/support-notes.ts:35-41 | with nothing stored for the student, no notes |
| SupportNotes.GetSupportNotes | lib/support-notes.ts:35-41 | with nothing stored for the student, no notes; otherwise the stored list |
| SupportNotes.AddSupportNote | lib/support-notes.ts:11-33 | exactly one note, with the given student, psychologist, text and type, is appended to that student's list, and nothing else is written |
| SupportNotes.NotesKeyInjective | lib/support-notes.ts:31-37 | two students share a notes key iff they are the same student |
| SupportNotes.OtherStudentsUnchanged | lib/support-notes.ts:31 | writing one student's notes leaves every other student's notes as they were |
| SupportNotes.NotesKeyPrefixed | lib/support-notes.ts:31-48 | every notes key carries the prefix that the all-students view scans for |
| SupportNotes.GetAllSupportNotes | lib/support-notes.ts:43-58 | the view is a permutation of the notes under every prefixed key, newest first |
| SupportNotes.StoredNoteListed | lib/support-notes.ts:43-58 | a note stored for any student appears in the all-students view |
| SupportNotes.ListedCount | lib/support-notes.ts:43-58 | the view holds as many notes as the prefixed lists together |
| TeacherComments.CommentsIn | lib/teacher-comments.ts:44-50 | with nothing stored for the student, no comments |
| TeacherComments.GetTeacherComments | lib/teacher-comments.ts:44-50 | with nothing stored for the student, no comments; otherwise the stored list |
| TeacherComments.AddTeacherComment | lib/teacher-comments.ts:14-42 | exactly one comment, with the given fields (shared with no one unless a list is passed), is appended to that student's list, and nothing else is written |
| TeacherComments.CommentsKeyInjective | lib/teacher-comments.ts:40-46 | two students share a comments key iff they are the same student |
| TeacherComments.OtherStudentsUnchanged | lib/teacher-comments.ts:40 | writing one student's comments leaves every other student's comments as they were |
| TeacherComments.CommentsKeyPrefixed | lib/teacher-comments.ts:40-57 | every comments key carries the prefix that the all-students view scans for |
| TeacherComments.GetAllTeacherComments | lib/teacher-comments.ts:52-67 | the view is a permutation of the comments under every prefixed key, newest first |
| TeacherComments.StoredCommentListed | lib/teacher-comments.ts:52-67 | a comment stored for any student appears in the all-students view |
| TeacherComments.ListedCount | lib/teacher-comments.ts:52-67 | the view holds as many comments as the prefixed lists together |
| TeacherComments.SupportNotesNotListed | lib/teacher-comments.ts:57 | adding a support note, under a new or an existing key, leaves the all-students comment view as it was |
| Reports.RecommendationsFor | lib/reports.ts:76-132 | each rule pushes one or two recommendations, never one of the positive pair |
| Reports.NonBlankNotes | lib/reports.ts:113 | the note filter keeps at most one note per entry; every note kept is a non-blank note of an entry, and every non-blank note of an entry is kept |
| Reports.NonBlankNotesAppend | lib/reports.ts:113 | the filter keeps entry order: it distributes over concatenation |
| Reports.TrendWindows | lib/reports.ts:53-56 | the two negative slices are the last three entries and entries[max(0, n-6) .. n-3]; the older one is non-empty iff n > 3 |
| Reports.TrendOf | lib/reports.ts:51-62 | the trend is improving iff the entries improve and declining iff they decline (more than three entries and the recent mean above, or below, the older one by more than 0.5) |
| Reports.ComputeTrend | lib/reports.ts:51-62 | the trend is improving iff there are more than three entries and the recent mean exceeds the older one by more than 0.5; it is declining iff the recent mean is below the older one by more than 0.5 |
| Reports.LastTwoSlice | lib/reports.ts:66-67 | `slice(-2)` has two elements, both at most 2, exactly when the last two entries are low |
| Reports.AlertOf | lib/reports.ts:64-71 | the alert is critical iff the last two entries are low, and warning iff they are not and the mean is below 2.5 |
| Reports.ComputeAlert | lib/reports.ts:64-71 | the alert is critical iff the last two entries are both at most 2; otherwise warning iff the mean is below 2.5; otherwise none |
| Reports.RecentOf | lib/reports.ts:48 | the recent list has min(5, n) entries, the most recent first |
| Reports.RecentEmotions | lib/reports.ts:48 | `slice(-5).reverse()` computes that recent list |
| Reports.MostlyLowIff | lib/reports.ts:77-80 | the low-percentage test holds iff more than half of the entries are at most 2 |
| Reports.FiredBelowSpec | lib/reports.ts:76-132 | the first k rules raise exactly the areas of rank below k whose rule fires, in rule order |
| Reports.FiredAreasSpec | lib/reports.ts:76-132 | the chain raises exactly the areas whose rule fires, each once, in rule order |
| Reports.LowRule | lib/reports.ts:76-84 | the low rule appends its area and two recommendations iff more than 50% of the entries are low |
| Reports.DecliningRule | lib/reports.ts:86-91 | the worsening rule appends its area and two recommendations iff the trend is declining |
| Reports.EngagementRule | lib/reports.ts:93-98 | the engagement rule appends its area and two recommendations iff there are fewer than three entries |
| Reports.SwingRule | lib/reports.ts:100-110 | the swing rule appends its area and two recommendations iff two adjacent entries differ by 3 or more |
| Reports.ScoreRules | lib/reports.ts:73-110 | the four value rules, run in order from empty lists, leave the chain state after rank 4 |
| Reports.NoteRulesFire | lib/reports.ts:113-132 | with recent notes, each keyword rule fires exactly on the searches the code makes in the joined lower-cased notes |
| Reports.NoNotesNoKeywords | lib/reports.ts:113-114 | without a non-blank note among the last three entries, no keyword rule fires |
| Reports.IsolationRule | lib/reports.ts:117-120 | "sozinho" or "isolado" in the recent notes appends the isolation area and its recommendation |
| Reports.SleepRule | lib/reports.ts:122-125 | "cansado" or "sono" appends the sleep area and its recommendation |
| Reports.AcademicRule | lib/reports.ts:127-131 | "prova", "nota" or "dificuldade" appends the academic area and its two recommendations |
| Reports.NoteRules | lib/reports.ts:112-132 | the keyword rules complete the chain: the lists are those of all seven rules |
| Reports.AnalysedReport | lib/reports.ts:140-151 | the report on a student with entries is assembled from the average, last entry, trend, alert, recent list, chain lists and positive pair |
| Reports.ReportOf | lib/reports.ts:29-152 | the report is always about the requested student id |
| Reports.ReportOfSpec | lib/reports.ts:29-152 | an unknown id, a non-student or a student without entries gets the neutral report (named "Aluno Desconhecido" for an unknown id); otherwise every field is tied to the student's chronological entries |
| Reports.GenerateStudentReport | lib/reports.ts:29-152 | the method's report is the specified report on the stored log |
| Reports.RecommendationsCoverProblems | lib/reports.ts:73-132 | the rules push between one and two recommendations per problem area |
| Reports.RulesNeverPraise | lib/reports.ts:76-132 | no rule pushes either recommendation of the positive pair |
| Reports.PositivePairIff | lib/reports.ts:134-138 | the positive pair is present iff the alert is none and the mean is at least 4, and then it closes the list; there are never fewer recommendations than problem areas |
| Reports.StableWhenFew | lib/reports.ts:53-62 | with at most three entries the trend is stable |
| Reports.SingleLowEntryWarns | lib/reports.ts:64-98 | a lone entry of 1 without a note gives a warning, not a critical alert, with the low and engagement areas and their four recommendations |
| Reports.ProblemAreasDetermined | lib/reports.ts:76-132 | the report's problem areas are the one rule-ordered list of the areas whose rule fires |
| Reports.RuleOrderedUnique | lib/reports.ts:76-132 | two rule-ordered lists with the same areas are equal |
| Reports.ReportAverageOnScale | lib/reports.ts:47 | a report with entries on the scale has its average in [1, 5] |
| Reports.AlertRank | lib/reports.ts:218 | the alert order is critical 0, warning 1, none 2 |
| Reports.PriorityIsTotalPreorder | lib/reports.ts:216-224 | the comparator is a total preorder, so the sort is well defined |
| Reports.GenerateReports | lib/reports.ts:215 | the map yields the report on each student, in roster order |
| Reports.ReportsOfSpec | lib/reports.ts:215 | the mapped list holds one report per student, at the student's position |
| Reports.ReportsPermuted | lib/reports.ts:214-224 | reordering the reports keeps each one the report on its own student |
| Reports.ReportsByPriority | lib/reports.ts:214-224 | one report per given student (their ids are a permutation of the students'), each the specified report, sorted critical first and then by rising mean; reports already in that order keep the given order |
| Sorting.SortBySorted | lib/reports.ts:216-224 | the stable sort leaves a list that is already ordered, ties included, exactly as it is |
| Reports.SortByPriority | lib/reports.ts:216-224 | the sort yields a permutation ordered by priority, and leaves a list already in order unchanged (stability) |
| Reports.GetAllStudentReports | lib/reports.ts:212-225 | one report per student of the roster (their ids are a permutation of the students'), each the specified report, sorted critical first and then by rising mean; when the roster-order reports are already in that order, ties included, they are returned in roster order |
| Reports.Percentage | lib/reports.ts:167-168 | a percentage lies in [0, 100], is 0 with nothing to count, and otherwise times the total gives 100 times the count |
| Reports.PercentagesSum | lib/reports.ts:165-168 | two disjoint counts never add up to more than 100% |
| Reports.PositiveAndLowDisjoint | lib/reports.ts:165-166 | no entry is both positive and low |
| Reports.UserIds | lib/reports.ts:162 | the active set holds exactly the user ids with an entry, and is no larger than the log |
| Reports.CriticalIff | lib/reports.ts:172-173 | a report is critical iff its student is on the roster and has two low entries last |
| Reports.IsCriticalReport | lib/reports.ts:172-173 | the per-student test answers whether that student is critical |
| Reports.CountCriticalCases | lib/reports.ts:170-174 | the loop counts the critical students of the roster |
| Reports.TierInsight | lib/reports.ts:179-185 | the first insight is always one of the three wellbeing tiers |
| Reports.InsightsFor | lib/reports.ts:177-197 | one to four insights, the first being the tier chosen by the mean and no later one a tier |
| Reports.InsightsShape | lib/reports.ts:177-197 | the insights are one tier message chosen by the mean, then the critical, negative and positive messages exactly when their thresholds are passed, in that order: 1 to 4 insights |
| Reports.WeeklyInsights | lib/reports.ts:177-197 | the pushes compute those insights |
| Reports.GenerateWeeklyReport | lib/reports.ts:154-210 | student count, active students (at most the number of entries), mean over every entry, percentages (summing to at most 100), critical cases (at most the student count) and insights as stated above |
| GameCompletion.KeysApart | components/games/memory-game.tsx:47-52 | a scores key and a progress key never coincide |
| GameCompletion.NothingAwardedAtZero | components/games/memory-game.tsx:49 | an update with zero entries awards no badge |
| GameCompletion.CreditReward | components/games/memory-game.tsx:49-53 | the stored progress becomes the old progress with its points set to exactly the reward |
| GameCompletion.CompleteGame | components/games/memory-game.tsx:46-55 | the score is appended to the student's scores, the student's points become exactly the reward with everything else in the progress kept, and the new storage map is the old one with exactly those two slots rewritten |
| MemoryGames.Deck | components/games/memory-game.tsx:18 | ten cards: five distinct faces, each repeated five places later |
| MemoryGames.MemoryScore | components/games/memory-game.tsx:46 | the score lies in [10, 100] and is 100 - 5 × moves up to 18 moves |
| MemoryGames.MemoryScoreMonotone | components/games/memory-game.tsx:46 | more moves never score more, and from 18 moves on the score stays at 10 |
| MemoryGames.FirstCardKeeps | components/games/memory-game.tsx:68-72 | turning a first card keeps the state consistent |
| MemoryGames.PairMatchKeeps | components/games/memory-game.tsx:32-40 | matching a pair keeps the state consistent: matched indices stay distinct, in pairs of equal faces, at most two per move |
| MemoryGames.MismatchKeeps | components/games/memory-game.tsx:32-40 | a mismatched pair left face up keeps the state consistent |
| MemoryGames.MemoryGame.constructor | components/games/memory-game.tsx:21-25 | the initial state: no cards, nothing turned or matched, no moves |
| MemoryGames.MemoryGame.ShuffleCards | components/games/memory-game.tsx:59-66 | the cards are the given order of the deck, and flips, matches, moves and completion are reset |
| MemoryGames.MemoryGame.HandleCardClick | components/games/memory-game.tsx:31-72 | a refused click changes nothing; a first card is turned; a second card costs one move and either joins the first in the matched cards (flips cleared) or stays up with it |
| MemoryGames.MemoryGame.HideMismatch | components/games/memory-game.tsx:38 | the face-up cards are turned back and nothing else changes |
| MemoryGames.MemoryGame.CheckCompletion | components/games/memory-game.tsx:44-57 | completion happens iff every card is matched and there are cards; it then appends the score for the moves made and sets the points to the reward, rewriting only those two slots; otherwise storage is untouched |
| MemoryGames.CompleteMatchesAll | components/games/memory-game.tsx:45 | as many matched indices as cards means every card is matched and none is face up; a full deck then scores at most 75 |
| BreathingGames.Tick | components/games/breathing-game.tsx:31-46 | with more than a second left only the timer counts down; otherwise the next phase starts with a full timer, and a cycle is counted only when an exhale ends |
| BreathingGames.TickKeepsTimer | components/games/breathing-game.tsx:22-46 | the timer stays between 1 and 4 |
| BreathingGames.TicksAdd | components/games/breathing-game.tsx:30-47 | m ticks followed by n ticks are m + n ticks |
| BreathingGames.FourTicks | components/games/breathing-game.tsx:31-46 | a phase started with a full timer ends on its fourth tick |
| BreathingGames.OneCycle | components/games/breathing-game.tsx:31-46 | twelve ticks from the start of an inhale bring the next inhale and exactly one more cycle |
| BreathingGames.CyclesOverTime | components/games/breathing-game.tsx:31-46 | uninterrupted play counts one cycle every twelve ticks |
| BreathingGames.SixtySeconds | components/games/breathing-game.tsx:25-46 | a fresh game reaches the five target cycles after sixty ticks |
| BreathingGames.BreathingGame.constructor | components/games/breathing-game.tsx:19-23 | the initial state: stopped, inhale, no cycles, timer 4, not complete |
| BreathingGames.BreathingGame.TogglePlay | components/games/breathing-game.tsx:146 | play and pause flip, nothing else changes |
| BreathingGames.BreathingGame.OnTick | components/games/breathing-game.tsx:27-50 | one interval callback performs one tick of phase, timer and cycles |
| BreathingGames.BreathingGame.CheckCompletion | components/games/breathing-game.tsx:52-65 | from five cycles on, play stops, a score of 100 is appended, the points are set to the reward (only those two slots rewritten) and the game is complete; before that nothing changes |
| BreathingGames.BreathingGame.HandleReset | components/games/breathing-game.tsx:67-73 | reset restores stopped, inhale, no cycles, timer 4, not complete |
| EmotionQuizzes.Questions | components/games/emotion-quiz.tsx:18-44 | five questions of four options each, whose right option is a valid index |
| EmotionQuizzes.QuizScore | components/games/emotion-quiz.tsx:67 | the rounded percentage is twenty points per right answer, in [0, 100] |
| EmotionQuizzes.RightCount | components/games/emotion-quiz.tsx:58-60 | there are never more right answers than answers |
| EmotionQuizzes.SavedScoreAsWritten | components/games/emotion-quiz.tsx:67 | as written, the saved score is twenty points per right answer before the last one, at most 80, whatever the last answer was |
| EmotionQuizzes.SavedScoreAsWrittenLosesLastAnswer | components/games/emotion-quiz.tsx:57-77 | as written, a right last answer is saved twenty points below the score shown: all five right saves 80 and shows 100 |
| EmotionQuizzes.SavedScore | components/games/emotion-quiz.tsx:85 | the corrected saved score lies in [0, 100] |
| EmotionQuizzes.SavedScoreMatchesDisplay | components/games/emotion-quiz.tsx:85 | the corrected saved score equals the score shown, twenty points per right answer of the whole quiz |
| EmotionQuizzes.EmotionQuiz.constructor | components/games/emotion-quiz.tsx:47-51 | the initial state: first question, no selection, no right answers, result hidden |
| EmotionQuizzes.EmotionQuiz.HandleAnswer | components/games/emotion-quiz.tsx:53-55 | an option click selects it unless the result is shown (the option buttons are disabled then, line 130), and changes nothing else |
| EmotionQuizzes.EmotionQuiz.HandleShowResult | components/games/emotion-quiz.tsx:80-82 | the result is revealed only when an option is selected (the button is disabled otherwise, line 157) |
| EmotionQuizzes.EmotionQuiz.HandleNext | components/games/emotion-quiz.tsx:57-78 | a right answer is counted; before the last question the quiz moves on with a clear selection and storage untouched; on the last one the question, selection and result flag stay, the score computed from the count before this answer is appended, the points are set to the reward (only those two slots rewritten) and the quiz is complete |
| EmotionQuizzes.FinishedQuizScore | components/games/emotion-quiz.tsx:85 | a finished quiz scores in [0, 100], and 100 when every answer was right |

## Left out

- Browser plumbing is not modelled: the JSON text in `localStorage`, `JSON.parse`/`stringify` and the `typeof window` guards. Storage holds parsed values, and only the client branch is modelled.
- A slot holding a value of another shape than the one a library expects reads as absent.
- The session helpers of lib/auth.ts are not modelled; the roster `mockUsers` is a constant.
- Clocks are parameters, and timestamps and dates are integers (milliseconds). This covers `Date.now()`, `new Date()`, the ISO date strings and the `new Date(...).getTime()` comparisons. The ids built from `Date.now()` are the decimal clock reading.
- Games.HasPlayedToday: the calendar day is the timestamp divided by 86 400 000 (a UTC day). Local time zones are not modelled.
- `getWeekNumber` is not modelled. Emotions.HasEntryThisWeek takes the current week and year as parameters.
- Reports.GenerateWeeklyReport takes the week and year as parameters. The week-of-month computation from the clock is not modelled.
- Averages and percentages are exact `real`s. IEEE double rounding and `toFixed` display are not modelled.
- `toLowerCase` lowers ASCII letters only. Unicode case mapping is not modelled.
- `trim` knows the common JavaScript white-space characters only.
- The `Math.random` shuffle is not modelled. MemoryGames.MemoryGame.ShuffleCards takes any permutation of the deck.
- Timers are not modelled. The 1-second interval of the breathing game is the explicit method OnTick. The 1-second timeout that turns a mismatched pair back is the explicit method HideMismatch.
- React scheduling is not modelled: each handler and each effect is one method, and the effect that evaluates a pair runs right after the click that turned the second card.
- Rendering, animations, toasts and the `onComplete` callbacks are not modelled.
- The panel and dashboard components are not modelled, including their display rules: available points as points minus spent, and the purchase button disabled at stock 0.
- Storage.LocalStorage.SetItem: Web Storage leaves the enumeration order of keys to the browser. The model puts a new key last; this is a modelling choice, and the all-students views are specified up to permutation and then sorted, so no stated property depends on it.
- The item's stock is neither checked nor decremented by `purchaseItem`, and the model keeps it that way.
- EmotionQuizzes.EmotionQuiz.HandleNext saves the score as written (EmotionQuizzes.SavedScoreAsWritten). The intended score is EmotionQuizzes.SavedScore, proved equal to the score shown; see Findings.

## Findings

| source | as written | input that shows it | evidently intended | confidence | as-written member | corrected member |
|---|---|---|---|---|---|---|
| components/games/emotion-quiz.tsx:57-77 | on the last question `handleNext` schedules the increment of `correctAnswers` and computes the saved score from the old value in the same call, so a right last answer is not counted | all five answers right: the score saved is 80, while the completion screen (line 85) shows 100 | the saved score counts the last answer and equals the score shown | not executed | EmotionQuizzes.SavedScoreAsWrittenLosesLastAnswer | EmotionQuizzes.SavedScoreMatchesDisplay |

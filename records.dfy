/**
 * The records the libraries keep in browser storage (the TypeScript interfaces of lib/).
 * Timestamps, ISO strings in the source, are milliseconds since the epoch here; ids are
 * strings supplied by the caller (the source derives them from the clock).
 */
module Records {

  import opened Wrappers
  import opened Auth

  type Timestamp = int

  /** lib/emotions.ts `EmotionEntry`: one mood report, `emotion` on the 1..5 scale. */
  datatype EmotionEntry = EmotionEntry(
    id: string, userId: string, date: Timestamp, emotion: int, emoji: string,
    note: Option<string>, week: int, year: int)

  /** lib/gamification.ts `Badge` and `UserProgress`. */
  datatype BadgeType = EntriesBadge | StreakBadge | SpecialBadge

  datatype Badge = Badge(
    id: string, name: string, description: string, icon: string, requirement: int, kind: BadgeType)

  datatype UserProgress = UserProgress(
    userId: string, points: int, badges: seq<string>, streak: int, lastEntryDate: Option<string>)

  /** One row of the leaderboard kept under "vozes_leaderboard". */
  datatype LeaderRow = LeaderRow(userId: string, userName: string, points: int)

  /** lib/rewards.ts `RewardItem` and `UserPurchase`. */
  datatype RewardCategory = Educational | Sports | Wellness | SpecialReward

  datatype RewardItem = RewardItem(
    id: string, name: string, description: string, icon: string, cost: int,
    category: RewardCategory, stock: int)

  datatype UserPurchase = UserPurchase(
    userId: string, itemId: string, itemName: string, cost: int, date: Timestamp)

  /** lib/games.ts `Game` and `GameScore`. */
  datatype Difficulty = Easy | Medium | Hard

  datatype Game = Game(
    id: string, name: string, description: string, icon: string, pointsReward: int,
    difficulty: Difficulty)

  datatype GameScore = GameScore(userId: string, gameId: string, score: int, date: Timestamp)

  /** lib/chat.ts `ChatMessage`. */
  datatype ChatMessage = ChatMessage(
    id: string, senderId: string, senderName: string, senderRole: Role, recipientId: string,
    message: string, timestamp: Timestamp, read: bool)

  /** lib/support-notes.ts `SupportNote`. */
  datatype NoteType = Observation | Intervention | FollowUp

  datatype SupportNote = SupportNote(
    id: string, studentId: string, psychologistId: string, psychologistName: string,
    note: string, date: Timestamp, kind: NoteType)

  /** lib/teacher-comments.ts `TeacherComment`. */
  datatype AuthorRole = TeacherAuthor | PsychologistAuthor

  datatype CommentPriority = Low | MediumPriority | High

  datatype CommentCategory = Academic | Behavioral | Emotional | Social

  datatype TeacherComment = TeacherComment(
    id: string, studentId: string, authorId: string, authorName: string, authorRole: AuthorRole,
    comment: string, date: Timestamp, sharedWith: seq<string>, priority: CommentPriority,
    category: CommentCategory)
}

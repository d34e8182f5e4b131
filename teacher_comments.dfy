/**
 * lib/teacher-comments.ts: comments teachers and psychologists write about a student, kept
 * under "vozes_teacher_comments_<studentId>", and the newest-first view over all students.
 */
module TeacherComments {

  import opened Builtins
  import opened Records
  import opened Storage
  import opened Sorting
  import SupportNotes

  const CommentsPrefix: string := "vozes_teacher_comments_"

  function CommentsKey(studentId: string): string
  {
    CommentsPrefix + studentId
  }

  /** A slot read as a comment list (a slot of another shape holds none). */
  function CommentPart(v: Value): seq<TeacherComment>
  {
    if v.CommentList? then v.comments else []
  }

  /** The comments stored for the student in a storage map, or none. */
  function CommentsIn(items: map<string, Value>, studentId: string): (comments: seq<TeacherComment>)
    ensures CommentsKey(studentId) !in items ==> comments == []
  {
    var key := CommentsKey(studentId);
    if key in items then CommentPart(items[key]) else []
  }

  /** `getTeacherComments`. */
  function GetTeacherComments(st: LocalStorage, studentId: string): (comments: seq<TeacherComment>)
    reads st
    ensures CommentsKey(studentId) !in st.items ==> comments == []
    ensures CommentsKey(studentId) in st.items && st.items[CommentsKey(studentId)].CommentList? ==> comments == st.items[CommentsKey(studentId)].comments
  {
    CommentsIn(st.items, studentId)
  }

  /**
   * The comment `addTeacherComment` records at clock reading `now`: its id is the decimal clock
   * reading. Like the source, `sharedWith` defaults to the empty list.
   */
  function CommentOf(studentId: string, authorId: string, authorName: string, authorRole: AuthorRole,
                     comment: string, priority: CommentPriority, category: CommentCategory,
                     now: nat, sharedWith: seq<string> := []): TeacherComment
  {
    TeacherComment(NatToString(now), studentId, authorId, authorName, authorRole, comment, now,
                   sharedWith, priority, category)
  }

  /**
   * `addTeacherComment`: the comment is appended to the student's list and nothing else is written.
   * A call that leaves out `sharedWith` shares the comment with no one.
   */
  method AddTeacherComment(st: LocalStorage, studentId: string, authorId: string, authorName: string,
                           authorRole: AuthorRole, comment: string, priority: CommentPriority,
                           category: CommentCategory, now: nat, sharedWith: seq<string> := [])
    requires st.Valid()
    modifies st
    ensures st.Valid()
    ensures GetTeacherComments(st, studentId)
         == old(GetTeacherComments(st, studentId))
            + [CommentOf(studentId, authorId, authorName, authorRole, comment, priority, category, now, sharedWith)]
    ensures st.items == old(st.items)[CommentsKey(studentId) := CommentList(GetTeacherComments(st, studentId))]
  {
    var newComment := CommentOf(studentId, authorId, authorName, authorRole, comment, priority, category, now, sharedWith);
    var comments := GetTeacherComments(st, studentId);
    comments := comments + [newComment];
    st.SetItem(CommentsKey(studentId), CommentList(comments));
  }

  /** Distinct students have distinct keys. */
  lemma CommentsKeyInjective(a: string, b: string)
    ensures CommentsKey(a) == CommentsKey(b) <==> a == b
  {
    if CommentsKey(a) == CommentsKey(b) {
      assert a == CommentsKey(a)[|CommentsPrefix|..] == CommentsKey(b)[|CommentsPrefix|..] == b;
    }
  }

  /** Writing one student's comments leaves every other student's comments as they were. */
  lemma OtherStudentsUnchanged(items: map<string, Value>, studentId: string, v: Value, other: string)
    requires other != studentId
    ensures CommentsIn(items[CommentsKey(studentId) := v], other) == CommentsIn(items, other)
  {
    CommentsKeyInjective(studentId, other);
  }

  /** Every student's comments key carries the prefix that the all-students view scans for. */
  lemma CommentsKeyPrefixed(studentId: string)
    ensures StartsWith(CommentsKey(studentId), CommentsPrefix)
  {
    assert CommentsKey(studentId)[..|CommentsPrefix|] == CommentsPrefix;
  }

  /** The comparator of the all-students view: later dates first. */
  predicate NotEarlier(a: TeacherComment, b: TeacherComment)
  {
    a.date >= b.date
  }

  lemma NotEarlierIsTotalPreorder()
    ensures TotalPreorder(NotEarlier)
  {
  }

  /**
   * `getAllTeacherComments`: the comments under every enumerated key with the comments prefix,
   * concatenated in key order and then sorted newest first.
   */
  method GetAllTeacherComments(st: LocalStorage) returns (all: seq<TeacherComment>)
    ensures multiset(all) == multiset(Gathered(st.keys, st.items, CommentsPrefix, CommentPart))
    ensures forall i, j :: 0 <= i < j < |all| ==> all[i].date >= all[j].date
  {
    var allComments: seq<TeacherComment> := [];
    for i := 0 to |st.keys|
      invariant allComments == Gathered(st.keys[..i], st.items, CommentsPrefix, CommentPart)
    {
      var key := st.keys[i];
      assert st.keys[..i + 1][..i] == st.keys[..i];
      if StartsWith(key, CommentsPrefix) && key in st.items {
        allComments := allComments + CommentPart(st.items[key]);
      }
    }
    assert st.keys[..|st.keys|] == st.keys;
    NotEarlierIsTotalPreorder();
    all := SortBy(allComments, NotEarlier);
  }

  /** A comment stored for any student appears in the all-students view. */
  lemma StoredCommentListed(st: LocalStorage, studentId: string, c: TeacherComment, all: seq<TeacherComment>)
    requires st.Valid()
    requires c in CommentsIn(st.items, studentId)
    requires multiset(all) == multiset(Gathered(st.keys, st.items, CommentsPrefix, CommentPart))
    ensures c in all
  {
    var key := CommentsKey(studentId);
    var i :| 0 <= i < |st.keys| && st.keys[i] == key;
    CommentsKeyPrefixed(studentId);
    GatheredIncludes(st.keys, st.items, CommentsPrefix, CommentPart, i, c);
    assert c in multiset(all);
  }

  /** The all-students view holds as many comments as all prefixed keys together. */
  lemma ListedCount(st: LocalStorage, all: seq<TeacherComment>)
    requires multiset(all) == multiset(Gathered(st.keys, st.items, CommentsPrefix, CommentPart))
    ensures |all| == PrefixedLength(st.keys, st.items, CommentsPrefix, CommentPart)
  {
    GatheredLength(st.keys, st.items, CommentsPrefix, CommentPart);
    assert |all| == |multiset(all)|;
  }

  /** Adding a support note, whether or not its key is new, leaves the all-students comment view as it was. */
  lemma SupportNotesNotListed(ks: seq<string>, items: map<string, Value>, studentId: string, v: Value)
    ensures var k := SupportNotes.NotesKey(studentId);
            && Gathered(ks, items[k := v], CommentsPrefix, CommentPart) == Gathered(ks, items, CommentsPrefix, CommentPart)
            && Gathered(ks + [k], items[k := v], CommentsPrefix, CommentPart) == Gathered(ks, items, CommentsPrefix, CommentPart)
  {
    var k := SupportNotes.NotesKey(studentId);
    assert k[6] != CommentsPrefix[6];
    assert !StartsWith(k, CommentsPrefix);
    GatheredIgnoresOtherKeys(ks, items, CommentsPrefix, CommentPart, k, v);
    assert (ks + [k])[..|ks|] == ks;
  }
}

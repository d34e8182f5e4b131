/**
 * lib/support-notes.ts: the psychologist's notes on a student, kept under
 * "vozes_support_notes_<studentId>", and the newest-first view over all students.
 */
module SupportNotes {

  import opened Builtins
  import opened Records
  import opened Storage
  import opened Sorting

  const NotesPrefix: string := "vozes_support_notes_"

  function NotesKey(studentId: string): string
  {
    NotesPrefix + studentId
  }

  /** A slot read as a note list (a slot of another shape holds none). */
  function NotePart(v: Value): seq<SupportNote>
  {
    if v.NoteList? then v.notes else []
  }

  /** The notes stored for the student in a storage map, or none. */
  function NotesIn(items: map<string, Value>, studentId: string): (notes: seq<SupportNote>)
    ensures NotesKey(studentId) !in items ==> notes == []
  {
    var key := NotesKey(studentId);
    if key in items then NotePart(items[key]) else []
  }

  /** `getSupportNotes`. */
  function GetSupportNotes(st: LocalStorage, studentId: string): (notes: seq<SupportNote>)
    reads st
    ensures NotesKey(studentId) !in st.items ==> notes == []
    ensures NotesKey(studentId) in st.items && st.items[NotesKey(studentId)].NoteList? ==> notes == st.items[NotesKey(studentId)].notes
  {
    NotesIn(st.items, studentId)
  }

  /** The note `addSupportNote` records at clock reading `now`: its id is the decimal clock reading. */
  function NoteOf(studentId: string, psychologistId: string, psychologistName: string, note: string,
                  kind: NoteType, now: nat): SupportNote
  {
    SupportNote(NatToString(now), studentId, psychologistId, psychologistName, note, now, kind)
  }

  /** `addSupportNote`: the note is appended to the student's list and nothing else is written. */
  method AddSupportNote(st: LocalStorage, studentId: string, psychologistId: string, psychologistName: string,
                        note: string, kind: NoteType, now: nat)
    requires st.Valid()
    modifies st
    ensures st.Valid()
    ensures GetSupportNotes(st, studentId)
         == old(GetSupportNotes(st, studentId)) + [NoteOf(studentId, psychologistId, psychologistName, note, kind, now)]
    ensures st.items == old(st.items)[NotesKey(studentId) := NoteList(GetSupportNotes(st, studentId))]
  {
    var supportNote := NoteOf(studentId, psychologistId, psychologistName, note, kind, now);
    var notes := GetSupportNotes(st, studentId);
    notes := notes + [supportNote];
    st.SetItem(NotesKey(studentId), NoteList(notes));
  }

  /** Distinct students have distinct keys. */
  lemma NotesKeyInjective(a: string, b: string)
    ensures NotesKey(a) == NotesKey(b) <==> a == b
  {
    if NotesKey(a) == NotesKey(b) {
      assert a == NotesKey(a)[|NotesPrefix|..] == NotesKey(b)[|NotesPrefix|..] == b;
    }
  }

  /** Writing one student's notes leaves every other student's notes as they were. */
  lemma OtherStudentsUnchanged(items: map<string, Value>, studentId: string, v: Value, other: string)
    requires other != studentId
    ensures NotesIn(items[NotesKey(studentId) := v], other) == NotesIn(items, other)
  {
    NotesKeyInjective(studentId, other);
  }

  /** Every student's notes key carries the prefix that the all-students view scans for. */
  lemma NotesKeyPrefixed(studentId: string)
    ensures StartsWith(NotesKey(studentId), NotesPrefix)
  {
    assert NotesKey(studentId)[..|NotesPrefix|] == NotesPrefix;
  }

  /** The comparator of the all-students view: later dates first. */
  predicate NotEarlier(a: SupportNote, b: SupportNote)
  {
    a.date >= b.date
  }

  lemma NotEarlierIsTotalPreorder()
    ensures TotalPreorder(NotEarlier)
  {
  }

  /**
   * `getAllSupportNotes`: the notes under every enumerated key with the notes prefix,
   * concatenated in key order and then sorted newest first.
   */
  method GetAllSupportNotes(st: LocalStorage) returns (all: seq<SupportNote>)
    ensures multiset(all) == multiset(Gathered(st.keys, st.items, NotesPrefix, NotePart))
    ensures forall i, j :: 0 <= i < j < |all| ==> all[i].date >= all[j].date
  {
    var allNotes: seq<SupportNote> := [];
    for i := 0 to |st.keys|
      invariant allNotes == Gathered(st.keys[..i], st.items, NotesPrefix, NotePart)
    {
      var key := st.keys[i];
      assert st.keys[..i + 1][..i] == st.keys[..i];
      if StartsWith(key, NotesPrefix) && key in st.items {
        allNotes := allNotes + NotePart(st.items[key]);
      }
    }
    assert st.keys[..|st.keys|] == st.keys;
    NotEarlierIsTotalPreorder();
    all := SortBy(allNotes, NotEarlier);
  }

  /** A note stored for any student whose key is enumerated appears in the all-students view. */
  lemma StoredNoteListed(st: LocalStorage, studentId: string, n: SupportNote, all: seq<SupportNote>)
    requires st.Valid()
    requires n in NotesIn(st.items, studentId)
    requires multiset(all) == multiset(Gathered(st.keys, st.items, NotesPrefix, NotePart))
    ensures n in all
  {
    var key := NotesKey(studentId);
    var i :| 0 <= i < |st.keys| && st.keys[i] == key;
    NotesKeyPrefixed(studentId);
    GatheredIncludes(st.keys, st.items, NotesPrefix, NotePart, i, n);
    assert n in multiset(all);
  }

  /** The all-students view holds as many notes as all prefixed keys together. */
  lemma ListedCount(st: LocalStorage, all: seq<SupportNote>)
    requires multiset(all) == multiset(Gathered(st.keys, st.items, NotesPrefix, NotePart))
    ensures |all| == PrefixedLength(st.keys, st.items, NotesPrefix, NotePart)
  {
    GatheredLength(st.keys, st.items, NotesPrefix, NotePart);
    assert |all| == |multiset(all)|;
  }
}

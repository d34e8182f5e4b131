/**
 * lib/emotions.ts: the mood log kept under "vozes_emotions", its per-student view,
 * the mean used throughout the reports, and the once-a-week check.
 */
module Emotions {

  import opened Wrappers
  import opened Records
  import opened Storage

  const EmotionsKey: string := "vozes_emotions"

  datatype EmotionOption = EmotionOption(value: int, emoji: string, labelText: string, color: string)

  /** `emotionEmojis`: the five-point scale, values 1 through 5 in order. */
  function EmotionEmojis(): (scale: seq<EmotionOption>)
    ensures |scale| == 5
    ensures forall i :: 0 <= i < |scale| ==> scale[i].value == i + 1
  {
    [ EmotionOption(1, "😢", "Muito Triste", "text-red-500"),
      EmotionOption(2, "😟", "Triste", "text-orange-500"),
      EmotionOption(3, "😐", "Neutro", "text-yellow-500"),
      EmotionOption(4, "😊", "Feliz", "text-green-500"),
      EmotionOption(5, "😄", "Muito Feliz", "text-blue-500") ]
  }

  /** A well-formed entry carries a value of the scale. */
  predicate OnScale(e: EmotionEntry)
  {
    1 <= e.emotion <= 5
  }

  /** The whole stored log (`JSON.parse` of the slot, or [] when there is none). */
  function StoredEntries(st: LocalStorage): (entries: seq<EmotionEntry>)
    reads st
    ensures EmotionsKey !in st.items ==> entries == []
    ensures EmotionsKey in st.items && st.items[EmotionsKey].EmotionList? ==> entries == st.items[EmotionsKey].entries
  {
    if EmotionsKey in st.items && st.items[EmotionsKey].EmotionList? then st.items[EmotionsKey].entries else []
  }

  /** `allEntries.filter((e) => e.userId === userId)`. */
  function EntriesOf(all: seq<EmotionEntry>, userId: string): (r: seq<EmotionEntry>)
    ensures |r| <= |all|
    ensures forall e :: e in r <==> e in all && e.userId == userId
  {
    if all == [] then []
    else (if all[0].userId == userId then [all[0]] else []) + EntriesOf(all[1..], userId)
  }

  /** The filter keeps stored order: filtering a concatenation concatenates the filtered parts. */
  lemma {:induction false} EntriesOfAppend(a: seq<EmotionEntry>, b: seq<EmotionEntry>, userId: string)
    ensures EntriesOf(a + b, userId) == EntriesOf(a, userId) + EntriesOf(b, userId)
    decreases |a|
  {
    if a == [] {
      assert a + b == b;
    } else {
      assert (a + b)[0] == a[0];
      assert (a + b)[1..] == a[1..] + b;
      EntriesOfAppend(a[1..], b, userId);
    }
  }

  /**
   * `getEmotionEntries(userId?)` on a given log: with an id, that user's entries in stored
   * order; with no id (or the empty string, which JavaScript treats as false) the whole log.
   */
  function SelectEntries(all: seq<EmotionEntry>, userId: Option<string>): (r: seq<EmotionEntry>)
    ensures userId.None? || userId == Some("") ==> r == all
    ensures userId.Some? && userId.value != "" ==>
      forall e :: e in r <==> e in all && e.userId == userId.value
  {
    if userId.None? || userId.value == "" then all else EntriesOf(all, userId.value)
  }

  /**
   * `getEmotionEntries(userId?)` on the stored log: with no id (or the empty one) the whole log,
   * otherwise exactly the stored entries of that user.
   */
  function GetEmotionEntries(st: LocalStorage, userId: Option<string>): (r: seq<EmotionEntry>)
    reads st
    ensures forall e :: e in r ==> e in StoredEntries(st)
    ensures userId.None? || userId == Some("") ==> r == StoredEntries(st)
    ensures userId.Some? && userId.value != "" ==>
      forall e :: e in r <==> e in StoredEntries(st) && e.userId == userId.value
  {
    SelectEntries(StoredEntries(st), userId)
  }

  /** `saveEmotionEntry`: exactly one entry is appended to the log; no other slot changes. */
  method SaveEmotionEntry(st: LocalStorage, entry: EmotionEntry)
    requires st.Valid()
    modifies st
    ensures st.Valid()
    ensures StoredEntries(st) == old(StoredEntries(st)) + [entry]
    ensures st.items == old(st.items)[EmotionsKey := EmotionList(old(StoredEntries(st)) + [entry])]
  {
    var entries := StoredEntries(st);
    entries := entries + [entry];
    st.SetItem(EmotionsKey, EmotionList(entries));
  }

  /** After saving, the author's view gains exactly that entry at the end; other users' views are unchanged. */
  lemma SavedEntryVisible(before: seq<EmotionEntry>, entry: EmotionEntry, userId: string)
    ensures EntriesOf(before + [entry], userId)
         == EntriesOf(before, userId) + (if entry.userId == userId then [entry] else [])
  {
    EntriesOfAppend(before, [entry], userId);
  }

  function SumEmotions(entries: seq<EmotionEntry>): int
  {
    if entries == [] then 0 else SumEmotions(entries[..|entries| - 1]) + entries[|entries| - 1].emotion
  }

  /**
   * `getWeeklyAverage`: the mean emotion of the list (over the whole list, not one week), 0 when
   * empty; otherwise the number that, times the count, gives the sum.
   */
  function WeeklyAverage(entries: seq<EmotionEntry>): (mean: real)
    ensures entries == [] ==> mean == 0.0
    ensures entries != [] ==> mean * |entries| as real == SumEmotions(entries) as real
  {
    if |entries| == 0 then 0.0 else SumEmotions(entries) as real / |entries| as real
  }

  lemma {:induction false} SumBounds(entries: seq<EmotionEntry>, lo: int, hi: int)
    requires forall i :: 0 <= i < |entries| ==> lo <= entries[i].emotion <= hi
    ensures lo * |entries| <= SumEmotions(entries) <= hi * |entries|
    decreases |entries|
  {
    if entries != [] {
      var n := |entries|;
      var front := entries[..n - 1];
      SumBounds(front, lo, hi);
      assert lo * n == lo * (n - 1) + lo && hi * n == hi * (n - 1) + hi;
    }
  }

  /** s / n lies between lo and hi when lo * n <= s <= hi * n. */
  lemma MeanBetween(s: real, n: real, lo: real, hi: real)
    requires n > 0.0 && lo * n <= s <= hi * n
    ensures lo <= s / n <= hi
  {
    var q := s / n;
    assert q * n == s;
  }

  /** The mean of a non-empty list lies between any bounds on its values; on the scale, in [1, 5]. */
  lemma AverageBounds(entries: seq<EmotionEntry>, lo: int, hi: int)
    requires entries != []
    requires forall i :: 0 <= i < |entries| ==> lo <= entries[i].emotion <= hi
    ensures lo as real <= WeeklyAverage(entries) <= hi as real
  {
    SumBounds(entries, lo, hi);
    var n := |entries|;
    assert (lo * n) as real == lo as real * n as real;
    assert (hi * n) as real == hi as real * n as real;
    MeanBetween(SumEmotions(entries) as real, n as real, lo as real, hi as real);
  }

  /**
   * `hasEntryThisWeek`: some entry of the user carries the given week number and year.
   * The current week and year, computed from the clock in the source, are parameters.
   */
  function HasEntryThisWeek(st: LocalStorage, userId: string, currentWeek: int, currentYear: int): (r: bool)
    reads st
    ensures r <==> exists e :: e in StoredEntries(st) && (userId == "" || e.userId == userId)
                           && e.week == currentWeek && e.year == currentYear
  {
    exists e | e in GetEmotionEntries(st, Some(userId)) :: e.week == currentWeek && e.year == currentYear
  }
}

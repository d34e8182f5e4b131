/**
 * Browser `localStorage` as the libraries use it: string keys, in the order
 * `localStorage.key(i)` enumerates them, each holding one JSON document. The JSON
 * text itself is not modelled: a slot holds the parsed value, one of the shapes below.
 */
module Storage {

  import opened Records
  import opened Builtins

  datatype Value =
    | EmotionList(entries: seq<EmotionEntry>)
    | ProgressRecord(progress: UserProgress)
    | LeaderboardList(rows: seq<LeaderRow>)
    | PurchaseList(purchases: seq<UserPurchase>)
    | ScoreList(scores: seq<GameScore>)
    | MessageList(messages: seq<ChatMessage>)
    | NoteList(notes: seq<SupportNote>)
    | CommentList(comments: seq<TeacherComment>)

  class LocalStorage {
    /** `localStorage.key(i)` for i in 0..localStorage.length. */
    var keys: seq<string>
    /** `localStorage.getItem(k)`, parsed; a key outside the map reads as null. */
    var items: map<string, Value>

    ghost predicate Valid()
      reads this
    {
      && (forall i :: 0 <= i < |keys| ==> keys[i] in items)
      && (forall k :: k in items ==> k in keys)
      && (forall i, j :: 0 <= i < j < |keys| ==> keys[i] != keys[j])
    }

    constructor ()
      ensures Valid() && keys == [] && items == map[]
    {
      keys := [];
      items := map[];
    }

    /**
     * `localStorage.setItem(key, JSON.stringify(value))`. Web Storage leaves the enumeration order
     * of keys to the browser; this model puts a new key last.
     */
    method SetItem(key: string, value: Value)
      requires Valid()
      modifies this
      ensures Valid()
      ensures items == old(items)[key := value]
      ensures keys == if key in old(items) then old(keys) else old(keys) + [key]
    {
      if key !in items {
        keys := keys + [key];
      }
      items := items[key := value];
    }
  }

  /**
   * The loop of getAllSupportNotes / getAllTeacherComments before their sort:
   * the lists under the keys of `ks` that start with `prefix`, concatenated in key order.
   * `unwrap` reads a slot as a list (a slot of another shape contributes nothing).
   */
  function Gathered<T>(ks: seq<string>, items: map<string, Value>, prefix: string, unwrap: Value -> seq<T>): seq<T>
  {
    if ks == [] then []
    else
      var k := ks[|ks| - 1];
      Gathered(ks[..|ks| - 1], items, prefix, unwrap)
        + (if StartsWith(k, prefix) && k in items then unwrap(items[k]) else [])
  }

  /** Total length of the lists under the prefixed keys of `ks`. */
  function PrefixedLength<T>(ks: seq<string>, items: map<string, Value>, prefix: string, unwrap: Value -> seq<T>): nat
  {
    if ks == [] then 0
    else
      var k := ks[0];
      (if StartsWith(k, prefix) && k in items then |unwrap(items[k])| else 0)
        + PrefixedLength(ks[1..], items, prefix, unwrap)
  }

  /** The gathered list is as long as all the prefixed lists together. */
  lemma {:induction false} GatheredLength<T>(ks: seq<string>, items: map<string, Value>, prefix: string, unwrap: Value -> seq<T>)
    ensures |Gathered(ks, items, prefix, unwrap)| == PrefixedLength(ks, items, prefix, unwrap)
    decreases |ks|
  {
    if ks != [] {
      var last := ks[|ks| - 1];
      var front := ks[..|ks| - 1];
      GatheredLength(front, items, prefix, unwrap);
      PrefixedLengthSnoc(front, last, items, prefix, unwrap);
      assert ks == front + [last];
    }
  }

  lemma {:induction false} PrefixedLengthSnoc<T>(ks: seq<string>, k: string, items: map<string, Value>, prefix: string, unwrap: Value -> seq<T>)
    ensures PrefixedLength(ks + [k], items, prefix, unwrap)
         == PrefixedLength(ks, items, prefix, unwrap) + (if StartsWith(k, prefix) && k in items then |unwrap(items[k])| else 0)
    decreases |ks|
  {
    if ks != [] {
      assert (ks + [k])[1..] == ks[1..] + [k];
      PrefixedLengthSnoc(ks[1..], k, items, prefix, unwrap);
    }
  }

  /** Every element stored under an enumerated prefixed key is gathered. */
  lemma {:induction false} GatheredIncludes<T>(ks: seq<string>, items: map<string, Value>, prefix: string, unwrap: Value -> seq<T>, i: int, x: T)
    requires 0 <= i < |ks| && StartsWith(ks[i], prefix) && ks[i] in items && x in unwrap(items[ks[i]])
    ensures x in Gathered(ks, items, prefix, unwrap)
    decreases |ks|
  {
    if i < |ks| - 1 {
      GatheredIncludes(ks[..|ks| - 1], items, prefix, unwrap, i, x);
    }
  }

  /** Keys without the prefix are ignored: rewriting one does not change what is gathered. */
  lemma {:induction false} GatheredIgnoresOtherKeys<T>(ks: seq<string>, items: map<string, Value>, prefix: string, unwrap: Value -> seq<T>, k: string, v: Value)
    requires !StartsWith(k, prefix)
    ensures Gathered(ks, items[k := v], prefix, unwrap) == Gathered(ks, items, prefix, unwrap)
    decreases |ks|
  {
    if ks != [] {
      GatheredIgnoresOtherKeys(ks[..|ks| - 1], items, prefix, unwrap, k, v);
    }
  }
}

/**
 * The few JavaScript built-ins whose exact semantics the modelled code relies on:
 * `Array.prototype.slice` with negative indices, `Math.round`, `Math.abs`,
 * `String.prototype.toLowerCase`, `trim`, `includes`, `startsWith` and `Array.prototype.join`.
 */
module Builtins {

  /** How `slice` normalises an index: a negative index counts back from the end, and the result is clamped to 0..n. */
  function SliceIndex(i: int, n: nat): (r: nat)
    ensures r <= n
    ensures i < 0 && -i <= n ==> r == n + i
    ensures i < 0 && -i > n ==> r == 0
    ensures 0 <= i <= n ==> r == i
  {
    if i < 0 then (if n + i < 0 then 0 else n + i)
    else if i > n then n
    else i
  }

  /** `s.slice(start, end)`. */
  function Slice<T>(s: seq<T>, start: int, end: int): seq<T>
  {
    var b, e := SliceIndex(start, |s|), SliceIndex(end, |s|);
    if b < e then s[b..e] else []
  }

  /** `s.slice(-k)`, k > 0, keeps the last min(k, |s|) elements (`slice(-0)` would keep all). */
  lemma SliceLast<T>(s: seq<T>, k: int)
    requires k > 0
    ensures Slice(s, -k, |s|) == s[|s| - Min(k, |s|)..]
  {
  }

  function Min(a: int, b: int): int { if a <= b then a else b }

  function Max(a: int, b: int): int { if a >= b then a else b }

  function Abs(x: int): (r: nat)
    ensures r == x || r == -x
  {
    if x < 0 then -x else x
  }

  /** `Math.round` on a non-negative argument: halves round up. */
  function Round(x: real): (r: int)
    requires x >= 0.0
    ensures r as real - 0.5 <= x < r as real + 0.5
  {
    (x + 0.5).Floor
  }

  function Reverse<T>(s: seq<T>): (r: seq<T>)
    ensures |r| == |s|
    ensures forall i :: 0 <= i < |s| ==> r[i] == s[|s| - 1 - i]
  {
    if s == [] then [] else Reverse(s[1..]) + [s[0]]
  }

  /** `toLowerCase` on the ASCII letters; every other character is kept. */
  function LowerChar(c: char): char
  {
    if 'A' <= c <= 'Z' then (c as int - 'A' as int + 'a' as int) as char else c
  }

  function Lower(s: string): (r: string)
    ensures |r| == |s|
    ensures forall i :: 0 <= i < |s| ==> r[i] == LowerChar(s[i])
  {
    if s == [] then [] else [LowerChar(s[0])] + Lower(s[1..])
  }

  /** The characters `String.prototype.trim` removes (ECMAScript WhiteSpace and LineTerminator). */
  predicate IsJsWhitespace(c: char)
  {
    c == '\t' || c == '\n' || c == '\U{000B}' || c == '\U{000C}' || c == '\r' || c == ' '
    || c == '\U{00A0}' || c == '\U{1680}' || ('\U{2000}' <= c <= '\U{200A}')
    || c == '\U{2028}' || c == '\U{2029}' || c == '\U{202F}' || c == '\U{205F}'
    || c == '\U{3000}' || c == '\U{FEFF}'
  }

  /** `s.trim() === ""`. */
  predicate TrimsToEmpty(s: string)
  {
    forall i :: 0 <= i < |s| ==> IsJsWhitespace(s[i])
  }

  /** `word` occurs in `text` starting at index i. */
  predicate OccursAt(text: string, word: string, i: int)
  {
    0 <= i && i + |word| <= |text| && text[i..i + |word|] == word
  }

  /** `text.includes(word)`: word is a prefix of text or of one of its suffixes. */
  predicate Contains(text: string, word: string)
  {
    word <= text || (text != [] && Contains(text[1..], word))
  }

  /** `includes` finds exactly the words that occur at some index of the text. */
  lemma {:induction false} ContainsSpec(text: string, word: string)
    ensures Contains(text, word) <==> exists i :: OccursAt(text, word, i)
  {
    if word <= text {
      assert OccursAt(text, word, 0);
    } else if text == [] {
      assert forall i :: !OccursAt(text, word, i);
    } else {
      ContainsSpec(text[1..], word);
      if Contains(text[1..], word) {
        var i :| OccursAt(text[1..], word, i);
        assert text[1..][i..i + |word|] == text[i + 1..i + 1 + |word|];
        assert OccursAt(text, word, i + 1);
      }
      forall i | OccursAt(text, word, i) ensures Contains(text, word) {
        if i > 0 {
          assert text[1..][i - 1..i - 1 + |word|] == text[i..i + |word|];
          assert OccursAt(text[1..], word, i - 1);
        }
      }
    }
  }

  /** `s.startsWith(prefix)`. */
  predicate StartsWith(s: string, prefix: string)
  {
    prefix <= s
  }

  /** `parts.join(sep)`. */
  function Join(parts: seq<string>, sep: string): string
  {
    if parts == [] then ""
    else if |parts| == 1 then parts[0]
    else parts[0] + sep + Join(parts[1..], sep)
  }

  /** The number a string of decimal digits denotes, most significant digit first. */
  function DigitsValue(s: string): nat
  {
    if s == [] then 0
    else
      var d := s[|s| - 1] as int - '0' as int;
      DigitsValue(s[..|s| - 1]) * 10 + (if 0 <= d then d else 0)
  }

  /** The decimal digits of n, as a template literal writes a non-negative integer. */
  function NatToString(n: nat): (s: string)
    ensures |s| >= 1
    ensures forall i :: 0 <= i < |s| ==> '0' <= s[i] <= '9'
    ensures DigitsValue(s) == n
  {
    var prefix := if n < 10 then "" else NatToString(n / 10);
    assert n == (n / 10) * 10 + n % 10;
    var s := prefix + [('0' as int + n % 10) as char];
    assert s[..|s| - 1] == prefix;
    s
  }
}

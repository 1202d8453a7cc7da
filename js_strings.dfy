/** The String.prototype search methods the string refinements call:
    `includes`, `startsWith` and `endsWith`, each with its position argument,
    as ECMA-262 defines them (positions are clamped into 0..length). */
module JsStrings {

  /** A position argument clamped into the string, as all three methods do. */
  function Clamp(position: int, len: nat): (r: nat)
    ensures r <= len
    ensures 0 <= position <= len ==> r == position
  {
    if position < 0 then 0 else if position > len then len else position
  }

  /** `t` occurs in `s` starting at index `i`. */
  predicate OccursAt(s: string, t: string, i: nat) {
    i + |t| <= |s| && s[i..i + |t|] == t
  }

  /** StringIndexOf: the first index at or after `from` where `t` occurs, or -1. */
  function IndexOf(s: string, t: string, from: nat): (r: int)
    requires from <= |s|
    ensures r == -1 || (from <= r <= |s| && OccursAt(s, t, r))
    ensures r != -1 ==> forall i :: from <= i < r ==> !OccursAt(s, t, i)
    ensures r == -1 <==> forall i :: from <= i <= |s| ==> !OccursAt(s, t, i)
    decreases |s| - from
  {
    if from + |t| > |s| then -1
    else if s[from..from + |t|] == t then from
    else IndexOf(s, t, from + 1)
  }

  /** `s.includes(t, position)`. */
  function Includes(s: string, t: string, position: int): (b: bool)
    ensures b <==> exists i :: Clamp(position, |s|) <= i <= |s| && OccursAt(s, t, i)
  {
    IndexOf(s, t, Clamp(position, |s|)) != -1
  }

  /** `s.startsWith(t, position)`: every character of `t` sits at the clamped start
      position onwards. The empty string starts every string. */
  function StartsWith(s: string, t: string, position: int): (b: bool)
    ensures b <==> Clamp(position, |s|) + |t| <= |s|
                   && forall k :: 0 <= k < |t| ==> s[Clamp(position, |s|) + k] == t[k]
    ensures t == [] ==> b
  {
    var start := Clamp(position, |s|);
    assert t == [] ==> s[start..start] == t;
    OccursAt(s, t, start)
  }

  /** `s.endsWith(t, endPosition)`: `t` must end exactly at the clamped end position.
      An end position at or below 0 admits only the empty search string. */
  function EndsWith(s: string, t: string, endPosition: int): (b: bool)
    ensures b <==> |t| <= Clamp(endPosition, |s|)
                   && forall k :: 0 <= k < |t| ==> s[Clamp(endPosition, |s|) - |t| + k] == t[k]
    ensures endPosition <= 0 ==> (b <==> t == [])
  {
    var end := Clamp(endPosition, |s|);
    assert t == [] ==> s[end..end] == t;
    |t| <= end && OccursAt(s, t, end - |t|)
  }

  /** With end position `|s|` (the standard's default), `endsWith` is the suffix test. */
  lemma EndsWithAtLength(s: string, t: string)
    ensures EndsWith(s, t, |s|) <==> |t| <= |s| && s[|s| - |t|..] == t
  {
  }
}

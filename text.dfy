/** The string operations the keyword rules rely on: lower-casing and
    Python's substring test `w in s`. */
module Text {
  import opened Common

  /** Lower-cases one ASCII capital letter; every other character is kept. */
  function LowerChar(c: char): char
  {
    if 'A' <= c <= 'Z' then (c as int + 32) as char else c
  }

  /** `s.lower()`, restricted to ASCII letters. */
  function Lower(s: string): (r: string)
    ensures |r| == |s|
    ensures forall i :: 0 <= i < |s| ==> r[i] == LowerChar(s[i])
  {
    seq(|s|, i requires 0 <= i < |s| => LowerChar(s[i]))
  }

  /** No ASCII capital letter occurs in `w` (true of every keyword list). */
  predicate IsLowerCase(w: string)
  {
    forall i :: 0 <= i < |w| ==> !('A' <= w[i] <= 'Z')
  }

  /** `w` occurs in `s` starting at position `i`. */
  predicate OccursAt(s: string, w: string, i: nat)
  {
    i + |w| <= |s| && s[i..i + |w|] == w
  }

  /** Python's `w in s`: `w` occurs in `s` as a contiguous block. */
  predicate Contains(s: string, w: string)
  {
    |w| <= |s| && exists i: nat :: i <= |s| - |w| && OccursAt(s, w, i)
  }

  /** Python's `any(w in s for w in words)`. */
  predicate ContainsAny(s: string, words: seq<string>)
  {
    exists k :: 0 <= k < |words| && Contains(s, words[k])
  }

  /** The index of the first word of `words`, from position `from` on, that
      occurs in `s`: a `for` loop over the words that `break`s at the first hit. */
  function FirstContainedFrom(s: string, words: seq<string>, from: nat): (r: Option<nat>)
    requires from <= |words|
    ensures r.Some? ==> from <= r.value < |words| && Contains(s, words[r.value])
    ensures r.Some? ==> forall j :: from <= j < r.value ==> !Contains(s, words[j])
    ensures r.None? ==> forall j :: from <= j < |words| ==> !Contains(s, words[j])
    decreases |words| - from
  {
    if from == |words| then None
    else if Contains(s, words[from]) then Some(from)
    else FirstContainedFrom(s, words, from + 1)
  }

  /** The index of the first word of `words` that occurs in `s`. */
  function FirstContained(s: string, words: seq<string>): (r: Option<nat>)
    ensures r.Some? <==> ContainsAny(s, words)
    ensures r.Some? ==> r.value < |words| && Contains(s, words[r.value])
    ensures r.Some? ==> forall j :: 0 <= j < r.value ==> !Contains(s, words[j])
  {
    FirstContainedFrom(s, words, 0)
  }

  /** A lower-case occurrence of a word survives lowering the message. */
  lemma LoweredKeepsLowerCaseWord(s: string, w: string)
    requires IsLowerCase(w) && Contains(s, w)
    ensures Contains(Lower(s), w)
  {
    var i: nat :| i <= |s| - |w| && OccursAt(s, w, i);
    var ls := Lower(s);
    forall k | 0 <= k < |w|
      ensures ls[i..i + |w|][k] == w[k]
    {
      assert s[i..i + |w|][k] == s[i + k];
    }
    assert OccursAt(ls, w, i);
  }

  /** Any spelling `u` of a keyword `w`, in upper, lower or mixed case, that
      occurs in a message makes `w` occur in the lowered message: this is
      why the keyword tests on `message.lower()` ignore case. */
  lemma AnySpellingMatches(s: string, u: string, w: string)
    requires Lower(u) == w && Contains(s, u)
    ensures Contains(Lower(s), w)
  {
    var i: nat :| i <= |s| - |u| && OccursAt(s, u, i);
    var ls := Lower(s);
    forall k | 0 <= k < |w|
      ensures ls[i..i + |w|][k] == w[k]
    {
      assert s[i..i + |u|][k] == s[i + k] == u[k];
    }
    assert OccursAt(ls, w, i);
  }
}

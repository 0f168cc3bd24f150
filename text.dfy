/**
 * ASCII character classes and the string operations the scoring stages rely on:
 * `str.lower()`, the substring test `w in s`, `str.split()` with no separator, and
 * the `\d`, `[A-Z]` and `\b` building blocks of the regular expressions.
 */
module Text {
  import opened Seqs

  predicate IsDigit(c: char) { '0' <= c <= '9' }
  predicate IsUpper(c: char) { 'A' <= c <= 'Z' }
  predicate IsLower(c: char) { 'a' <= c <= 'z' }
  predicate IsLetter(c: char) { IsUpper(c) || IsLower(c) }

  /** The regular-expression word character `\w`: a letter, a digit or an underscore. */
  predicate IsWordChar(c: char) { IsLetter(c) || IsDigit(c) || c == '_' }

  /** What `str.split()` splits on: space, the controls 9 to 13 and the separators 28 to 31. */
  predicate IsSpace(c: char) { c == ' ' || 9 <= c as int <= 13 || 28 <= c as int <= 31 }

  function ToLower(c: char): char {
    if IsUpper(c) then (c as int + 32) as char else c
  }

  /**
   * `s.lower()`: no upper-case letter is left, letters stay letters, and every character
   * that is not an upper-case letter is kept as it is.
   */
  function Lower(s: string): (r: string)
    ensures |r| == |s|
    ensures forall k :: 0 <= k < |r| ==> !IsUpper(r[k])
    ensures forall k :: 0 <= k < |s| ==> (IsLetter(r[k]) <==> IsLetter(s[k]))
    ensures forall k :: 0 <= k < |s| && !IsUpper(s[k]) ==> r[k] == s[k]
  {
    seq(|s|, k requires 0 <= k < |s| => ToLower(s[k]))
  }

  /** Lower-casing maps letters to letters and leaves every other character alone. */
  lemma LowerKeepsNonLetters(s: string, k: int)
    requires 0 <= k < |s|
    ensures IsLetter(Lower(s)[k]) <==> IsLetter(s[k])
    ensures !IsLetter(s[k]) ==> Lower(s)[k] == s[k]
  {
  }

  lemma LowerConcat(a: string, b: string)
    ensures Lower(a + b) == Lower(a) + Lower(b)
  {
    assert forall k :: 0 <= k < |a + b| ==> Lower(a + b)[k] == (Lower(a) + Lower(b))[k];
  }

  /** `w` occurs in `s` starting at index `i`. */
  predicate OccursAt(s: string, w: string, i: int) {
    0 <= i && i + |w| <= |s| && s[i..i + |w|] == w
  }

  /** Python's substring test `w in s`. */
  predicate Contains(s: string, w: string) {
    exists i | 0 <= i <= |s| :: OccursAt(s, w, i)
  }

  /** `any(w in s for w in words)`. */
  predicate ContainsAny(s: string, words: seq<string>) {
    words != [] && (Contains(s, words[0]) || ContainsAny(s, words[1..]))
  }

  lemma {:induction false} ContainsAnyIff(s: string, words: seq<string>)
    ensures ContainsAny(s, words) <==> exists j :: 0 <= j < |words| && Contains(s, words[j])
  {
    if words != [] {
      ContainsAnyIff(s, words[1..]);
      assert forall j :: 1 <= j < |words| ==> words[j] == words[1..][j - 1];
      if Contains(s, words[0]) {
        assert 0 <= 0 < |words| && Contains(s, words[0]);
      }
    }
  }

  lemma OccursAtChar(s: string, w: string, i: int, k: int)
    requires OccursAt(s, w, i) && 0 <= k < |w|
    ensures s[i + k] == w[k]
  {
    assert s[i..i + |w|][k] == s[i + k];
  }

  /** Every character of a contained word is a character of the text. */
  lemma ContainsCharOf(s: string, w: string, k: int)
    requires Contains(s, w) && 0 <= k < |w|
    ensures exists i :: 0 <= i < |s| && s[i] == w[k]
  {
    var i :| 0 <= i <= |s| && OccursAt(s, w, i);
    OccursAtChar(s, w, i, k);
  }

  lemma ContainsInLeft(a: string, b: string, w: string)
    requires Contains(a, w)
    ensures Contains(a + b, w)
  {
    var i :| 0 <= i <= |a| && OccursAt(a, w, i);
    assert (a + b)[i..i + |w|] == a[i..i + |w|];
    assert OccursAt(a + b, w, i);
  }

  lemma ContainsInRight(a: string, b: string, w: string)
    requires Contains(b, w)
    ensures Contains(a + b, w)
  {
    var i :| 0 <= i <= |b| && OccursAt(b, w, i);
    assert (a + b)[|a| + i..|a| + i + |w|] == b[i..i + |w|];
    assert OccursAt(a + b, w, |a| + i);
  }

  /** Characters `k1` and `k2` of `w` cannot both line up with `s` when `w` is placed at `i`. */
  predicate Misaligned(s: string, w: string, i: int, k1: int, k2: int) {
    0 <= i && i + |w| <= |s| && 0 <= k1 < |w| && 0 <= k2 < |w| ==>
      s[i + k1] != w[k1] || s[i + k2] != w[k2]
  }

  /** A word is absent when, at every placement, one of two chosen characters disagrees. */
  lemma NoOccurrence(s: string, w: string, k1: int, k2: int)
    requires 0 <= k1 < |w| && 0 <= k2 < |w|
    requires forall i :: 0 <= i <= |s| - |w| ==> Misaligned(s, w, i, k1, k2)
    ensures !Contains(s, w)
  {
    forall i | 0 <= i <= |s| ensures !OccursAt(s, w, i) {
      AlignedWhereOccurs(s, w, i, k1);
      AlignedWhereOccurs(s, w, i, k2);
      if i <= |s| - |w| {
        assert Misaligned(s, w, i, k1, k2);
      }
    }
  }

  lemma AlignedWhereOccurs(s: string, w: string, i: int, k: int)
    requires 0 <= k < |w|
    ensures OccursAt(s, w, i) ==> s[i + k] == w[k]
  {
    if OccursAt(s, w, i) {
      OccursAtChar(s, w, i, k);
    }
  }

  /** A word that does not contain `c` cannot occur across an occurrence of `c`. */
  lemma ContainsAcross(a: string, c: char, b: string, w: string)
    requires forall k :: 0 <= k < |w| ==> w[k] != c
    ensures Contains(a + [c] + b, w) ==> Contains(a, w) || Contains(b, w)
  {
    var s := a + [c] + b;
    if Contains(s, w) {
      var i :| 0 <= i <= |s| && OccursAt(s, w, i);
      if i + |w| <= |a| {
        assert a[i..i + |w|] == s[i..i + |w|];
        assert OccursAt(a, w, i);
      } else if i > |a| {
        assert b[i - |a| - 1..i - |a| - 1 + |w|] == s[i..i + |w|];
        assert OccursAt(b, w, i - |a| - 1);
      } else {
        OccursAtChar(s, w, i, |a| - i);
      }
    }
  }

  /** `s[i..i+n]` exists and consists of digits. */
  predicate DigitsAt(s: string, i: int, n: nat) {
    0 <= i && i + n <= |s| && forall k :: i <= k < i + n ==> IsDigit(s[k])
  }

  /**
   * A regular-expression search for a pattern whose matches are decided start by start:
   * some start from `i` on, below `n`, satisfies `at`.
   */
  predicate SearchFrom(n: int, at: int -> bool, i: int)
    decreases n - i
  {
    i < n && (at(i) || SearchFrom(n, at, i + 1))
  }

  /** A search over the starts `0 .. n - 1`. */
  predicate Search(n: int, at: int -> bool) {
    SearchFrom(n, at, 0)
  }

  lemma {:induction false} SearchFromIff(n: int, at: int -> bool, i: int)
    ensures SearchFrom(n, at, i) <==> exists j :: i <= j < n && at(j)
    decreases n - i
  {
    if i < n {
      SearchFromIff(n, at, i + 1);
      if at(i) {
        assert i <= i < n && at(i);
      }
    }
  }

  /** A search succeeds exactly when some start matches. */
  lemma SearchIff(n: int, at: int -> bool)
    ensures Search(n, at) <==> exists j :: 0 <= j < n && at(j)
  {
    SearchFromIff(n, at, 0);
  }

  predicate IsWordAt(s: string, p: int) {
    0 <= p < |s| && IsWordChar(s[p])
  }

  /** The regular-expression word boundary `\b` at position `p`: exactly one side is a word character. */
  predicate Boundary(s: string, p: int) {
    IsWordAt(s, p - 1) != IsWordAt(s, p)
  }

  predicate NoSpace(t: string) {
    forall k :: 0 <= k < |t| ==> !IsSpace(t[k])
  }

  /** `s` with its whitespace characters removed. */
  function Visible(s: string): (r: string)
    ensures |r| <= |s|
  {
    if s == [] then [] else (if IsSpace(s[0]) then [] else [s[0]]) + Visible(s[1..])
  }

  lemma {:induction false} VisibleEmpty(s: string)
    ensures Visible(s) == [] <==> forall k :: 0 <= k < |s| ==> IsSpace(s[k])
  {
    if s != [] {
      VisibleEmpty(s[1..]);
      assert forall k :: 1 <= k < |s| ==> s[k] == s[1..][k - 1];
    }
  }

  /** `str.split()` continued from a partly read token `word`. */
  function SplitFrom(s: string, word: string): seq<string>
    decreases |s|
  {
    if s == [] then (if word == [] then [] else [word])
    else if IsSpace(s[0]) then (if word == [] then [] else [word]) + SplitFrom(s[1..], [])
    else SplitFrom(s[1..], word + [s[0]])
  }

  /** `s.split()`: the whitespace-separated tokens of `s`, in order. */
  function Split(s: string): seq<string> {
    SplitFrom(s, [])
  }

  lemma {:induction false} SplitFromTokens(s: string, word: string)
    requires NoSpace(word)
    ensures forall t :: t in SplitFrom(s, word) ==> t != [] && NoSpace(t)
    decreases |s|
  {
    if s != [] {
      if IsSpace(s[0]) {
        SplitFromTokens(s[1..], []);
      } else {
        SplitFromTokens(s[1..], word + [s[0]]);
      }
    }
  }

  lemma {:induction false} FlattenPrefix(t: string, rest: seq<string>)
    ensures Flatten([t] + rest) == t + Flatten(rest)
  {
    assert ([t] + rest)[1..] == rest;
  }

  lemma {:induction false} SplitFromKeepsText(s: string, word: string)
    ensures Flatten(SplitFrom(s, word)) == word + Visible(s)
    decreases |s|
  {
    if s == [] {
      if word != [] {
        FlattenPrefix(word, []);
        assert [word] + [] == [word];
      }
    } else {
      var f := Visible(s[1..]);
      if IsSpace(s[0]) {
        var rest := SplitFrom(s[1..], []);
        SplitFromKeepsText(s[1..], []);
        assert Visible(s) == f;
        if word != [] {
          assert SplitFrom(s, word) == [word] + rest;
          FlattenPrefix(word, rest);
        } else {
          assert SplitFrom(s, word) == rest;
        }
      } else {
        SplitFromKeepsText(s[1..], word + [s[0]]);
        assert SplitFrom(s, word) == SplitFrom(s[1..], word + [s[0]]);
        assert Visible(s) == [s[0]] + f;
        assert word + [s[0]] + f == word + ([s[0]] + f);
      }
    }
  }

  lemma {:induction false} SplitFromCount(s: string, word: string)
    ensures 2 * |SplitFrom(s, word)| <= |s| + 1 + (if word == [] then 0 else 1)
    decreases |s|
  {
    if s != [] {
      if IsSpace(s[0]) {
        SplitFromCount(s[1..], []);
      } else {
        SplitFromCount(s[1..], word + [s[0]]);
      }
    }
  }

  /**
   * The number of positions in `s` where a word starts: a non-whitespace character that is
   * first in `s` (when `afterSpace` holds) or follows a whitespace character.
   */
  function StartsAfter(s: string, afterSpace: bool): nat
    decreases |s|
  {
    if s == [] then 0
    else (if afterSpace && !IsSpace(s[0]) then 1 else 0) + StartsAfter(s[1..], IsSpace(s[0]))
  }

  /** The number of words in `s`: positions holding a non-whitespace character at the start of `s` or after whitespace. */
  function TokenCount(s: string): nat {
    StartsAfter(s, true)
  }

  lemma {:induction false} SplitFromStarts(s: string, word: string)
    ensures |SplitFrom(s, word)| == StartsAfter(s, word == []) + (if word == [] then 0 else 1)
    decreases |s|
  {
    if s != [] {
      if IsSpace(s[0]) {
        SplitFromStarts(s[1..], []);
      } else {
        SplitFromStarts(s[1..], word + [s[0]]);
      }
    }
  }

  /**
   * What `s.split()` returns: non-empty tokens without whitespace whose concatenation is
   * `s` with its whitespace removed; there are at most (|s| + 1) / 2 of them, and none
   * exactly when `s` is all whitespace; and there is one token per word start.
   */
  lemma SplitSpec(s: string)
    ensures forall t :: t in Split(s) ==> t != [] && NoSpace(t)
    ensures |Split(s)| == TokenCount(s)
    ensures Flatten(Split(s)) == Visible(s)
    ensures 2 * |Split(s)| <= |s| + 1
    ensures Split(s) == [] <==> forall k :: 0 <= k < |s| ==> IsSpace(s[k])
  {
    SplitFromTokens(s, []);
    SplitFromKeepsText(s, []);
    SplitFromCount(s, []);
    SplitFromStarts(s, []);
    var ts := Split(s);
    VisibleEmpty(s);
    if ts != [] {
      FlattenPrefix(ts[0], ts[1..]);
      assert ts == [ts[0]] + ts[1..];
      assert ts[0] in ts;
    }
  }
}

/**
 * The string operations the intent classifier relies on: ASCII lower-casing
 * (`str.lower()`), the substring test (`kw in text`) and whitespace splitting
 * (`str.split()` with no separator). Characters outside ASCII are left as they
 * are; whitespace is the ASCII set Python's `str.isspace()` accepts.
 */
module Text {

  /** Python whitespace within ASCII: space, \t \n \v \f \r and the separators 0x1C-0x1F. */
  predicate IsSpace(c: char) {
    c == ' ' || ('\t' <= c <= '\r') || (28 <= c as int <= 31)
  }

  /** Lower-case one ASCII letter; every other character is unchanged. */
  function LowerChar(c: char): char {
    if 'A' <= c <= 'Z' then (c as int + 32) as char else c
  }

  /** `s.lower()`, restricted to ASCII letters. */
  function Lower(s: string): string {
    seq(|s|, i requires 0 <= i < |s| => LowerChar(s[i]))
  }

  /** Lower-casing twice is lower-casing once, and it leaves no upper-case ASCII letter. */
  lemma LowerIdempotent(s: string)
    ensures Lower(Lower(s)) == Lower(s)
    ensures forall i :: 0 <= i < |s| ==> !('A' <= Lower(s)[i] <= 'Z')
  {
  }

  // ---------------------------------------------------------------- substrings

  /** `p` occurs in `s` starting at offset `i`. */
  ghost predicate OccursAt(s: string, p: string, i: int) {
    0 <= i <= |s| - |p| && s[i..i + |p|] == p
  }

  /** Python's `p in s` for strings, scanning the start offsets from the left. */
  predicate Contains(s: string, p: string)
    decreases |s|
  {
    (|p| <= |s| && s[..|p|] == p) || (|s| > 0 && Contains(s[1..], p))
  }

  /** The scan finds `p` exactly when `p` occurs at some offset of `s`. */
  lemma {:induction false} ContainsIffOccurs(s: string, p: string)
    ensures Contains(s, p) <==> exists i :: OccursAt(s, p, i)
    decreases |s|
  {
    if |p| <= |s| && s[..|p|] == p {
      assert OccursAt(s, p, 0);
    } else if |s| == 0 {
    } else {
      ContainsIffOccurs(s[1..], p);
      if Contains(s[1..], p) {
        var j :| OccursAt(s[1..], p, j);
        assert s[1..][j..j + |p|] == s[j + 1..j + 1 + |p|];
        assert OccursAt(s, p, j + 1);
      }
      if exists i :: OccursAt(s, p, i) {
        var i :| OccursAt(s, p, i);
        assert i != 0;
        assert s[1..][i - 1..i - 1 + |p|] == s[i..i + |p|];
        assert OccursAt(s[1..], p, i - 1);
      }
    }
  }

  // ----------------------------------------------------------------- splitting

  /** A word of `str.split()`: non-empty, with no whitespace in it. */
  predicate IsWord(w: string) {
    |w| > 0 && forall i :: 0 <= i < |w| ==> !IsSpace(w[i])
  }

  /** Length of the longest whitespace-free prefix of `s`. */
  function WordLength(s: string): (n: nat)
    ensures n <= |s|
    ensures forall i :: 0 <= i < n ==> !IsSpace(s[i])
    ensures n == |s| || IsSpace(s[n])
  {
    if |s| == 0 || IsSpace(s[0]) then 0 else 1 + WordLength(s[1..])
  }

  /** `s.split()`: the maximal runs of non-whitespace characters, left to right. */
  function Split(s: string): (words: seq<string>)
    ensures forall k :: 0 <= k < |words| ==> IsWord(words[k])
    decreases |s|
  {
    if |s| == 0 then []
    else if IsSpace(s[0]) then Split(s[1..])
    else
      var n := WordLength(s);
      [s[..n]] + Split(s[n..])
  }

  /** `" ".join(words)`. */
  function JoinWords(words: seq<string>): string {
    if |words| == 0 then ""
    else if |words| == 1 then words[0]
    else words[0] + " " + JoinWords(words[1..])
  }

  /** The whitespace-free prefix of a word followed by whitespace (or nothing) is that word. */
  lemma {:induction false} WordLengthOfWord(w: string, t: string)
    requires forall i :: 0 <= i < |w| ==> !IsSpace(w[i])
    requires t == [] || IsSpace(t[0])
    ensures WordLength(w + t) == |w|
    decreases |w|
  {
    if |w| > 0 {
      assert (w + t)[1..] == w[1..] + t;
      WordLengthOfWord(w[1..], t);
    } else {
      assert w + t == t;
    }
  }

  /** A word followed by nothing or by whitespace is split off as one piece. */
  lemma SplitWordThen(w: string, t: string)
    requires IsWord(w)
    requires t == [] || IsSpace(t[0])
    ensures Split(w + t) == [w] + Split(t)
  {
    var s := w + t;
    var n := WordLength(s);
    WordLengthOfWord(w, t);
    assert s[..n] == w && s[n..] == t;
  }

  /** Splitting undoes joining with single spaces, for well-formed words. */
  lemma {:induction false} SplitJoin(words: seq<string>)
    requires forall k :: 0 <= k < |words| ==> IsWord(words[k])
    ensures Split(JoinWords(words)) == words
  {
    if |words| == 1 {
      SplitWordThen(words[0], []);
      assert words[0] + [] == words[0];
    } else if |words| > 1 {
      var rest := JoinWords(words[1..]);
      SplitWordThen(words[0], " " + rest);
      assert words[0] + " " + rest == words[0] + (" " + rest);
      assert Split(" " + rest) == Split(rest) by {
        assert (" " + rest)[1..] == rest;
      }
      SplitJoin(words[1..]);
      assert [words[0]] + words[1..] == words;
    }
  }

  /** Two strings with whitespace at the same positions split into the same number of words. */
  lemma {:induction false} SplitCountByPattern(s: string, t: string)
    requires |s| == |t|
    requires forall i :: 0 <= i < |s| ==> (IsSpace(s[i]) <==> IsSpace(t[i]))
    ensures |Split(s)| == |Split(t)|
    decreases |s|
  {
    if |s| == 0 {
    } else if IsSpace(s[0]) {
      SplitCountByPattern(s[1..], t[1..]);
    } else {
      var n, m := WordLength(s), WordLength(t);
      assert n == m;
      SplitCountByPattern(s[n..], t[n..]);
    }
  }

  /** Lower-casing does not change the word count. */
  lemma SplitCountIgnoresCase(s: string)
    ensures |Split(Lower(s))| == |Split(s)|
  {
    SplitCountByPattern(Lower(s), s);
  }

  /** A word starts at `i`: a non-space character at the start of the text or after whitespace. */
  ghost predicate WordStartAt(s: string, i: int) {
    0 <= i < |s| && !IsSpace(s[i]) && (i == 0 || IsSpace(s[i - 1]))
  }

  /** The positions from `k` on where a word starts. */
  ghost function WordStartsFrom(s: string, k: int): set<int> {
    set i | k <= i < |s| && WordStartAt(s, i)
  }

  /** The number of word starts from `k` on, counted position by position. */
  ghost function StartCount(s: string, k: nat): nat
    decreases |s| - k
  {
    if k >= |s| then 0 else (if WordStartAt(s, k) then 1 else 0) + StartCount(s, k + 1)
  }

  /** Adding an element not yet present grows a set by one. */
  lemma AddFresh(x: int, rest: set<int>)
    requires x !in rest
    ensures |{x} + rest| == 1 + |rest|
  {
    assert {x} * rest == {};
  }

  /** The word starts from `k` on are those from `k + 1` on, plus `k` when a word starts there. */
  lemma WordStartsFromStep(s: string, k: nat)
    requires k < |s|
    ensures k !in WordStartsFrom(s, k + 1)
    ensures WordStartsFrom(s, k) == (if WordStartAt(s, k) then {k} else {}) + WordStartsFrom(s, k + 1)
  {
  }

  /** Counting position by position gives the size of the set of word starts. */
  lemma {:induction false} StartCountIsSize(s: string, k: nat)
    ensures StartCount(s, k) == |WordStartsFrom(s, k)|
    decreases |s| - k
  {
    if k >= |s| {
      assert WordStartsFrom(s, k) == {};
    } else {
      StartCountIsSize(s, k + 1);
      WordStartsFromStep(s, k);
      if WordStartAt(s, k) {
        AddFresh(k, WordStartsFrom(s, k + 1));
      }
    }
  }

  /** No word starts right after a non-space character. */
  lemma {:induction false} StartCountInsideWord(s: string, k: nat, e: nat)
    requires 0 < k <= e <= |s|
    requires forall i :: k - 1 <= i < e - 1 ==> !IsSpace(s[i])
    ensures StartCount(s, k) == StartCount(s, e)
    decreases e - k
  {
    if k < e {
      assert !IsSpace(s[k - 1]);
      StartCountInsideWord(s, k + 1, e);
    }
  }

  /**
   * Whitespace at `k` is skipped by `split()` and is no word start, so both
   * counts are those from `k + 1`.
   */
  lemma SpaceStep(s: string, k: nat)
    requires k < |s| && IsSpace(s[k])
    ensures Split(s[k..]) == Split(s[k + 1..])
    ensures StartCount(s, k) == StartCount(s, k + 1)
  {
    var t := s[k..];
    assert t[0] == s[k] && t[1..] == s[k + 1..];
  }

  /** A leading word is one piece of `split()`. */
  lemma SplitTakesWord(s: string, k: nat)
    requires k < |s| && !IsSpace(s[k])
    ensures var n := WordLength(s[k..]);
      k + n <= |s| && |Split(s[k..])| == 1 + |Split(s[k + n..])|
  {
    var t := s[k..];
    var n := WordLength(t);
    assert t[0] == s[k] && t[n..] == s[k + n..];
    assert |Split(t)| == 1 + |Split(t[n..])|;
  }

  /** A word starting at `k` contributes the start `k` and no other start before its end. */
  lemma WordStartsOfWord(s: string, k: nat)
    requires k < |s| && !IsSpace(s[k])
    requires k == 0 || IsSpace(s[k - 1])
    ensures var n := WordLength(s[k..]);
      && k < k + n <= |s| && (k + n == |s| || IsSpace(s[k + n]))
      && StartCount(s, k) == 1 + StartCount(s, k + n)
  {
    var t := s[k..];
    var n := WordLength(t);
    assert t[0] == s[k];
    forall i | k <= i < k + n - 1 ensures !IsSpace(s[i]) {
      assert s[i] == t[i - k];
    }
    StartCountInsideWord(s, k + 1, k + n);
    if k + n < |s| {
      assert s[k + n] == t[n];
    }
  }

  /**
   * A word of length `n` starting at `k` is one piece of `split()` and one
   * word start; the text after it starts with whitespace or is empty.
   */
  lemma WordStep(s: string, k: nat) returns (n: nat)
    requires k < |s| && !IsSpace(s[k])
    requires k == 0 || IsSpace(s[k - 1])
    ensures k < k + n <= |s| && (k + n == |s| || IsSpace(s[k + n]))
    ensures |Split(s[k..])| == 1 + |Split(s[k + n..])|
    ensures StartCount(s, k) == 1 + StartCount(s, k + n)
  {
    n := WordLength(s[k..]);
    SplitTakesWord(s, k);
    WordStartsOfWord(s, k);
  }

  /**
   * Splitting the text from `k` on yields one word per word start from `k`
   * on, provided `k` does not fall in the middle of a word.
   */
  lemma {:induction false} SplitCountsWordStartsFrom(s: string, k: nat)
    requires k <= |s|
    requires k == 0 || k == |s| || IsSpace(s[k - 1]) || IsSpace(s[k])
    ensures |Split(s[k..])| == StartCount(s, k)
    decreases |s| - k, 1
  {
    if k == |s| {
      assert s[k..] == [];
    } else if IsSpace(s[k]) {
      SpaceStep(s, k);
      SplitCountsWordStartsFrom(s, k + 1);
    } else {
      SplitCountsFromWord(s, k);
    }
  }

  /** The case of `SplitCountsWordStartsFrom` where a word starts at `k`. */
  lemma {:induction false} SplitCountsFromWord(s: string, k: nat)
    requires k < |s| && !IsSpace(s[k])
    requires k == 0 || IsSpace(s[k - 1])
    ensures |Split(s[k..])| == StartCount(s, k)
    decreases |s| - k, 0
  {
    var n := WordStep(s, k);
    SplitCountsWordStartsFrom(s, k + n);
  }

  /**
   * Over every text, `split()` returns one word per word start, whatever
   * whitespace leads, trails or repeats.
   */
  lemma SplitCountsWordStarts(s: string)
    ensures |Split(s)| == |set i | 0 <= i < |s| && WordStartAt(s, i)|
  {
    SplitCountsWordStartsFrom(s, 0);
    StartCountIsSize(s, 0);
    assert s[0..] == s;
    assert WordStartsFrom(s, 0) == set i | 0 <= i < |s| && WordStartAt(s, i);
  }
}

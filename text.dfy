/**
 * The three string builtins the client relies on: `String.prototype.trim`,
 * `String.prototype.indexOf` for a single character, and the prefix taken by
 * `slice(0, n)`. Strings are sequences of characters; the whitespace class is
 * the fixed set of code points that ECMAScript's WhiteSpace and
 * LineTerminator productions name.
 */
module Text {

  /** The code points that `trim` removes from either end of a string. */
  const WhitespaceChars: set<char> := {
    '\t', '\n', '\U{000B}', '\U{000C}', '\r', ' ', '\U{00A0}', '\U{1680}',
    '\U{2000}', '\U{2001}', '\U{2002}', '\U{2003}', '\U{2004}', '\U{2005}',
    '\U{2006}', '\U{2007}', '\U{2008}', '\U{2009}', '\U{200A}',
    '\U{2028}', '\U{2029}', '\U{202F}', '\U{205F}', '\U{3000}', '\U{FEFF}'
  }

  /** A code point that `trim` removes from either end of a string. */
  predicate IsWhitespace(c: char) {
    c in WhitespaceChars
  }

  lemma ColonIsNotWhitespace()
    ensures !IsWhitespace(':')
  {
  }

  ghost predicate AllWhitespace(s: string) {
    forall i :: 0 <= i < |s| ==> IsWhitespace(s[i])
  }

  /** The number of whitespace characters at the start of `s`. */
  function LeadingWhitespace(s: string): (k: nat)
    ensures k <= |s|
    ensures forall i :: 0 <= i < k ==> IsWhitespace(s[i])
    ensures k < |s| ==> !IsWhitespace(s[k])
  {
    if s == [] || !IsWhitespace(s[0]) then 0 else 1 + LeadingWhitespace(s[1..])
  }

  /** The number of whitespace characters at the end of `s`. */
  function TrailingWhitespace(s: string): (k: nat)
    ensures k <= |s|
    ensures forall i :: |s| - k <= i < |s| ==> IsWhitespace(s[i])
    ensures k < |s| ==> !IsWhitespace(s[|s| - 1 - k])
  {
    if s == [] || !IsWhitespace(s[|s| - 1]) then 0 else 1 + TrailingWhitespace(s[..|s| - 1])
  }

  /**
   * Where `trim` cuts `s`: the result is `s[lo..hi]`, everything outside
   * that window is whitespace, and the window neither starts nor ends with
   * whitespace.
   */
  function TrimBounds(s: string): (b: (nat, nat))
    ensures b.0 <= b.1 <= |s|
    ensures forall i :: 0 <= i < b.0 ==> IsWhitespace(s[i])
    ensures forall i :: b.1 <= i < |s| ==> IsWhitespace(s[i])
    ensures b.0 < b.1 ==> !IsWhitespace(s[b.0]) && !IsWhitespace(s[b.1 - 1])
    ensures b.0 == b.1 ==> AllWhitespace(s)
  {
    var lo := LeadingWhitespace(s);
    if lo == |s| then (lo, lo)
    else
      var t := TrailingWhitespace(s);
      assert !IsWhitespace(s[lo]);
      (lo, |s| - t)
  }

  /** `String.prototype.trim`. */
  function Trim(s: string): (r: string)
    ensures |r| <= |s|
    ensures r == [] || (!IsWhitespace(r[0]) && !IsWhitespace(r[|r| - 1]))
    ensures r == [] <==> AllWhitespace(s)
  {
    var b := TrimBounds(s);
    s[b.0..b.1]
  }

  /** Trimming only removes characters: whatever `Trim(s)` holds, `s` holds. */
  lemma TrimInfix(s: string)
    ensures forall c :: c in Trim(s) ==> c in s
  {
    var b := TrimBounds(s);
    forall c | c in Trim(s) ensures c in s {
      var i :| 0 <= i < |s[b.0..b.1]| && s[b.0..b.1][i] == c;
      assert s[b.0 + i] == c;
    }
  }

  /** Trimming a trimmed string changes nothing. */
  lemma {:induction false} TrimIdempotent(s: string)
    ensures Trim(Trim(s)) == Trim(s)
  {
    var r := Trim(s);
    if r != [] {
      assert LeadingWhitespace(r) == 0;
      assert TrailingWhitespace(r) == 0;
    }
  }

  /** `s.indexOf(c)`: the first position of `c` in `s`, or -1 when there is none. */
  function IndexOf(s: string, c: char): (r: int)
    ensures r == -1 <==> c !in s
    ensures r != -1 ==> 0 <= r < |s| && s[r] == c && c !in s[..r]
  {
    if s == [] then -1
    else if s[0] == c then 0
    else
      var k := IndexOf(s[1..], c);
      assert s[1..][..if k < 0 then 0 else k] == s[1..1 + if k < 0 then 0 else k];
      if k == -1 then -1 else 1 + k
  }

  /** Two positions that both hold the first `c` of `s` are the same. */
  lemma FirstOccurrenceUnique(s: string, c: char, i: nat, j: nat)
    requires i < |s| && s[i] == c && c !in s[..i]
    requires j < |s| && s[j] == c && c !in s[..j]
    ensures i == j
  {
    assert forall k :: 0 <= k < j ==> s[..j][k] == s[k];
    assert forall k :: 0 <= k < i ==> s[..i][k] == s[k];
  }

  /** Position `i` holds the first `c` of `s`. */
  ghost predicate FirstAt(s: string, c: char, i: int) {
    0 <= i < |s| && s[i] == c && c !in s[..i]
  }

  /** Every position holding the first `c` of `s` is the one `IndexOf` reports. */
  lemma IndexOfIsFirst(s: string, c: char)
    ensures forall i :: FirstAt(s, c, i) ==> i == IndexOf(s, c)
  {
    forall i | FirstAt(s, c, i) ensures i == IndexOf(s, c) {
      FirstOccurrenceUnique(s, c, i, IndexOf(s, c));
    }
  }

  /** `s.slice(0, n)` for `n >= 0`: at most the first `n` characters. */
  function Prefix(s: string, n: nat): (r: string)
    ensures |r| == if |s| < n then |s| else n
    ensures r <= s
  {
    if |s| < n then s else s[..n]
  }

  /** How many times `c` occurs in `s`. */
  function Occurrences(c: char, s: string): (n: nat) {
    if s == [] then 0 else (if s[0] == c then 1 else 0) + Occurrences(c, s[1..])
  }

  lemma {:induction false} OccurrencesAppend(c: char, a: string, b: string)
    ensures Occurrences(c, a + b) == Occurrences(c, a) + Occurrences(c, b)
  {
    if a == [] {
      assert a + b == b;
    } else {
      assert (a + b)[1..] == a[1..] + b;
      OccurrencesAppend(c, a[1..], b);
    }
  }

  lemma {:induction false} OccurrencesAbsent(c: char, s: string)
    requires c !in s
    ensures Occurrences(c, s) == 0
  {
    if s != [] {
      assert s == [s[0]] + s[1..];
      OccurrencesAbsent(c, s[1..]);
    }
  }

  /** Cutting `s` at the first `c`: the part after it holds every other `c`. */
  lemma OccurrencesAfterFirst(c: char, s: string, k: nat)
    requires k < |s| && s[k] == c && c !in s[..k]
    ensures Occurrences(c, s) == 1 + Occurrences(c, s[k + 1..])
  {
    var before, after := s[..k], s[k + 1..];
    assert s == (before + [c]) + after;
    OccurrencesAppend(c, before + [c], after);
    OccurrencesAppend(c, before, [c]);
    OccurrencesAbsent(c, before);
    assert Occurrences(c, [c]) == 1 by {
      assert [c][1..] == [];
    }
  }

  /** Cutting `s` anywhere splits its occurrences of `c` between the two parts. */
  lemma OccurrencesSplit(c: char, s: string, k: nat)
    requires k <= |s|
    ensures Occurrences(c, s) == Occurrences(c, s[..k]) + Occurrences(c, s[k..])
  {
    assert s == s[..k] + s[k..];
    OccurrencesAppend(c, s[..k], s[k..]);
  }

  /** A run of whitespace holds no occurrence of a character that is not whitespace. */
  lemma OccurrencesInWhitespace(c: char, s: string)
    requires !IsWhitespace(c) && AllWhitespace(s)
    ensures Occurrences(c, s) == 0
  {
    forall k | 0 <= k < |s| ensures s[k] != c {
      assert IsWhitespace(s[k]);
    }
    OccurrencesAbsent(c, s);
  }

  /** Trimming never removes a character that is not whitespace. */
  lemma TrimKeepsOccurrences(c: char, s: string)
    requires !IsWhitespace(c)
    ensures Occurrences(c, Trim(s)) == Occurrences(c, s)
  {
    var b := TrimBounds(s);
    var rest := s[b.0..];
    OccurrencesSplit(c, s, b.0);
    OccurrencesSplit(c, rest, b.1 - b.0);
    assert rest[..b.1 - b.0] == Trim(s);
    assert AllWhitespace(s[..b.0]) by {
      forall k | 0 <= k < b.0 ensures IsWhitespace(s[..b.0][k]) {
        assert s[..b.0][k] == s[k];
      }
    }
    var tail := rest[b.1 - b.0..];
    assert AllWhitespace(tail) by {
      forall k | 0 <= k < |tail| ensures IsWhitespace(tail[k]) {
        assert tail[k] == s[b.1 + k];
      }
    }
    OccurrencesInWhitespace(c, s[..b.0]);
    OccurrencesInWhitespace(c, tail);
  }
}

/**
 * The JavaScript string built-ins the application relies on, on `string`:
 * `trim`, `split` on a one-character separator and `Array.prototype.join`.
 * A JavaScript string is a sequence of UTF-16 code units; here a `char` is a
 * Unicode scalar value, so lone surrogates cannot be written. Every
 * character these operations compare against lies in the Basic Multilingual
 * Plane, so trimming and splitting treat the two representations alike.
 */
module Text {

  /** ECMAScript's WhiteSpace and LineTerminator code points, which `trim` removes. */
  predicate IsWhitespace(c: char)
  {
    c in {'\t', '\n', '\U{000B}', '\U{000C}', '\r', ' ', '\U{00A0}', '\U{1680}',
          '\U{2000}', '\U{2001}', '\U{2002}', '\U{2003}', '\U{2004}', '\U{2005}',
          '\U{2006}', '\U{2007}', '\U{2008}', '\U{2009}', '\U{200A}', '\U{2028}',
          '\U{2029}', '\U{202F}', '\U{205F}', '\U{3000}', '\U{FEFF}'}
  }

  /** Every character of `s` is white space (so `s.trim()` is empty, and falsy). */
  predicate IsBlank(s: string)
  {
    forall i :: 0 <= i < |s| ==> IsWhitespace(s[i])
  }

  /** The index of the first character of `s` at or after `i` that is not white space, or `|s|`. */
  function SkipBlankFrom(s: string, i: nat): (k: nat)
    requires i <= |s|
    ensures i <= k <= |s|
    ensures k == |s| || !IsWhitespace(s[k])
    decreases |s| - i
  {
    if i < |s| && IsWhitespace(s[i]) then SkipBlankFrom(s, i + 1) else i
  }

  /** The end of `s[lo..hi]` once its trailing white space is dropped. */
  function SkipBlankBack(s: string, lo: nat, hi: nat): (k: nat)
    requires lo <= hi <= |s|
    ensures lo <= k <= hi
    ensures k == lo || !IsWhitespace(s[k - 1])
    decreases hi
  {
    if lo < hi && IsWhitespace(s[hi - 1]) then SkipBlankBack(s, lo, hi - 1) else hi
  }

  /** Everything `SkipBlankFrom` steps over is white space. */
  lemma {:induction false} SkippedAreBlank(s: string, i: nat)
    requires i <= |s|
    ensures forall j :: i <= j < SkipBlankFrom(s, i) ==> IsWhitespace(s[j])
    decreases |s| - i
  {
    if i < |s| && IsWhitespace(s[i]) {
      SkippedAreBlank(s, i + 1);
    }
  }

  /** Everything `SkipBlankBack` steps over is white space. */
  lemma {:induction false} SkippedBackAreBlank(s: string, lo: nat, hi: nat)
    requires lo <= hi <= |s|
    ensures forall j :: SkipBlankBack(s, lo, hi) <= j < hi ==> IsWhitespace(s[j])
    decreases hi
  {
    if lo < hi && IsWhitespace(s[hi - 1]) {
      SkippedBackAreBlank(s, lo, hi - 1);
    }
  }

  /** `s.trim()`: `s` without its leading and trailing white space; it neither starts nor ends with white space. */
  function Trim(s: string): (r: string)
    ensures |r| <= |s|
    ensures r == [] || (!IsWhitespace(r[0]) && !IsWhitespace(r[|r| - 1]))
  {
    var lo := SkipBlankFrom(s, 0);
    s[lo..SkipBlankBack(s, lo, |s|)]
  }

  /** `s.trim()` is the piece of `s` left once the blank run before it and the blank run after it are removed. */
  lemma TrimRemovesBlankEnds(s: string)
    ensures exists k: nat :: OccursAt(s, Trim(s), k) && IsBlank(s[..k]) && IsBlank(s[k + |Trim(s)|..])
  {
    var lo := SkipBlankFrom(s, 0);
    var hi := SkipBlankBack(s, lo, |s|);
    SkippedAreBlank(s, 0);
    SkippedBackAreBlank(s, lo, |s|);
    assert OccursAt(s, Trim(s), lo) && IsBlank(s[..lo]) && IsBlank(s[hi..]);
  }

  /** `s.trim()` is empty exactly when `s` is blank, the test every guard of the form `!s.trim()` makes. */
  lemma TrimEmptyIffBlank(s: string)
    ensures Trim(s) == [] <==> IsBlank(s)
  {
    var lo := SkipBlankFrom(s, 0);
    SkippedAreBlank(s, 0);
    SkippedBackAreBlank(s, lo, |s|);
  }

  /** `pieces.join(sep)`: the pieces with `sep` between each two neighbours. */
  function Join(pieces: seq<string>, sep: string): string
  {
    if |pieces| == 0 then ""
    else if |pieces| == 1 then pieces[0]
    else pieces[0] + sep + Join(pieces[1..], sep)
  }

  /** A join starts with its first piece and ends with its last. */
  lemma {:induction false} JoinEnds(pieces: seq<string>, sep: string)
    requires |pieces| > 0
    ensures StartsWith(Join(pieces, sep), pieces[0])
    ensures EndsWith(Join(pieces, sep), pieces[|pieces| - 1])
  {
    if |pieces| > 1 {
      JoinEnds(pieces[1..], sep);
      var rest := Join(pieces[1..], sep);
      assert Join(pieces, sep) == pieces[0] + sep + rest;
      assert (pieces[0] + sep + rest)[|pieces[0] + sep + rest| - |rest|..] == rest;
    }
  }

  /** Appending a piece appends the separator and the piece. */
  lemma {:induction false} JoinAppend(pieces: seq<string>, last: string, sep: string)
    requires |pieces| > 0
    ensures Join(pieces + [last], sep) == Join(pieces, sep) + sep + last
  {
    if |pieces| == 1 {
      assert (pieces + [last])[1..] == [last];
    } else {
      assert (pieces + [last])[1..] == pieces[1..] + [last];
      JoinAppend(pieces[1..], last, sep);
    }
  }

  /** `s.split(c)` for a one-character separator: the maximal pieces of `s` free of `c`. */
  function Split(s: string, c: char): (pieces: seq<string>)
    ensures |pieces| >= 1
    ensures forall i :: 0 <= i < |pieces| ==> c !in pieces[i]
    ensures Join(pieces, [c]) == s
    ensures c !in s ==> pieces == [s]
    ensures c in s ==> |pieces| >= 2
  {
    if |s| == 0 then [""]
    else
      var rest := Split(s[1..], c);
      if s[0] == c then
        assert s == [c] + s[1..];
        [""] + rest
      else
        var pieces := [[s[0]] + rest[0]] + rest[1..];
        assert pieces[1..] == rest[1..];
        assert Join(pieces, [c]) == [s[0]] + Join(rest, [c]) by {
          if |rest| > 1 {
            assert Join(rest, [c]) == rest[0] + [c] + Join(rest[1..], [c]);
          }
        }
        assert s == [s[0]] + s[1..];
        pieces
  }

  /** The split of a comma-free head, a separator and a tail. */
  lemma {:induction false} SplitAfter(head: string, c: char, tail: string)
    requires c !in head
    ensures Split(head + [c] + tail, c) == [head] + Split(tail, c)
  {
    if |head| == 0 {
      assert ([] + [c] + tail)[1..] == tail;
    } else {
      assert (head + [c] + tail)[1..] == head[1..] + [c] + tail;
      SplitAfter(head[1..], c, tail);
      assert [head[0]] + head[1..] == head;
    }
  }

  /** `s.startsWith(p)`. */
  predicate StartsWith(s: string, p: string)
  {
    |p| <= |s| && s[..|p|] == p
  }

  /** `s.endsWith(p)`. */
  predicate EndsWith(s: string, p: string)
  {
    |p| <= |s| && s[|s| - |p|..] == p
  }

  /** `t` occurs in `s` at offset `k`. */
  predicate OccursAt(s: string, t: string, k: nat)
  {
    k + |t| <= |s| && s[k..k + |t|] == t
  }

  /** `s.includes(t)`. */
  ghost predicate Contains(s: string, t: string)
  {
    exists k: nat :: OccursAt(s, t, k)
  }
}

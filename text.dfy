/**
 * The few string operations of Python's `str` type that the log analyzer
 * relies on, over `string` (a sequence of code points).
 */
module Text {

  /** `s.lstrip(c)` for a single character `c`. */
  function TrimLeft(s: string, c: char): (r: string)
    ensures |r| <= |s| && r == s[|s| - |r|..]
    ensures r == [] || r[0] != c
    ensures forall i :: 0 <= i < |s| - |r| ==> s[i] == c
  {
    if s != [] && s[0] == c then TrimLeft(s[1..], c) else s
  }

  /** `s.rstrip(c)` for a single character `c`. */
  function TrimRight(s: string, c: char): (r: string)
    ensures |r| <= |s| && r == s[..|r|]
    ensures r == [] || r[|r| - 1] != c
    ensures forall i :: |r| <= i < |s| ==> s[i] == c
  {
    if s != [] && s[|s| - 1] == c then TrimRight(s[..|s| - 1], c) else s
  }

  /** `r` is `s[i..]` cut short, and every character of `s` around it is `c`. */
  predicate Framed(s: string, c: char, i: int, r: string)
  {
    && 0 <= i <= |s| - |r| && r == s[i..i + |r|]
    && (forall k :: 0 <= k < i ==> s[k] == c)
    && (forall k :: i + |r| <= k < |s| ==> s[k] == c)
  }

  /**
   * `s.strip(c)`: every leading and every trailing `c` removed. The result is
   * the part of `s` between a run of `c` at the front and one at the back.
   */
  function Strip(s: string, c: char): (r: string)
    ensures r == [] || (r[0] != c && r[|r| - 1] != c)
    ensures (s == [] || (s[0] != c && s[|s| - 1] != c)) ==> r == s
    ensures exists i :: Framed(s, c, i, r)
  {
    StripFramed(s, c);
    TrimRight(TrimLeft(s, c), c)
  }

  /** Trimming both ends leaves the part of `s` between the leading and the trailing run of `c`. */
  lemma StripFramed(s: string, c: char)
    ensures Framed(s, c, |s| - |TrimLeft(s, c)|, TrimRight(TrimLeft(s, c), c))
  {
    var left := TrimLeft(s, c);
    FramedSlices(s, c, left, TrimRight(left, c));
  }

  /** A prefix `t` of a suffix `left` of `s`, with only `c` cut away on either side, is framed by `c`. */
  lemma FramedSlices(s: string, c: char, left: string, t: string)
    requires |left| <= |s| && left == s[|s| - |left|..]
    requires |t| <= |left| && t == left[..|t|]
    requires forall k :: 0 <= k < |s| - |left| ==> s[k] == c
    requires forall k :: |t| <= k < |left| ==> left[k] == c
    ensures Framed(s, c, |s| - |left|, t)
  {
    var i := |s| - |left|;
    assert t == s[i..i + |t|];
    forall k | i + |t| <= k < |s|
      ensures s[k] == c
    {
      assert s[k] == left[k - i];
    }
  }

  /** `s.split(d)[0]`: the text before the first `d`, or all of `s` when there is none. */
  function BeforeFirst(s: string, d: char): (r: string)
    ensures d !in r
    ensures |r| <= |s| && r == s[..|r|]
    ensures |r| < |s| ==> s[|r|] == d
    ensures d !in s ==> r == s
  {
    if s == [] || s[0] == d then [] else [s[0]] + BeforeFirst(s[1..], d)
  }

  /** A text wrapped in `c` on both ends, with no `c` inside, is unwrapped by `strip(c)`. */
  lemma StripWrapped(s: string, c: char)
    requires c !in s
    ensures Strip([c] + s + [c], c) == s
  {
    var w := [c] + s + [c];
    assert w[1..] == s + [c];
    if s != [] {
      assert (s + [c])[0] == s[0] && s[0] in s;
      assert TrimLeft(s + [c], c) == s + [c];
      assert (s + [c])[..|s|] == s;
    }
    assert TrimRight(s, c) == s by {
      if s != [] {
        assert s[|s| - 1] in s;
      }
    }
  }

  /** When `d` first occurs at position `i`, `s.split(d)[0]` is the text before it. */
  lemma BeforeFirstAt(s: string, d: char, i: nat)
    requires i < |s| && s[i] == d && d !in s[..i]
    ensures BeforeFirst(s, d) == s[..i]
  {
  }

  /**
   * The first `d`-separated field of a text without `c`, wrapped in `c` or
   * not, once the `c`s are stripped.
   */
  lemma {:induction false} FirstFieldOfWrapped(s: string, c: char, d: char, i: nat)
    requires c !in s && i < |s| && s[i] == d && d !in s[..i]
    ensures BeforeFirst(Strip(s, c), d) == s[..i]
    ensures BeforeFirst(Strip([c] + s + [c], c), d) == s[..i]
  {
    assert s[0] in s && s[|s| - 1] in s;
    StripWrapped(s, c);
    BeforeFirstAt(s, d, i);
  }

  /**
   * `s.strip(c).split(d)[0]`, and `""` for `""`: the first `d`-separated field
   * of `s` once the surrounding `c`s are removed. It never contains `d`.
   */
  function FirstField(s: string, c: char, d: char): (r: string)
    ensures d !in r
    ensures s == [] ==> r == []
    ensures s != [] ==>
      var t := Strip(s, c);
      |r| <= |t| && r == t[..|r|] && (|r| < |t| ==> t[|r|] == d)
  {
    if s == [] then [] else BeforeFirst(Strip(s, c), d)
  }

  /** Lower-casing of one character; only ASCII letters change. */
  function LowerChar(c: char): (r: char)
    ensures 'A' <= c <= 'Z' ==> r as int == c as int + 32
    ensures !('A' <= c <= 'Z') ==> r == c
  {
    if 'A' <= c <= 'Z' then (c as int + 32) as char else c
  }

  /** `s.lower()` restricted to ASCII letters. */
  function Lower(s: string): (r: string)
    ensures |r| == |s|
    ensures forall i :: 0 <= i < |s| ==> r[i] == LowerChar(s[i])
  {
    if s == [] then [] else [LowerChar(s[0])] + Lower(s[1..])
  }

  /** Whether `pat` occurs in `s` starting at position `i`. */
  predicate OccursAt(s: string, pat: string, i: int)
  {
    0 <= i && i + |pat| <= |s| && s[i..i + |pat|] == pat
  }

  /** `pat in s`, for a non-empty pattern. */
  predicate Occurs(s: string, pat: string)
  {
    exists i :: 0 <= i <= |s| - |pat| && OccursAt(s, pat, i)
  }

  /** `s.replace(pat, rep)`: every occurrence of `pat`, scanned left to right, replaced. */
  function ReplaceAll(s: string, pat: string, rep: string): string
    requires pat != []
    decreases |s|
  {
    if |s| < |pat| then s
    else if s[..|pat|] == pat then rep + ReplaceAll(s[|pat|..], pat, rep)
    else [s[0]] + ReplaceAll(s[1..], pat, rep)
  }

  /** A text in which the pattern does not occur is left unchanged. */
  lemma {:induction false} ReplaceAllAbsent(s: string, pat: string, rep: string)
    requires pat != [] && !Occurs(s, pat)
    ensures ReplaceAll(s, pat, rep) == s
  {
    if |s| >= |pat| {
      if s[..|pat|] == pat {
        assert OccursAt(s, pat, 0);
      } else {
        if Occurs(s[1..], pat) {
          var i :| 0 <= i <= |s| - 1 - |pat| && OccursAt(s[1..], pat, i);
          assert s[i + 1..i + 1 + |pat|] == s[1..][i..i + |pat|];
          assert OccursAt(s, pat, i + 1);
        }
        ReplaceAllAbsent(s[1..], pat, rep);
      }
    }
  }

  /** A text that does not start with the pattern's first character keeps that character. */
  lemma ReplaceAllSkip(s: string, pat: string, rep: string)
    requires pat != [] && s != [] && s[0] != pat[0]
    ensures ReplaceAll(s, pat, rep) == [s[0]] + ReplaceAll(s[1..], pat, rep)
  {
    if |s| >= |pat| {
      assert s[..|pat|][0] != pat[0];
    }
  }

  /**
   * When the first character of the pattern does not occur in `body`, the
   * only occurrence in `body + pat` is the final one, and it is replaced.
   */
  lemma {:induction false} ReplaceAllSuffix(body: string, pat: string, rep: string)
    requires pat != [] && pat[0] !in body
    ensures ReplaceAll(body + pat, pat, rep) == body + rep
    decreases |body|
  {
    if body == [] {
      assert body + pat == pat;
      assert pat[..|pat|] == pat && pat[|pat|..] == [];
      assert ReplaceAll(pat, pat, rep) == rep + ReplaceAll([], pat, rep);
    } else {
      var s := body + pat;
      assert s[0] == body[0] && body[0] in body;
      ReplaceAllSkip(s, pat, rep);
      assert s[1..] == body[1..] + pat;
      ReplaceAllSuffix(body[1..], pat, rep);
      assert body == [body[0]] + body[1..];
    }
  }

  /**
   * Python's `a <= b` on strings: lexicographic order by code point, where a
   * proper prefix comes first.
   */
  predicate Below(a: string, b: string)
    decreases |a|
  {
    a == [] || (b != [] && (a[0] < b[0] || (a[0] == b[0] && Below(a[1..], b[1..]))))
  }

  /** Python's `a < b` on strings. */
  predicate StrictlyBelow(a: string, b: string)
  {
    Below(a, b) && a != b
  }

  lemma {:induction false} BelowTotal(a: string, b: string)
    ensures Below(a, b) || Below(b, a)
    decreases |a|
  {
    if a != [] && b != [] && a[0] == b[0] {
      BelowTotal(a[1..], b[1..]);
    }
  }

  lemma {:induction false} BelowAntisymmetric(a: string, b: string)
    requires Below(a, b) && Below(b, a)
    ensures a == b
    decreases |a|
  {
    if a != [] {
      BelowAntisymmetric(a[1..], b[1..]);
      assert a == [a[0]] + a[1..] && b == [b[0]] + b[1..];
    }
  }

  lemma {:induction false} BelowTransitive(a: string, b: string, c: string)
    requires Below(a, b) && Below(b, c)
    ensures Below(a, c)
    decreases |a|
  {
    if a != [] && a[0] == b[0] && b[0] == c[0] {
      BelowTransitive(a[1..], b[1..], c[1..]);
    }
  }
}

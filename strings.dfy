/** The Python `str` operations the interview coach uses, stated over Dafny
    strings (`seq<char>`, one element per code point): slicing `s[:n]`,
    `startswith`, `"\n".join` and ASCII case mapping. The module also
    defines substring occurrence, a suffix test and splitting into lines,
    which the lemmas use to state what the prompts contain and how they
    read line by line. */
module Strings {

  datatype Option<+T> = None | Some(value: T)

  function Min(a: int, b: int): int { if a <= b then a else b }

  function Max(a: int, b: int): int { if a <= b then b else a }

  /** Python's `s.startswith(prefix)`. */
  predicate StartsWith(s: string, prefix: string) { prefix <= s }

  /** `suffix` ends `s`. */
  predicate EndsWith(s: string, suffix: string) {
    |suffix| <= |s| && s[|s| - |suffix|..] == suffix
  }

  /** Python's `s[:n]` for any integer `n`: a non-negative `n` keeps the first
      `n` code points, a negative one drops the last `-n`. */
  function PyPrefix(s: string, n: int): (r: string)
    ensures r <= s
    ensures 0 <= n ==> |r| == Min(n, |s|)
    ensures n < 0 ==> |r| == Max(0, |s| + n)
  {
    if 0 <= n then
      (if n <= |s| then s[..n] else s)
    else
      (if -n <= |s| then s[..|s| + n] else "")
  }

  /** Python's `(s or "")`: a missing string reads as the empty one. */
  function OrEmpty(s: Option<string>): string {
    match s
    case None => ""
    case Some(v) => v
  }

  /** `t` occurs in `text` starting at position `i`. */
  predicate OccursAt(text: string, t: string, i: int) {
    0 <= i && i + |t| <= |text| && text[i..i + |t|] == t
  }

  /** `t` occurs somewhere in `text`. */
  predicate Contains(text: string, t: string) {
    exists i :: 0 <= i <= |text| - |t| && OccursAt(text, t, i)
  }

  lemma ContainsAt(text: string, t: string, i: int)
    requires OccursAt(text, t, i)
    ensures Contains(text, t)
  {
  }

  /** A substring stays a substring when text is added on either side. */
  lemma ContainsWithin(a: string, text: string, b: string, t: string)
    requires Contains(text, t)
    ensures Contains(a + text + b, t)
  {
    var i :| 0 <= i <= |text| - |t| && OccursAt(text, t, i);
    var whole := a + text + b;
    assert whole[|a|..|a| + |text|] == text;
    assert whole[|a| + i..|a| + i + |t|] == text[i..i + |t|];
    assert OccursAt(whole, t, |a| + i);
  }

  /** The middle of a three-part concatenation occurs right after the first
      part. */
  lemma OccursInMiddle(a: string, x: string, b: string)
    ensures OccursAt(a + x + b, x, |a|)
  {
    assert (a + x + b)[|a|..|a| + |x|] == x;
  }

  lemma ContainsMiddle(a: string, x: string, b: string)
    ensures Contains(a + x + b, x)
  {
    OccursInMiddle(a, x, b);
  }

  lemma ContainsLeft(a: string, b: string)
    ensures Contains(a + b, a)
  {
    assert OccursAt(a + b, a, 0);
  }

  lemma ContainsRight(a: string, b: string)
    ensures Contains(a + b, b)
  {
    assert OccursAt(a + b, b, |a|);
  }

  /** A substring of a substring is a substring. */
  lemma ContainsTrans(a: string, b: string, c: string)
    requires Contains(a, b) && Contains(b, c)
    ensures Contains(a, c)
  {
    var i :| 0 <= i <= |a| - |b| && OccursAt(a, b, i);
    var j :| 0 <= j <= |b| - |c| && OccursAt(b, c, j);
    assert forall k :: 0 <= k < |c| ==> c[k] == b[j + k] == a[i + j + k];
    assert a[i + j..i + j + |c|] == c;
    assert OccursAt(a, c, i + j);
  }

  /** An occurrence survives appending text after it. */
  lemma OccursExtend(s: string, t: string, i: int, x: string)
    requires OccursAt(s, t, i)
    ensures OccursAt(s + x, t, i)
  {
    assert (s + x)[i..i + |t|] == s[i..i + |t|];
  }

  /** The second part of a concatenation occurs right after the first. */
  lemma OccursLast(a: string, b: string)
    ensures OccursAt(a + b, b, |a|)
  {
    assert (a + b)[|a|..|a| + |b|] == b;
  }

  /** Where the parts of an eight-part concatenation sit: each part right
      after the one before it, the last one ending the whole. */
  lemma EightParts(b: string, ph: string, pt: string, ch: string, cv: string, jh: string, jd: string, nl: string)
    ensures var r := b + ph + pt + ch + cv + jh + jd + nl;
            var o2 := |b| + |ph|;
            var o4 := o2 + |pt| + |ch|;
            var o6 := o4 + |cv| + |jh|;
            StartsWith(r, b)
            && OccursAt(r, ph, |b|)
            && OccursAt(r, pt, o2)
            && OccursAt(r, ch, o2 + |pt|)
            && OccursAt(r, cv, o4)
            && OccursAt(r, jh, o4 + |cv|)
            && OccursAt(r, jd, o6)
            && OccursAt(r, nl, o6 + |jd|)
            && |r| == o6 + |jd| + |nl|
  {
    assert OccursAt(b, b, 0);
    OccursLast(b, ph);
    OccursLast(b + ph, pt);
    OccursLast(b + ph + pt, ch);
    OccursLast(b + ph + pt + ch, cv);
    OccursLast(b + ph + pt + ch + cv, jh);
    OccursLast(b + ph + pt + ch + cv + jh, jd);
    OccursLast(b + ph + pt + ch + cv + jh + jd, nl);
    OccursExtend(b, b, 0, ph);
    OccursExtend(b + ph, b, 0, pt);
    OccursExtend(b + ph + pt, b, 0, ch);
    OccursExtend(b + ph + pt + ch, b, 0, cv);
    OccursExtend(b + ph + pt + ch + cv, b, 0, jh);
    OccursExtend(b + ph + pt + ch + cv + jh, b, 0, jd);
    OccursExtend(b + ph + pt + ch + cv + jh + jd, b, 0, nl);
    OccursExtend(b + ph, ph, |b|, pt);
    OccursExtend(b + ph + pt, ph, |b|, ch);
    OccursExtend(b + ph + pt + ch, ph, |b|, cv);
    OccursExtend(b + ph + pt + ch + cv, ph, |b|, jh);
    OccursExtend(b + ph + pt + ch + cv + jh, ph, |b|, jd);
    OccursExtend(b + ph + pt + ch + cv + jh + jd, ph, |b|, nl);
    OccursExtend(b + ph + pt, pt, |b + ph|, ch);
    OccursExtend(b + ph + pt + ch, pt, |b + ph|, cv);
    OccursExtend(b + ph + pt + ch + cv, pt, |b + ph|, jh);
    OccursExtend(b + ph + pt + ch + cv + jh, pt, |b + ph|, jd);
    OccursExtend(b + ph + pt + ch + cv + jh + jd, pt, |b + ph|, nl);
    OccursExtend(b + ph + pt + ch, ch, |b + ph + pt|, cv);
    OccursExtend(b + ph + pt + ch + cv, ch, |b + ph + pt|, jh);
    OccursExtend(b + ph + pt + ch + cv + jh, ch, |b + ph + pt|, jd);
    OccursExtend(b + ph + pt + ch + cv + jh + jd, ch, |b + ph + pt|, nl);
    OccursExtend(b + ph + pt + ch + cv, cv, |b + ph + pt + ch|, jh);
    OccursExtend(b + ph + pt + ch + cv + jh, cv, |b + ph + pt + ch|, jd);
    OccursExtend(b + ph + pt + ch + cv + jh + jd, cv, |b + ph + pt + ch|, nl);
    OccursExtend(b + ph + pt + ch + cv + jh, jh, |b + ph + pt + ch + cv|, jd);
    OccursExtend(b + ph + pt + ch + cv + jh + jd, jh, |b + ph + pt + ch + cv|, nl);
    OccursExtend(b + ph + pt + ch + cv + jh + jd, jd, |b + ph + pt + ch + cv + jh|, nl);
  }

  /** An eight-part concatenation regrouped after its second part. */
  lemma RegroupAfterTwo(b: string, ph: string, pt: string, ch: string, cv: string, jh: string, jd: string, nl: string)
    ensures b + ph + pt + ch + cv + jh + jd + nl == b + ph + (pt + (ch + cv + jh + jd + nl))
  {
    var tail := ch + cv + jh + jd + nl;
    assert pt + ch + cv + jh + jd + nl == pt + tail;
  }

  /** A single line followed by a blank line splits into those two lines
      and then the lines of the rest. */
  lemma LinesAfterHeader(first: string, x: string)
    requires '\n' !in first
    ensures Split(first + "\n\n" + x, '\n') == [first, ""] + Split(x, '\n')
  {
    assert first + "\n\n" + x == first + ['\n'] + ("" + ['\n'] + x);
    SplitAfter(first, '\n', "" + ['\n'] + x);
    SplitAfter("", '\n', x);
  }

  /** Two lines put in front of a list of lines shift it by two. */
  lemma LinesShiftedByTwo(a: string, b: string, xs: seq<string>, ys: seq<string>)
    requires |ys| <= |xs| && xs[..|ys|] == ys
    ensures var lines := [a, b] + xs;
            |lines| == |xs| + 2 && lines[..2] == [a, b] && lines[2..2 + |ys|] == ys
  {
    var lines := [a, b] + xs;
    assert lines[2..2 + |ys|] == xs[..|ys|];
  }

  lemma ContainsPrefix(s: string, t: string)
    requires t <= s
    ensures Contains(s, t)
  {
    assert OccursAt(s, t, 0);
  }

  lemma ContainsSuffix(s: string, t: string)
    requires EndsWith(s, t)
    ensures Contains(s, t)
  {
    assert OccursAt(s, t, |s| - |t|);
  }

  /** Lower-casing of one character, ASCII letters only. */
  function LowerChar(c: char): char {
    if 'A' <= c <= 'Z' then ((c as int) + 32) as char else c
  }

  /** Upper-casing of one character, ASCII letters only. */
  function UpperChar(c: char): char {
    if 'a' <= c <= 'z' then ((c as int) - 32) as char else c
  }

  /** `s.lower()` restricted to ASCII letters. */
  function AsciiLower(s: string): (r: string)
    ensures |r| == |s|
    ensures forall i :: 0 <= i < |s| ==> r[i] == LowerChar(s[i])
  {
    if s == [] then [] else [LowerChar(s[0])] + AsciiLower(s[1..])
  }

  /** `s.upper()` restricted to ASCII letters. */
  function AsciiUpper(s: string): (r: string)
    ensures |r| == |s|
    ensures forall i :: 0 <= i < |s| ==> r[i] == UpperChar(s[i])
  {
    if s == [] then [] else [UpperChar(s[0])] + AsciiUpper(s[1..])
  }

  /** `s` has no ASCII capital letter. */
  predicate NoAsciiUpper(s: string) {
    forall k :: 0 <= k < |s| ==> !('A' <= s[k] <= 'Z')
  }

  lemma AsciiLowerFixed(s: string)
    requires NoAsciiUpper(s)
    ensures AsciiLower(s) == s
  {
  }

  lemma AsciiLowerAppend(a: string, b: string)
    ensures AsciiLower(a + b) == AsciiLower(a) + AsciiLower(b)
  {
    var l := AsciiLower(a + b);
    var r := AsciiLower(a) + AsciiLower(b);
    forall i | 0 <= i < |l|
      ensures l[i] == r[i]
    {
      if i < |a| {
        assert (a + b)[i] == a[i];
      } else {
        assert (a + b)[i] == b[i - |a|];
      }
    }
  }

  /** Upper-casing a text with no capitals and lower-casing it again gives
      the text back. */
  lemma LowerOfUpper(s: string)
    requires NoAsciiUpper(s)
    ensures AsciiLower(AsciiUpper(s)) == s
  {
    assert forall i :: 0 <= i < |s| ==> AsciiLower(AsciiUpper(s))[i] == s[i];
  }

  lemma AsciiLowerIdempotent(s: string)
    ensures AsciiLower(AsciiLower(s)) == AsciiLower(s)
  {
    assert forall i :: 0 <= i < |s| ==> AsciiLower(AsciiLower(s))[i] == AsciiLower(s)[i];
  }

  /** Python's `sep.join(parts)` for a one-character separator. */
  function Join(parts: seq<string>, sep: char): string
  {
    if |parts| == 0 then ""
    else if |parts| == 1 then parts[0]
    else parts[0] + [sep] + Join(parts[1..], sep)
  }

  /** The pieces of `s` between occurrences of the one-character separator
      `sep` (as `str.split(sep)` would give them): always at least one
      piece, and none of the pieces contains `sep`. */
  function Split(s: string, sep: char): (r: seq<string>)
    ensures |r| >= 1
    ensures forall i :: 0 <= i < |r| ==> sep !in r[i]
  {
    if s == [] then [""]
    else
      var rest := Split(s[1..], sep);
      if s[0] == sep then [""] + rest
      else [[s[0]] + rest[0]] + rest[1..]
  }

  /** Every piece of a sequence is free of the separator. */
  predicate NoSeparator(parts: seq<string>, sep: char) {
    forall i :: 0 <= i < |parts| ==> sep !in parts[i]
  }

  lemma {:induction false} SplitFree(p: string, sep: char)
    requires sep !in p
    ensures Split(p, sep) == [p]
  {
    if p != [] {
      SplitFree(p[1..], sep);
      assert p[0] != sep && [p[0]] + p[1..] == p;
    }
  }

  /** Splitting `p + sep + x` yields `p` first and then the pieces of `x`. */
  lemma {:induction false} SplitAfter(p: string, sep: char, x: string)
    requires sep !in p
    ensures Split(p + [sep] + x, sep) == [p] + Split(x, sep)
  {
    var s := p + [sep] + x;
    if p == [] {
      assert s[0] == sep && s[1..] == x;
    } else {
      assert s[0] == p[0] && s[1..] == p[1..] + [sep] + x;
      SplitAfter(p[1..], sep, x);
      assert [p[0]] + p[1..] == p;
    }
  }

  /** Splitting a joined block followed by `sep` and more text gives back the
      pieces of the block, then the pieces of the rest. */
  lemma {:induction false} SplitJoinThen(parts: seq<string>, sep: char, x: string)
    requires |parts| >= 1 && NoSeparator(parts, sep)
    ensures Split(Join(parts, sep) + [sep] + x, sep) == parts + Split(x, sep)
  {
    if |parts| == 1 {
      SplitAfter(parts[0], sep, x);
    } else {
      var tail := Join(parts[1..], sep) + [sep] + x;
      assert Join(parts, sep) + [sep] + x == parts[0] + [sep] + tail;
      SplitAfter(parts[0], sep, tail);
      SplitJoinThen(parts[1..], sep, x);
      assert [parts[0]] + parts[1..] == parts;
    }
  }

  /** Round trip: splitting a join of separator-free pieces returns them. */
  lemma {:induction false} SplitJoin(parts: seq<string>, sep: char)
    requires |parts| >= 1 && NoSeparator(parts, sep)
    ensures Split(Join(parts, sep), sep) == parts
  {
    if |parts| == 1 {
      SplitFree(parts[0], sep);
    } else {
      assert Join(parts, sep) == parts[0] + [sep] + Join(parts[1..], sep);
      SplitAfter(parts[0], sep, Join(parts[1..], sep));
      SplitJoin(parts[1..], sep);
      assert [parts[0]] + parts[1..] == parts;
    }
  }
}

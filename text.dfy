/**
 * String helpers standing for the Python `str` methods the core uses:
 * `upper`, `strip`, `rstrip(c)`, `isdigit`, `isalpha`, `startswith`,
 * `endswith`, `split('.')`, `zfill`, `in` and `"sep".join`.
 * Case mapping and the digit/letter classes are ASCII; `strip` removes
 * every character Python's `str.isspace` accepts.
 */
module Text {

  /** Python's `str.isspace` for a single character. */
  predicate IsSpace(c: char) {
    if c <= ' ' then c == ' ' || ('\t' <= c <= '\r') || '\U{1c}' <= c
    else if c < '\U{85}' then false
    else (c == '\U{85}' || c == '\U{a0}' || c == '\U{1680}'
          || ('\U{2000}' <= c <= '\U{200a}') || c == '\U{2028}' || c == '\U{2029}'
          || c == '\U{202f}' || c == '\U{205f}' || c == '\U{3000}')
  }

  predicate IsLower(c: char) { 'a' <= c <= 'z' }
  predicate IsUpperLetter(c: char) { 'A' <= c <= 'Z' }
  predicate IsDigit(c: char) { '0' <= c <= '9' }

  function UpperChar(c: char): (u: char)
    ensures !IsLower(u)
    ensures IsSpace(u) <==> IsSpace(c)
    ensures !IsLower(c) ==> u == c
  {
    if IsLower(c) then (c as int - 32) as char else c
  }

  /** `s.upper()` on the ASCII letters. */
  function Upper(s: string): (r: string)
    ensures |r| == |s|
    ensures forall i :: 0 <= i < |s| ==> r[i] == UpperChar(s[i])
  {
    if |s| == 0 then [] else [UpperChar(s[0])] + Upper(s[1..])
  }

  /** No lower-case ASCII letter anywhere: what `upper()` leaves behind. */
  predicate IsUpperCase(s: string) {
    forall i :: 0 <= i < |s| ==> !IsLower(s[i])
  }

  lemma UpperOfUpperCase(s: string)
    requires IsUpperCase(s)
    ensures Upper(s) == s
  {
  }

  /** Python's `isdigit()` (ASCII): false on the empty string. */
  predicate IsAllDigits(s: string) {
    |s| > 0 && forall i :: 0 <= i < |s| ==> IsDigit(s[i])
  }

  /** Python's `isalpha()` (ASCII): false on the empty string. */
  predicate IsAllLetters(s: string) {
    |s| > 0 && forall i :: 0 <= i < |s| ==> IsUpperLetter(s[i]) || IsLower(s[i])
  }

  /** Upper-case ASCII letters only, the regular-expression class `[A-Z]+`. */
  predicate IsUpperLetters(s: string) {
    |s| > 0 && forall i :: 0 <= i < |s| ==> IsUpperLetter(s[i])
  }

  predicate StartsWith(s: string, p: string) {
    |p| <= |s| && s[..|p|] == p
  }

  predicate EndsWith(s: string, p: string) {
    |p| <= |s| && s[|s| - |p|..] == p
  }

  /** Neither end of `s` is white space: what `strip()` guarantees. */
  predicate NoOuterSpace(s: string) {
    |s| == 0 || (!IsSpace(s[0]) && !IsSpace(s[|s| - 1]))
  }

  function LStrip(s: string): (r: string)
    ensures |r| <= |s|
    ensures |r| > 0 ==> !IsSpace(r[0])
    ensures IsUpperCase(s) ==> IsUpperCase(r)
  {
    if |s| > 0 && IsSpace(s[0]) then LStrip(s[1..]) else s
  }

  function RStrip(s: string): (r: string)
    ensures |r| <= |s| && r == s[..|r|]
    ensures |r| > 0 ==> !IsSpace(r[|r| - 1])
  {
    if |s| > 0 && IsSpace(s[|s| - 1]) then RStrip(s[..|s| - 1]) else s
  }

  /** `s.strip()`. */
  function Strip(s: string): (r: string)
    ensures NoOuterSpace(r)
    ensures IsUpperCase(s) ==> IsUpperCase(r)
  {
    var l := LStrip(s);
    var r := RStrip(l);
    assert forall i :: 0 <= i < |r| ==> r[i] == l[i];
    r
  }

  lemma {:induction false} StripOfStripped(s: string)
    requires NoOuterSpace(s)
    ensures Strip(s) == s
  {
    assert LStrip(s) == s;
    assert RStrip(s) == s;
  }

  /** `s.rstrip(c)` for one character `c`. */
  function RStripChar(s: string, c: char): (r: string)
    ensures |r| <= |s| && r == s[..|r|]
    ensures |r| > 0 ==> r[|r| - 1] != c
    ensures forall i :: |r| <= i < |s| ==> s[i] == c
  {
    if |s| > 0 && s[|s| - 1] == c then RStripChar(s[..|s| - 1], c) else s
  }

  function FirstIndex(s: string, c: char): (k: nat)
    requires c in s
    ensures k < |s| && s[k] == c && c !in s[..k]
  {
    if s[0] == c then 0 else 1 + FirstIndex(s[1..], c)
  }

  function LastIndex(s: string, c: char): (k: nat)
    requires c in s
    ensures k < |s| && s[k] == c && c !in s[k + 1..]
  {
    if s[|s| - 1] == c then |s| - 1
    else
      assert c in s[..|s| - 1] by {
        var j :| 0 <= j < |s| && s[j] == c;
        assert s[..|s| - 1][j] == c;
      }
      LastIndex(s[..|s| - 1], c)
  }

  /** `s.split(c)[0]`: the text before the first `c`, or all of `s`. */
  function BeforeFirst(s: string, c: char): (r: string)
    ensures c !in r
    ensures |r| <= |s| && r == s[..|r|]
    ensures |r| > 0 ==> r[0] == s[0]
    ensures c !in s ==> r == s
  {
    if c in s then s[..FirstIndex(s, c)] else s
  }

  /** `s.split(c)[-1]`: the text after the last `c`, or all of `s`. */
  function AfterLast(s: string, c: char): (r: string)
    ensures c !in r && |r| <= |s|
    ensures c !in s ==> r == s
    ensures c in s ==> |r| < |s| && s[|s| - |r| - 1] == c && r == s[|s| - |r|..]
  {
    if c in s then s[LastIndex(s, c) + 1..] else s
  }

  function Repeat(c: char, n: nat): (r: string)
    ensures |r| == n && forall i :: 0 <= i < n ==> r[i] == c
  {
    if n == 0 then [] else [c] + Repeat(c, n - 1)
  }

  /** `s.zfill(width)` for a string without a sign. */
  function ZFill(s: string, width: nat): (r: string)
    ensures |r| == if |s| >= width then |s| else width
    ensures EndsWith(r, s)
    ensures forall i :: 0 <= i < |r| - |s| ==> r[i] == '0'
  {
    if |s| >= width then s else Repeat('0', width - |s|) + s
  }

  /** `sub in s` for strings. */
  predicate ContainsSub(s: string, sub: string)
    decreases |s|
  {
    StartsWith(s, sub) || (|s| > 0 && ContainsSub(s[1..], sub))
  }

  lemma {:induction false} ContainsSubMiddle(pre: string, sub: string, post: string)
    ensures ContainsSub(pre + sub + post, sub)
    decreases |pre|
  {
    if |pre| == 0 {
      assert pre + sub + post == sub + post;
      assert (sub + post)[..|sub|] == sub;
    } else {
      assert (pre + sub + post)[1..] == pre[1..] + sub + post;
      ContainsSubMiddle(pre[1..], sub, post);
    }
  }

  /** `sep.join(parts)`. */
  function Join(parts: seq<string>, sep: string): string
  {
    if |parts| == 0 then ""
    else if |parts| == 1 then parts[0]
    else parts[0] + sep + Join(parts[1..], sep)
  }

  /** Every part survives in the joined text. */
  lemma {:induction false} JoinContainsParts(parts: seq<string>, sep: string, i: nat)
    requires i < |parts|
    ensures exists pre, post :: Join(parts, sep) == pre + parts[i] + post
    decreases |parts|
  {
    if |parts| == 1 {
      assert Join(parts, sep) == "" + parts[0] + "";
    } else if i == 0 {
      assert Join(parts, sep) == "" + parts[0] + (sep + Join(parts[1..], sep));
    } else {
      JoinContainsParts(parts[1..], sep, i - 1);
      var pre, post :| Join(parts[1..], sep) == pre + parts[1..][i - 1] + post;
      assert Join(parts, sep) == (parts[0] + sep + pre) + parts[i] + post;
    }
  }

  /** A separator that follows a separator-free head is where `split` cuts. */
  lemma {:induction false} BeforeFirstOfHead(head: string, rest: string, c: char)
    requires c !in head && |rest| > 0 && rest[0] == c
    ensures BeforeFirst(head + rest, c) == head
    decreases |head|
  {
    assert (head + rest)[|head|] == c;
    if |head| == 0 {
      assert head + rest == rest;
    } else {
      assert (head + rest)[0] == head[0] != c;
      assert (head + rest)[1..] == head[1..] + rest;
      BeforeFirstOfHead(head[1..], rest, c);
    }
  }

  /** Splitting on the last `c` of `head + [c] + tail`, where `tail` has none, yields `tail`. */
  lemma {:induction false} AfterLastOfTail(head: string, c: char, tail: string)
    requires c !in tail
    ensures c in head + [c] + tail && AfterLast(head + [c] + tail, c) == tail
    decreases |tail|
  {
    var s := head + [c] + tail;
    assert s[|head|] == c;
    if |tail| > 0 {
      assert s[|s| - 1] == tail[|tail| - 1];
      assert s[..|s| - 1] == head + [c] + tail[..|tail| - 1];
      AfterLastOfTail(head, c, tail[..|tail| - 1]);
    }
  }

  /** Ending in `c` followed by a `c`-free `x` means exactly that `x` is the last `c`-segment. */
  lemma EndsWithSegment(s: string, c: char, x: string)
    requires c !in x
    ensures EndsWith(s, [c] + x) <==> c in s && AfterLast(s, c) == x
  {
    if EndsWith(s, [c] + x) {
      var k := |s| - |x| - 1;
      assert s == s[..k] + [c] + x by { assert s[k..] == [c] + x; }
      AfterLastOfTail(s[..k], c, x);
    }
    if c in s && AfterLast(s, c) == x {
      assert s[|s| - |x| - 1..] == [c] + x;
    }
  }

  lemma SuffixCharIn(s: string, p: string, i: nat)
    requires EndsWith(s, p) && i < |p|
    ensures p[i] in s
  {
    assert s[|s| - |p| + i] == s[|s| - |p|..][i];
  }
}

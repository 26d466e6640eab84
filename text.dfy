/**
 * The string operations of Python and JavaScript that the core relies on:
 * `str.strip`, `startswith`/`endswith`, `find`/`rfind`, slicing `s[:n]`,
 * `upper`/`lower`, `split()` with no separator and `' '.join`.
 */
module Text {

  /** Python's `str.isspace` on one code point. */
  predicate IsSpace(c: char) {
    || c == ' '
    || ('\t' <= c <= '\r')
    || ('\U{1C}' <= c <= '\U{1F}')
    || c == '\U{85}' || c == '\U{A0}' || c == '\U{1680}'
    || ('\U{2000}' <= c <= '\U{200A}')
    || c == '\U{2028}' || c == '\U{2029}' || c == '\U{202F}'
    || c == '\U{205F}' || c == '\U{3000}'
  }

  /** Every character of `s` is whitespace (vacuously true of ""). */
  predicate AllSpace(s: string) {
    forall i :: 0 <= i < |s| ==> IsSpace(s[i])
  }

  /** A concatenation is all whitespace exactly when both parts are. */
  lemma AllSpaceConcat(a: string, b: string)
    ensures AllSpace(a + b) <==> AllSpace(a) && AllSpace(b)
  {
    if AllSpace(a + b) {
      assert forall i :: 0 <= i < |a| ==> a[i] == (a + b)[i];
      assert forall i :: 0 <= i < |b| ==> b[i] == (a + b)[|a| + i];
    }
    if AllSpace(a) && AllSpace(b) {
      assert forall i :: 0 <= i < |a + b| ==> (a + b)[i] == if i < |a| then a[i] else b[i - |a|];
    }
  }

  /** `s` has no leading and no trailing whitespace. */
  predicate Stripped(s: string) {
    s == [] || (!IsSpace(s[0]) && !IsSpace(s[|s| - 1]))
  }

  /** `r` occurs in `s` starting at index `i`. */
  predicate Occurs(r: string, s: string, i: int) {
    0 <= i && i + |r| <= |s| && r == s[i..i + |r|]
  }

  /** `r` is a contiguous piece of `s`. */
  ghost predicate IsInfix(r: string, s: string) {
    exists i :: Occurs(r, s, i)
  }

  /** A piece of a piece of a piece of `s` is a piece of `s`. */
  lemma InfixOfInfixOfInfix(r: string, m: string, a: string, s: string, i: int, j: int, k: int)
    requires Occurs(r, m, i) && Occurs(m, a, j) && Occurs(a, s, k)
    ensures IsInfix(r, s)
  {
    OccursTransitive(m, a, s, j, k);
    OccursTransitive(r, m, s, i, k + j);
  }

  lemma OccursTransitive(r: string, m: string, s: string, i: int, k: int)
    requires Occurs(r, m, i) && Occurs(m, s, k)
    ensures Occurs(r, s, k + i)
  {
    assert forall x :: 0 <= x < |r| ==> r[x] == m[i + x] == s[k + i + x];
  }

  /** The number of whitespace characters at the front of `s`. */
  function LeadingSpace(s: string): (n: nat)
    ensures n <= |s|
  {
    if |s| > 0 && IsSpace(s[0]) then 1 + LeadingSpace(s[1..]) else 0
  }

  /** The leading run is all whitespace and is followed by a non-space, if anything. */
  lemma {:induction false} LeadingSpaceIsMaximal(s: string)
    ensures AllSpace(s[..LeadingSpace(s)])
    ensures LeadingSpace(s) < |s| ==> !IsSpace(s[LeadingSpace(s)])
  {
    if |s| > 0 && IsSpace(s[0]) {
      LeadingSpaceIsMaximal(s[1..]);
      assert forall i :: 1 <= i < LeadingSpace(s) ==> s[i] == s[1..][i - 1];
    }
  }

  /** The number of whitespace characters at the end of `s`. */
  function TrailingSpace(s: string): (n: nat)
    ensures n <= |s|
  {
    if |s| > 0 && IsSpace(s[|s| - 1]) then 1 + TrailingSpace(s[..|s| - 1]) else 0
  }

  /** The trailing run is all whitespace and is preceded by a non-space, if anything. */
  lemma {:induction false} TrailingSpaceIsMaximal(s: string)
    ensures AllSpace(s[|s| - TrailingSpace(s)..])
    ensures TrailingSpace(s) < |s| ==> !IsSpace(s[|s| - 1 - TrailingSpace(s)])
  {
    if |s| > 0 && IsSpace(s[|s| - 1]) {
      var p := s[..|s| - 1];
      TrailingSpaceIsMaximal(p);
      assert forall i :: |s| - TrailingSpace(s) <= i < |s| - 1 ==> s[i] == p[i];
    }
  }

  /** Python's `s.lstrip()`. */
  function StripLeft(s: string): string {
    s[LeadingSpace(s)..]
  }

  /** Python's `s.rstrip()`. */
  function StripRight(s: string): string {
    s[..|s| - TrailingSpace(s)]
  }

  /** Python's `s.strip()`: the piece of `s` between its leading and its trailing whitespace. */
  function Strip(s: string): (r: string)
    ensures Occurs(r, s, LeadingSpace(s))
  {
    StripRight(StripLeft(s))
  }

  /** What `strip` removes is whitespace, and what it keeps has none around it. */
  lemma StripIsStripped(s: string)
    ensures Stripped(Strip(s))
    ensures AllSpace(s[..LeadingSpace(s)])
    ensures AllSpace(s[LeadingSpace(s) + |Strip(s)|..])
  {
    LeadingSpaceIsMaximal(s);
    StripKeepsNoOuterSpace(s);
    StripDropsTrailingSpace(s);
  }

  /** `strip` is `rstrip` after `lstrip`, as slices. */
  lemma StripSlices(s: string)
    ensures var t := s[LeadingSpace(s)..];
      Strip(s) == t[..|t| - TrailingSpace(t)]
  {
  }

  lemma StripKeepsNoOuterSpace(s: string)
    ensures Stripped(Strip(s))
  {
    var n := LeadingSpace(s);
    var t := s[n..];
    var m := TrailingSpace(t);
    StripSlices(s);
    LeadingSpaceIsMaximal(s);
    TrailingSpaceIsMaximal(t);
    StrippedPiece(s, n, t, m);
  }

  /** The piece between a maximal leading and a maximal trailing run of whitespace has none around it. */
  lemma StrippedPiece(s: string, n: nat, t: string, m: nat)
    requires n <= |s| && t == s[n..] && m <= |t|
    requires n < |s| ==> !IsSpace(s[n])
    requires m < |t| ==> !IsSpace(t[|t| - 1 - m])
    ensures Stripped(t[..|t| - m])
  {
    var r := t[..|t| - m];
    if r != [] {
      assert r[0] == s[n];
      assert r[|r| - 1] == t[|t| - 1 - m];
    }
  }

  lemma StripDropsTrailingSpace(s: string)
    ensures AllSpace(s[LeadingSpace(s) + |Strip(s)|..])
  {
    var n := LeadingSpace(s);
    var t := s[n..];
    var m := TrailingSpace(t);
    StripSlices(s);
    TrailingSpaceIsMaximal(t);
    SpaceAfterPiece(s, n, t, m);
  }

  /** A suffix of `t == s[n..]` is a suffix of `s`. */
  lemma SpaceAfterPiece(s: string, n: nat, t: string, m: nat)
    requires n <= |s| && t == s[n..] && m <= |t| && AllSpace(t[|t| - m..])
    ensures AllSpace(s[n + (|t| - m)..])
  {
    assert s[n + (|t| - m)..] == t[|t| - m..];
  }

  /** `strip` gives "" exactly for an all-whitespace string. */
  lemma StripEmpty(s: string)
    ensures Strip(s) == [] <==> AllSpace(s)
  {
    StripIsStripped(s);
    var n := LeadingSpace(s);
    if Strip(s) == [] {
      assert s == s[..n] + s[n..];
      assert forall i :: n <= i < |s| ==> s[i] == s[n..][i - n];
    } else {
      assert s[n] == Strip(s)[0];
    }
  }

  /** A string with no surrounding whitespace is its own strip. */
  lemma StripOfStripped(s: string)
    requires Stripped(s)
    ensures Strip(s) == s
  {
    if s != [] {
      assert LeadingSpace(s) == 0;
      assert TrailingSpace(s) == 0;
    }
  }

  /** `strip` is idempotent. */
  lemma StripIdempotent(s: string)
    ensures Strip(Strip(s)) == Strip(s)
  {
    StripIsStripped(s);
    StripOfStripped(Strip(s));
  }

  lemma {:induction false} LeadingSpaceSkipsSpace(a: string, t: string)
    requires AllSpace(a)
    ensures LeadingSpace(a + t) == |a| + LeadingSpace(t)
  {
    if a != [] {
      assert (a + t)[1..] == a[1..] + t;
      LeadingSpaceSkipsSpace(a[1..], t);
    } else {
      assert a + t == t;
    }
  }

  lemma {:induction false} TrailingSpaceSkipsSpace(t: string, c: string)
    requires AllSpace(c)
    ensures TrailingSpace(t + c) == TrailingSpace(t) + |c|
  {
    if c != [] {
      assert (t + c)[..|t + c| - 1] == t + c[..|c| - 1];
      TrailingSpaceSkipsSpace(t, c[..|c| - 1]);
    } else {
      assert t + c == t;
    }
  }

  /** Whitespace around a stripped body is exactly what `strip` removes. */
  lemma StripPadded(a: string, body: string, c: string)
    requires AllSpace(a) && AllSpace(c) && Stripped(body)
    ensures Strip(a + body + c) == body
  {
    var s := a + body + c;
    assert s == a + (body + c);
    LeadingSpaceSkipsSpace(a, body + c);
    if body == [] {
      assert body + c == c;
      LeadingSpaceSkipsSpace(c, []);
      assert c + [] == c;
    } else {
      assert LeadingSpace(body + c) == 0 by { assert (body + c)[0] == body[0]; }
      assert StripLeft(s) == body + c;
      TrailingSpaceSkipsSpace(body, c);
      assert TrailingSpace(body) == 0;
      assert (body + c)[..|body|] == body;
    }
  }

  /** Python's `s.startswith(p)`. */
  predicate StartsWith(s: string, p: string) {
    |p| <= |s| && s[..|p|] == p
  }

  /** Python's `s.endswith(p)`. */
  predicate EndsWith(s: string, p: string) {
    |p| <= |s| && s[|s| - |p|..] == p
  }

  /** Python's slice `s[:n]` for a non-negative `n`. */
  function Take(s: string, n: nat): (r: string)
    ensures |r| <= n && |r| <= |s| && r == s[..|r|]
    ensures |s| <= n ==> r == s
    ensures n < |s| ==> |r| == n
  {
    if |s| <= n then s else s[..n]
  }

  /** One code point upper-cased, ASCII letters only. */
  function UpperChar(c: char): char {
    if 'a' <= c <= 'z' then (c as int - 32) as char else c
  }

  /** One code point lower-cased, ASCII letters only. */
  function LowerChar(c: char): char {
    if 'A' <= c <= 'Z' then (c as int + 32) as char else c
  }

  /** Python's `s.upper()` / JavaScript's `s.toUpperCase()` on ASCII letters. */
  function Upper(s: string): string {
    seq(|s|, i requires 0 <= i < |s| => UpperChar(s[i]))
  }

  /** Python's `s.lower()` on ASCII letters. */
  function Lower(s: string): string {
    seq(|s|, i requires 0 <= i < |s| => LowerChar(s[i]))
  }

  /** No ASCII lower-case letter occurs in `s`. */
  predicate NoLowerCase(s: string) {
    forall i :: 0 <= i < |s| ==> !('a' <= s[i] <= 'z')
  }

  /** Upper-casing keeps the length, leaves no lower-case letter and is idempotent. */
  lemma UpperNormalises(s: string)
    ensures |Upper(s)| == |s| && NoLowerCase(Upper(s))
    ensures Upper(Upper(s)) == Upper(s)
  {
  }

  /** Upper-casing ignores the case of the input: lower-casing first changes nothing. */
  lemma UpperOfLower(s: string)
    ensures Upper(Lower(s)) == Upper(s)
  {
    assert forall i :: 0 <= i < |s| ==> UpperChar(LowerChar(s[i])) == UpperChar(s[i]);
  }

  /** Lower-casing ignores the case of the input. */
  lemma LowerOfUpper(s: string)
    ensures Lower(Upper(s)) == Lower(s)
  {
    assert forall i :: 0 <= i < |s| ==> LowerChar(UpperChar(s[i])) == LowerChar(s[i]);
  }

  /** Python's `s.find(c)`: the first index of `c`, or -1. */
  function Find(s: string, c: char): (r: int)
    ensures -1 <= r < |s|
    ensures r >= 0 ==> s[r] == c
    ensures forall k :: 0 <= k < |s| && (r < 0 || k < r) ==> s[k] != c
  {
    if |s| == 0 then -1
    else if s[0] == c then 0
    else var k := Find(s[1..], c); if k < 0 then -1 else k + 1
  }

  /** Python's `s.rfind(c)`: the last index of `c`, or -1. */
  function RFind(s: string, c: char): (r: int)
    ensures -1 <= r < |s|
    ensures r >= 0 ==> s[r] == c
    ensures forall k :: r < k < |s| ==> s[k] != c
  {
    if |s| == 0 then -1
    else if s[|s| - 1] == c then |s| - 1
    else RFind(s[..|s| - 1], c)
  }

  /** The longest prefix of `s` holding no whitespace. */
  function WordPrefix(s: string): (w: string)
    ensures |w| <= |s| && w == s[..|w|]
    ensures forall i :: 0 <= i < |w| ==> !IsSpace(w[i])
    ensures |w| == |s| || IsSpace(s[|w|])
  {
    if |s| == 0 || IsSpace(s[0]) then [] else [s[0]] + WordPrefix(s[1..])
  }

  /** A word of `split()`: non-empty and free of whitespace. */
  predicate IsWord(w: string) {
    w != [] && forall i :: 0 <= i < |w| ==> !IsSpace(w[i])
  }

  /** Python's `s.split()` with no separator: the maximal runs of non-whitespace. */
  function Words(s: string): (ws: seq<string>)
    ensures forall k :: 0 <= k < |ws| ==> IsWord(ws[k])
    ensures ws == [] <==> AllSpace(s)
    decreases |s|
  {
    var t := StripLeft(s);
    LeadingSpaceIsMaximal(s);
    if t == [] then
      assert s == s[..LeadingSpace(s)];
      []
    else
      var w := WordPrefix(t);
      assert IsWord(w);
      assert !AllSpace(s) by { assert s[LeadingSpace(s)] == t[0]; }
      var rest := Words(t[|w|..]);
      var ws := [w] + rest;
      forall k | 0 <= k < |ws| ensures IsWord(ws[k]) {
        if k > 0 { assert ws[k] == rest[k - 1]; }
      }
      ws
  }

  /** Python's `sep.join(ws)`. */
  function Join(ws: seq<string>, sep: string): string {
    if |ws| == 0 then []
    else if |ws| == 1 then ws[0]
    else ws[0] + sep + Join(ws[1..], sep)
  }

  lemma {:induction false} WordPrefixOfWord(w: string, t: string)
    requires forall i :: 0 <= i < |w| ==> !IsSpace(w[i])
    requires t == [] || IsSpace(t[0])
    ensures WordPrefix(w + t) == w
  {
    if w == [] {
      assert w + t == t;
    } else {
      assert (w + t)[1..] == w[1..] + t;
      WordPrefixOfWord(w[1..], t);
      assert [w[0]] + w[1..] == w;
    }
  }

  /** Leading whitespace does not change the words. */
  lemma WordsLeadingBlank(a: string, t: string)
    requires AllSpace(a)
    ensures Words(a + t) == Words(t)
  {
    LeadingSpaceSkipsSpace(a, t);
    assert (a + t)[|a| + LeadingSpace(t)..] == t[LeadingSpace(t)..];
  }

  lemma WordsLeadingWord(w: string, t: string)
    requires IsWord(w)
    requires t == [] || IsSpace(t[0])
    ensures Words(w + t) == [w] + Words(t)
  {
    var s := w + t;
    assert s[0] == w[0];
    assert StripLeft(s) == s;
    WordPrefixOfWord(w, t);
    assert s[|w|..] == t;
    if t != [] {
      assert t[0] == s[|w|];
    } else {
      assert Words(t) == [];
    }
  }

  /** Splitting the space-joined words gives back the words: `' '.join` and `split()` are inverse. */
  lemma {:induction false} WordsOfJoin(ws: seq<string>)
    requires forall k :: 0 <= k < |ws| ==> IsWord(ws[k])
    ensures Words(Join(ws, " ")) == ws
  {
    if |ws| == 0 {
    } else if |ws| == 1 {
      WordsLeadingWord(ws[0], []);
      assert ws[0] + [] == ws[0];
    } else {
      var w, tail := ws[0], ws[1..];
      assert forall k :: 0 <= k < |tail| ==> tail[k] == ws[k + 1];
      var rest := Join(tail, " ");
      assert Join(ws, " ") == w + " " + rest;
      assert w + " " + rest == w + (" " + rest);
      WordsLeadingWord(w, " " + rest);
      WordsLeadingBlank(" ", rest);
      WordsOfJoin(tail);
      assert [w] + tail == ws;
    }
  }
}

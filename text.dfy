/**
 * String helpers with the meaning JavaScript gives them: `trim`, the `\s`
 * character class, `toLowerCase` (on ASCII letters), `includes`, `startsWith`,
 * `split` and `join`, and the decimal rendering of a non-negative number in
 * a template literal.
 */
module Text {

  /** The characters JavaScript's `trim` removes and `\s` matches: the
      WhiteSpace and LineTerminator productions of ECMAScript. */
  predicate IsWhitespace(c: char) {
    c == '\t' || c == '\n' || c == '\U{000B}' || c == '\U{000C}' || c == '\r' || c == ' '
    || c == '\U{00A0}' || c == '\U{1680}' || ('\U{2000}' <= c <= '\U{200A}')
    || c == '\U{2028}' || c == '\U{2029}' || c == '\U{202F}' || c == '\U{205F}'
    || c == '\U{3000}' || c == '\U{FEFF}'
  }

  predicate IsAsciiUpper(c: char) { 'A' <= c <= 'Z' }

  predicate IsAsciiLetter(c: char) { 'A' <= c <= 'Z' || 'a' <= c <= 'z' }

  predicate IsDigit(c: char) { '0' <= c <= '9' }

  /** `\w` without the `u` flag: ASCII letters, digits and the underscore. */
  predicate IsWordChar(c: char) { IsAsciiLetter(c) || IsDigit(c) || c == '_' }

  predicate NoWhitespace(s: string) {
    forall k :: 0 <= k < |s| ==> !IsWhitespace(s[k])
  }

  predicate AllWhitespace(s: string) {
    forall k :: 0 <= k < |s| ==> IsWhitespace(s[k])
  }

  function LowerChar(c: char): char {
    if IsAsciiUpper(c) then (c as int + 32) as char else c
  }

  /** `toLowerCase`, restricted to the ASCII letters. */
  function ToLower(s: string): (r: string)
    ensures |r| == |s|
    ensures forall k :: 0 <= k < |s| ==> r[k] == LowerChar(s[k])
  {
    seq(|s|, k requires 0 <= k < |s| => LowerChar(s[k]))
  }

  /** No ASCII capital in `s`: what `toLowerCase` leaves alone. */
  predicate NoAsciiUpper(s: string) {
    forall k :: 0 <= k < |s| ==> !IsAsciiUpper(s[k])
  }

  lemma ToLowerOfNoUpper(s: string)
    requires NoAsciiUpper(s)
    ensures ToLower(s) == s
  {
  }

  lemma ToLowerIdempotent(s: string)
    ensures ToLower(ToLower(s)) == ToLower(s)
  {
  }

  /** The number of whitespace characters at the front of `s`. */
  function LeadingWhitespace(s: string): (n: nat)
    ensures n <= |s|
    ensures forall k :: 0 <= k < n ==> IsWhitespace(s[k])
    ensures n < |s| ==> !IsWhitespace(s[n])
  {
    if s != [] && IsWhitespace(s[0]) then 1 + LeadingWhitespace(s[1..]) else 0
  }

  /** The number of whitespace characters at the end of `s`. */
  function TrailingWhitespace(s: string): (n: nat)
    ensures n <= |s|
    ensures forall k :: |s| - n <= k < |s| ==> IsWhitespace(s[k])
    ensures n < |s| ==> !IsWhitespace(s[|s| - 1 - n])
  {
    if s != [] && IsWhitespace(s[|s| - 1]) then 1 + TrailingWhitespace(s[..|s| - 1]) else 0
  }

  /** `trimStart`. */
  function TrimStart(s: string): string {
    s[LeadingWhitespace(s)..]
  }

  /** `trimEnd`. */
  function TrimEnd(s: string): string {
    s[..|s| - TrailingWhitespace(s)]
  }

  /** `trim`: the longest infix of `s` that neither starts nor ends with whitespace. */
  function Trim(s: string): (r: string)
    ensures |r| <= |s|
    ensures r == [] || (!IsWhitespace(r[0]) && !IsWhitespace(r[|r| - 1]))
  {
    TrimEnd(TrimStart(s))
  }

  /** The number of characters stripped from the front by `Trim`. */
  lemma TrimShape(s: string) returns (a: nat)
    ensures a + |Trim(s)| <= |s|
    ensures Trim(s) == s[a..a + |Trim(s)|]
    ensures forall k :: 0 <= k < a ==> IsWhitespace(s[k])
    ensures forall k :: a + |Trim(s)| <= k < |s| ==> IsWhitespace(s[k])
  {
    a := LeadingWhitespace(s);
    var t := s[a..];
    var b := TrailingWhitespace(t);
    assert Trim(s) == t[..|t| - b];
    forall k | a + |t| - b <= k < |s| ensures IsWhitespace(s[k]) {
      assert s[k] == t[k - a];
    }
  }

  lemma TrimOfTrimmed(s: string)
    requires s == [] || (!IsWhitespace(s[0]) && !IsWhitespace(s[|s| - 1]))
    ensures Trim(s) == s
  {
  }

  lemma TrimIdempotent(s: string)
    ensures Trim(Trim(s)) == Trim(s)
  {
    TrimOfTrimmed(Trim(s));
  }

  /** The count of leading whitespace is fixed by its two ensures. */
  lemma LeadingWhitespaceUnique(s: string, n: nat)
    requires n <= |s| && AllWhitespace(s[..n]) && (n < |s| ==> !IsWhitespace(s[n]))
    ensures LeadingWhitespace(s) == n
  {
  }

  lemma TrailingWhitespaceUnique(s: string, n: nat)
    requires n <= |s| && AllWhitespace(s[|s| - n..]) && (n < |s| ==> !IsWhitespace(s[|s| - 1 - n]))
    ensures TrailingWhitespace(s) == n
  {
  }

  /** Whitespace in front of a text that is not blank goes with `trimStart`. */
  lemma TrimStartAppend(w: string, s: string, t: string)
    requires AllWhitespace(w) && !AllWhitespace(s)
    ensures TrimStart(w + s + t) == TrimStart(s) + t
  {
    var n := LeadingWhitespace(s);
    var u := w + s + t;
    var front := u[..|w| + n];
    forall k | 0 <= k < |front| ensures IsWhitespace(front[k]) {
      if k >= |w| {
        assert front[k] == s[k - |w|];
      }
    }
    assert u[|w| + n] == s[n];
    LeadingWhitespaceUnique(u, |w| + n);
    assert u[|w| + n..] == s[n..] + t;
  }

  /** Whitespace after a text is removed by `trimEnd`. */
  lemma TrimEndAppend(s: string, w: string)
    requires AllWhitespace(w)
    ensures TrimEnd(s + w) == TrimEnd(s)
  {
    var n := TrailingWhitespace(s);
    var u := s + w;
    var back := u[|u| - (n + |w|)..];
    forall k | 0 <= k < |back| ensures IsWhitespace(back[k]) {
      var j := |u| - (n + |w|) + k;
      if j < |s| {
        assert back[k] == s[j];
      }
    }
    if n < |s| {
      assert u[|u| - 1 - (n + |w|)] == s[|s| - 1 - n];
    }
    TrailingWhitespaceUnique(u, n + |w|);
    assert u[..|u| - (n + |w|)] == s[..|s| - n];
  }

  /** `trim` ignores whitespace added around the text. */
  lemma TrimIgnoresSurrounding(pre: string, s: string, post: string)
    requires AllWhitespace(pre) && AllWhitespace(post)
    ensures Trim(pre + s + post) == Trim(s)
  {
    if AllWhitespace(s) {
      var u := pre + s + post;
      forall k | 0 <= k < |u| ensures IsWhitespace(u[..|u|][k]) {
        if |pre| <= k < |pre| + |s| {
          assert u[k] == s[k - |pre|];
        } else if k >= |pre| + |s| {
          assert u[k] == post[k - |pre| - |s|];
        }
      }
      LeadingWhitespaceUnique(u, |u|);
      assert s[..|s|] == s;
      LeadingWhitespaceUnique(s, |s|);
    } else {
      TrimStartAppend(pre, s, post);
      TrimEndAppend(TrimStart(s), post);
    }
  }

  /** Lower-casing and trimming commute: lower-casing changes no character
      into or out of whitespace. */
  lemma TrimToLower(s: string)
    ensures Trim(ToLower(s)) == ToLower(Trim(s))
  {
    var a := LeadingWhitespace(s);
    LeadingOfLower(s);
    var t := s[a..];
    assert ToLower(s)[a..] == ToLower(t);
    var b := TrailingWhitespace(t);
    TrailingOfLower(t);
    assert ToLower(t)[..|t| - b] == ToLower(t[..|t| - b]);
  }

  lemma LowerCharWhitespace(c: char)
    ensures IsWhitespace(LowerChar(c)) == IsWhitespace(c)
  {
  }

  lemma LeadingOfLower(s: string)
    ensures LeadingWhitespace(ToLower(s)) == LeadingWhitespace(s)
  {
    var l, a := ToLower(s), LeadingWhitespace(s);
    var front := l[..a];
    forall k | 0 <= k < |front| ensures IsWhitespace(front[k]) {
      LowerCharWhitespace(s[k]);
    }
    if a < |s| {
      LowerCharWhitespace(s[a]);
    }
    LeadingWhitespaceUnique(l, a);
  }

  lemma TrailingOfLower(s: string)
    ensures TrailingWhitespace(ToLower(s)) == TrailingWhitespace(s)
  {
    var l, b := ToLower(s), TrailingWhitespace(s);
    var back := l[|l| - b..];
    forall k | 0 <= k < |back| ensures IsWhitespace(back[k]) {
      LowerCharWhitespace(s[|s| - b + k]);
    }
    if b < |s| {
      LowerCharWhitespace(s[|s| - 1 - b]);
    }
    TrailingWhitespaceUnique(l, b);
  }

  predicate StartsWith(s: string, p: string) {
    |p| <= |s| && s[..|p|] == p
  }

  /** `includes`, written as a left-to-right scan. */
  predicate Contains(s: string, p: string)
    decreases |s|
  {
    StartsWith(s, p) || (s != [] && Contains(s[1..], p))
  }

  ghost predicate OccursAt(s: string, p: string, i: int) {
    0 <= i && i + |p| <= |s| && s[i..i + |p|] == p
  }

  lemma {:induction false} ContainsImpliesOccurs(s: string, p: string) returns (i: nat)
    requires Contains(s, p)
    ensures OccursAt(s, p, i)
    decreases |s|
  {
    if StartsWith(s, p) {
      i := 0;
    } else {
      var j := ContainsImpliesOccurs(s[1..], p);
      i := j + 1;
      assert s[1..][j..j + |p|] == s[i..i + |p|];
    }
  }

  lemma {:induction false} OccursImpliesContains(s: string, p: string, i: int)
    requires OccursAt(s, p, i)
    ensures Contains(s, p)
    decreases i
  {
    if i > 0 {
      assert s[1..][i - 1..i - 1 + |p|] == s[i..i + |p|];
      OccursImpliesContains(s[1..], p, i - 1);
    }
  }

  /** The scan agrees with the reference definition "p occurs somewhere in s". */
  lemma ContainsIff(s: string, p: string)
    ensures Contains(s, p) <==> exists i :: OccursAt(s, p, i)
  {
    if Contains(s, p) {
      var i := ContainsImpliesOccurs(s, p);
    }
    if exists i :: OccursAt(s, p, i) {
      var i :| OccursAt(s, p, i);
      OccursImpliesContains(s, p, i);
    }
  }

  lemma ContainsInSuffix(a: string, b: string, p: string)
    requires Contains(b, p)
    ensures Contains(a + b, p)
  {
    var i := ContainsImpliesOccurs(b, p);
    assert (a + b)[|a| + i..|a| + i + |p|] == b[i..i + |p|];
    OccursImpliesContains(a + b, p, |a| + i);
  }

  lemma ContainsInPrefix(a: string, b: string, p: string)
    requires Contains(a, p)
    ensures Contains(a + b, p)
  {
    var i := ContainsImpliesOccurs(a, p);
    assert (a + b)[i..i + |p|] == a[i..i + |p|];
    OccursImpliesContains(a + b, p, i);
  }

  /** An occurrence of a non-empty word without whitespace survives `Trim`. */
  lemma ContainsSurvivesTrim(s: string, p: string)
    requires Contains(s, p) && p != [] && NoWhitespace(p)
    ensures Contains(Trim(s), p)
  {
    var i := ContainsImpliesOccurs(s, p);
    var a := TrimShape(s);
    var r := Trim(s);
    OccursBounds(s, p, i, a, |r|);
    OccursInInfix(s, p, i, a, |r|);
    assert s[a..a + |r|] == r;
    OccursImpliesContains(r, p, i - a);
  }

  lemma OccursBounds(s: string, p: string, i: int, a: nat, n: nat)
    requires OccursAt(s, p, i) && p != [] && NoWhitespace(p) && a + n <= |s|
    requires forall k :: 0 <= k < a ==> IsWhitespace(s[k])
    requires forall k :: a + n <= k < |s| ==> IsWhitespace(s[k])
    ensures a <= i && i + |p| <= a + n
  {
    assert s[i] == s[i..i + |p|][0] == p[0];
    var e := i + |p| - 1;
    assert s[e] == s[i..i + |p|][|p| - 1] == p[|p| - 1];
  }

  lemma OccursInInfix(s: string, p: string, i: int, a: nat, n: nat)
    requires OccursAt(s, p, i) && a <= i && i + |p| <= a + n <= |s|
    ensures OccursAt(s[a..a + n], p, i - a)
  {
    var t := s[a..a + n];
    forall k | 0 <= k < |p| ensures t[i - a + k] == p[k] {
      assert t[i - a + k] == s[i + k] == s[i..i + |p|][k];
    }
    assert t[i - a..i - a + |p|] == p;
  }

  /** The number of characters of `s` that satisfy `f`. */
  function CountIf(s: string, f: char -> bool): (n: nat)
    ensures n <= |s|
  {
    if s == [] then 0 else (if f(s[0]) then 1 else 0) + CountIf(s[1..], f)
  }

  lemma {:induction false} CountIfMono(s: string, f: char -> bool, g: char -> bool)
    requires forall c :: f(c) ==> g(c)
    ensures CountIf(s, f) <= CountIf(s, g)
  {
    if s != [] {
      CountIfMono(s[1..], f, g);
    }
  }

  function DigitChar(d: nat): char
    requires d < 10
  {
    "0123456789"[d]
  }

  /** The decimal rendering of `n` in a template literal. */
  function NatToString(n: nat): (r: string)
    ensures |r| >= 1
    ensures forall k :: 0 <= k < |r| ==> IsDigit(r[k])
    ensures r[0] == '0' ==> n == 0
  {
    if n < 10 then [DigitChar(n)] else NatToString(n / 10) + [DigitChar(n % 10)]
  }

  /** `split(/\s+/)`: pieces between maximal runs of whitespace. */
  function SplitWhitespace(s: string): (r: seq<string>)
    ensures |r| >= 1
    ensures forall k :: 0 <= k < |r| ==> NoWhitespace(r[k])
    decreases |s|
  {
    var i := FirstWhitespace(s);
    if i == |s| then [s]
    else
      var rest := TrimStart(s[i..]);
      [s[..i]] + SplitWhitespace(rest)
  }

  /** The index of the first whitespace character of `s`, or `|s|`. */
  function FirstWhitespace(s: string): (i: nat)
    ensures i <= |s|
    ensures i < |s| ==> IsWhitespace(s[i])
    ensures forall k :: 0 <= k < i ==> !IsWhitespace(s[k])
  {
    if s == [] then 0
    else if IsWhitespace(s[0]) then 0
    else 1 + FirstWhitespace(s[1..])
  }

  /** `split(sep)` on a one-character separator. */
  function SplitOn(s: string, sep: char): (r: seq<string>)
    ensures |r| >= 1
    ensures forall k :: 0 <= k < |r| ==> sep !in r[k]
    decreases |s|
  {
    var i := FirstIndexOf(s, sep);
    if i == |s| then [s] else [s[..i]] + SplitOn(s[i + 1..], sep)
  }

  function FirstIndexOf(s: string, c: char): (i: nat)
    ensures i <= |s|
    ensures i < |s| ==> s[i] == c
    ensures c !in s[..i]
  {
    if s == [] then 0
    else if s[0] == c then 0
    else 1 + FirstIndexOf(s[1..], c)
  }

  /** `join(sep)`. */
  function Join(parts: seq<string>, sep: string): string {
    if parts == [] then ""
    else if |parts| == 1 then parts[0]
    else parts[0] + sep + Join(parts[1..], sep)
  }

  /** Splitting a join on a one-character separator that no part contains
      gives the parts back. */
  lemma {:induction false} SplitJoin(parts: seq<string>, sep: char)
    requires |parts| >= 1
    requires forall k :: 0 <= k < |parts| ==> sep !in parts[k]
    ensures SplitOn(Join(parts, [sep]), sep) == parts
  {
    var s := Join(parts, [sep]);
    NotFoundIsLength(parts[0], sep);
    if |parts| == 1 {
    } else {
      var tail := Join(parts[1..], [sep]);
      assert s == parts[0] + [sep] + tail;
      FirstIndexAfter(parts[0], sep, tail);
      assert s[..|parts[0]|] == parts[0];
      assert s[|parts[0]| + 1..] == tail;
      SplitJoin(parts[1..], sep);
    }
  }

  /** Joining the pieces of a split gives the text back. */
  lemma {:induction false} JoinSplit(s: string, sep: char)
    ensures Join(SplitOn(s, sep), [sep]) == s
    decreases |s|
  {
    var i := FirstIndexOf(s, sep);
    if i < |s| {
      var rest := s[i + 1..];
      JoinSplit(rest, sep);
      assert SplitOn(s, sep) == [s[..i]] + SplitOn(rest, sep);
      assert s == s[..i] + [sep] + rest;
    }
  }

  /** A character that neither the parts nor the separator hold is not in
      their join. */
  lemma {:induction false} JoinAvoids(parts: seq<string>, sep: string, c: char)
    requires c !in sep
    requires forall k :: 0 <= k < |parts| ==> c !in parts[k]
    ensures c !in Join(parts, sep)
  {
    if |parts| > 1 {
      JoinAvoids(parts[1..], sep, c);
    }
  }

  /** A join starts with its first part. */
  lemma JoinStartsWithFirst(parts: seq<string>, sep: string)
    requires |parts| >= 1
    ensures StartsWith(Join(parts, sep), parts[0])
  {
  }

  lemma StartsWithTrans(s: string, p: string, q: string)
    requires StartsWith(s, p) && StartsWith(p, q)
    ensures StartsWith(s, q)
  {
    assert s[..|q|] == s[..|p|][..|q|];
  }

  /** A text starts with at most one of two prefixes whose first characters
      differ. */
  lemma StartsWithDiffer(s: string, p: string, q: string)
    requires StartsWith(s, p) && p != [] && q != [] && p[0] != q[0]
    ensures !StartsWith(s, q)
  {
    assert s[0] == p[0];
  }

  /** `trim` keeps a prefix that starts and ends with a character other than
      whitespace. */
  lemma TrimKeepsPrefix(p: string, q: string)
    requires p != [] && !IsWhitespace(p[0]) && !IsWhitespace(p[|p| - 1])
    ensures StartsWith(Trim(p + q), p)
  {
    var u := p + q;
    assert u[0] == p[0];
    LeadingWhitespaceUnique(u, 0);
    var n := TrailingWhitespace(u);
    assert u[|p| - 1] == p[|p| - 1];
    assert |u| - n >= |p|;
    assert Trim(u) == u[..|u| - n];
    assert Trim(u)[..|p|] == p;
  }

  lemma NotFoundIsLength(s: string, c: char)
    requires c !in s
    ensures FirstIndexOf(s, c) == |s|
  {
  }

  lemma {:induction false} FirstIndexAfter(a: string, c: char, b: string)
    requires c !in a
    ensures FirstIndexOf(a + [c] + b, c) == |a|
  {
    if a != [] {
      assert (a + [c] + b)[1..] == a[1..] + [c] + b;
      assert a[0] in a;
      FirstIndexAfter(a[1..], c, b);
    }
  }
}

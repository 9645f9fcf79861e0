/** String helpers shared by the client and the generator, with the facts the rest of the model needs. */
module Strings {


  predicate IsAsciiDigit(c: char) { '0' <= c <= '9' }

  predicate IsAsciiUpper(c: char) { 'A' <= c <= 'Z' }

  predicate IsAsciiLower(c: char) { 'a' <= c <= 'z' }

  predicate IsAsciiLetter(c: char) { IsAsciiUpper(c) || IsAsciiLower(c) }

  predicate AllDigits(s: string) { forall i :: 0 <= i < |s| ==> IsAsciiDigit(s[i]) }

  function LowerChar(c: char): (r: char)
    ensures !IsAsciiUpper(r)
    ensures IsAsciiUpper(c) ==> IsAsciiLower(r) && r as int == c as int + 32
    ensures !IsAsciiUpper(c) ==> r == c
  {
    if IsAsciiUpper(c) then (c as int + 32) as char else c
  }

  /** `String.prototype.toLowerCase`, restricted to the ASCII letters. */
  function ToLower(s: string): (r: string)
    ensures |r| == |s|
  {
    if s == [] then [] else [LowerChar(s[0])] + ToLower(s[1..])
  }

  /** Lower-casing works character by character. */
  lemma {:induction false} ToLowerAt(s: string)
    ensures forall i :: 0 <= i < |s| ==> ToLower(s)[i] == LowerChar(s[i])
  {
    if s != [] {
      ToLowerAt(s[1..]);
      assert ToLower(s) == [LowerChar(s[0])] + ToLower(s[1..]);
    }
  }

  lemma ToLowerIdempotent(s: string)
    ensures ToLower(ToLower(s)) == ToLower(s)
  {
  }

  predicate StartsWith(s: string, prefix: string) {
    |prefix| <= |s| && s[..|prefix|] == prefix
  }

  predicate EndsWith(s: string, suffix: string) {
    |suffix| <= |s| && s[|s| - |suffix|..] == suffix
  }

  /** `s` occurs in `t` starting at index `i`. */
  predicate OccursAt(t: string, s: string, i: int) {
    0 <= i && i + |s| <= |t| && t[i..i + |s|] == s
  }

  /** `s` occurs in `t` at some position. */
  predicate Contains(t: string, s: string) {
    exists i | 0 <= i <= |t| :: OccursAt(t, s, i)
  }

  /** An occurrence in a suffix is an occurrence in the whole string. */
  lemma OccursShift(t: string, s: string, k: nat, i: int)
    requires k <= |t| && OccursAt(t[k..], s, i)
    ensures OccursAt(t, s, i + k)
  {
    assert t[i + k..i + k + |s|] == t[k..][i..i + |s|];
  }

  /** An occurrence in a prefix is an occurrence in the whole string. */
  lemma OccursPrefix(t: string, u: string, s: string, i: int)
    requires OccursAt(t, s, i)
    ensures OccursAt(t + u, s, i)
  {
    assert (t + u)[i..i + |s|] == t[i..i + |s|];
  }

  /** `xs.join(sep)`. */
  function Join(xs: seq<string>, sep: string): (r: string)
    ensures xs == [] ==> r == []
    ensures |xs| == 1 ==> r == xs[0]
  {
    if xs == [] then [] else if |xs| == 1 then xs[0] else xs[0] + sep + Join(xs[1..], sep)
  }

  lemma {:induction false} JoinAppend(xs: seq<string>, x: string, sep: string)
    ensures Join(xs + [x], sep) == if xs == [] then x else Join(xs, sep) + sep + x
  {
    if |xs| > 1 {
      assert (xs + [x])[1..] == xs[1..] + [x];
      JoinAppend(xs[1..], x, sep);
    } else if |xs| == 1 {
      assert (xs + [x])[1..] == [x];
    }
  }

  /** `join("")`: the strings one after another. */
  function Concat(xs: seq<string>): (r: string)
    ensures |xs| == 1 ==> r == xs[0]
  {
    if xs == [] then [] else xs[0] + Concat(xs[1..])
  }

  lemma {:induction false} ConcatAppend(xs: seq<string>, x: string)
    ensures Concat(xs + [x]) == Concat(xs) + x
  {
    if xs != [] {
      assert (xs + [x])[1..] == xs[1..] + [x];
      ConcatAppend(xs[1..], x);
    }
  }

  lemma {:induction false} ConcatJoin(xs: seq<string>, ys: seq<string>)
    ensures Concat(xs + ys) == Concat(xs) + Concat(ys)
  {
    if xs == [] {
      assert xs + ys == ys;
    } else {
      assert (xs + ys)[0] == xs[0] && (xs + ys)[1..] == xs[1..] + ys;
      ConcatJoin(xs[1..], ys);
    }
  }

  /** Every element of a join without a separator occurs in the result. */
  lemma {:induction false} ConcatContainsEach(xs: seq<string>, k: nat)
    requires k < |xs|
    ensures Contains(Concat(xs), xs[k])
  {
    var t := Concat(xs);
    assert t == xs[0] + Concat(xs[1..]);
    if k == 0 {
      assert OccursAt(t, xs[0], 0);
    } else {
      ConcatContainsEach(xs[1..], k - 1);
      var i :| OccursAt(Concat(xs[1..]), xs[k], i);
      assert t[|xs[0]|..] == Concat(xs[1..]);
      OccursShift(t, xs[k], |xs[0]|, i);
    }
  }
  /** Each piece of a concatenation occurs in it. */
  lemma ConcatContainsMember(xs: seq<string>, x: string)
    requires x in xs
    ensures Contains(Concat(xs), x)
  {
    var k :| 0 <= k < |xs| && xs[k] == x;
    ConcatContainsEach(xs, k);
  }

  lemma ContainsTransitive(t: string, u: string, s: string)
    requires Contains(t, u) && Contains(u, s)
    ensures Contains(t, s)
  {
    var i :| 0 <= i <= |t| && OccursAt(t, u, i);
    var j :| 0 <= j <= |u| && OccursAt(u, s, j);
    assert i + j + |s| <= |t|;
    forall k | 0 <= k < |s| ensures t[i + j + k] == s[k] {
      assert t[i..i + |u|][j + k] == u[j + k];
      assert u[j..j + |s|][k] == s[k];
    }
    assert t[i + j..i + j + |s|] == s;
    assert OccursAt(t, s, i + j);
  }


  /** `String.prototype.split(sep)` for a one-character separator: never empty. */
  function Split(s: string, sep: char): (r: seq<string>)
    ensures |r| >= 1
    ensures forall i :: 0 <= i < |r| ==> sep !in r[i]
  {
    SplitFrom(s, sep, [])
  }

  function SplitFrom(s: string, sep: char, current: string): (r: seq<string>)
    requires sep !in current
    ensures |r| >= 1
    ensures forall i :: 0 <= i < |r| ==> sep !in r[i]
    decreases |s|
  {
    if s == [] then [current]
    else if s[0] == sep then [current] + SplitFrom(s[1..], sep, [])
    else SplitFrom(s[1..], sep, current + [s[0]])
  }

  lemma {:induction false} SplitFromPrefix(a: string, s: string, sep: char, current: string)
    requires sep !in current && sep !in a
    ensures SplitFrom(a + s, sep, current) == SplitFrom(s, sep, current + a)
    decreases |a|
  {
    if a == [] {
      assert a + s == s && current + a == current;
    } else {
      assert a[0] in a;
      assert (a + s)[0] == a[0] && (a + s)[1..] == a[1..] + s;
      assert SplitFrom(a + s, sep, current) == SplitFrom(a[1..] + s, sep, current + [a[0]]);
      SplitFromPrefix(a[1..], s, sep, current + [a[0]]);
      assert current + [a[0]] + a[1..] == current + a;
    }
  }

  /** The first part of a split is everything before the first separator. */
  lemma SplitCons(a: string, sep: char, b: string)
    requires sep !in a
    ensures Split(a + [sep] + b, sep) == [a] + Split(b, sep)
  {
    SplitFromPrefix(a, [sep] + b, sep, []);
    assert a + [sep] + b == a + ([sep] + b);
    assert ([sep] + b)[1..] == b;
    assert [] + a == a;
  }

  lemma SplitNoSep(a: string, sep: char)
    requires sep !in a
    ensures Split(a, sep) == [a]
  {
    SplitFromPrefix(a, [], sep, []);
    assert a + [] == a && [] + a == a;
  }

  /**
   * The text a string replacement stands for at one match, as `String.prototype.replaceAll`
   * expands it (GetSubstitution, section 22.1.3.19.1 of ECMA-262): `$$` is `$`, `$&` the
   * matched text, `` $` `` the text before the match and `$'` the text after it. A string
   * pattern has no capture groups, so every other `$` stands for itself.
   */
  function Expand(template: string, matched: string, before: string, after: string): string
    decreases |template|
  {
    if template == [] then []
    else if template[0] == '$' && |template| >= 2 && template[1] == '$' then "$" + Expand(template[2..], matched, before, after)
    else if template[0] == '$' && |template| >= 2 && template[1] == '&' then matched + Expand(template[2..], matched, before, after)
    else if template[0] == '$' && |template| >= 2 && template[1] == '`' then before + Expand(template[2..], matched, before, after)
    else if template[0] == '$' && |template| >= 2 && template[1] == '\'' then after + Expand(template[2..], matched, before, after)
    else [template[0]] + Expand(template[1..], matched, before, after)
  }

  /** A replacement without `$` is inserted as it is. */
  lemma {:induction false} ExpandPlain(template: string, matched: string, before: string, after: string)
    requires '$' !in template
    ensures Expand(template, matched, before, after) == template
    decreases |template|
  {
    if template != [] {
      assert template[1..] == template[1..];
      assert '$' !in template[1..] by {
        forall j | 0 <= j < |template[1..]| ensures template[1..][j] != '$' {
          assert template[1..][j] == template[j + 1];
        }
      }
      ExpandPlain(template[1..], matched, before, after);
      assert template == [template[0]] + template[1..];
    }
  }

  /** The four patterns a string replacement expands, and a `$` before anything else kept as it is. */
  lemma ExpandPatterns(matched: string, before: string, after: string)
    ensures Expand("$$", matched, before, after) == "$"
    ensures Expand("$&", matched, before, after) == matched
    ensures Expand("$`", matched, before, after) == before
    ensures Expand("$'", matched, before, after) == after
    ensures Expand("$1", matched, before, after) == "$1"
  {
    assert "$$"[2..] == [] && "$&"[2..] == [] && "$`"[2..] == [] && "$'"[2..] == [];
    assert "$1"[1..] == "1" && "1"[1..] == [];
    assert matched + [] == matched && before + [] == before && after + [] == after;
  }

  /** The expansion of one string replacement, as a function of the text before and after the match. */
  function Substitution(replacement: string, pattern: string): (string, string) -> string {
    (before: string, after: string) => Expand(replacement, pattern, before, after)
  }

  /**
   * `s.replaceAll(pattern, ...)` from position `k` of `s` on: every leftmost, non-overlapping
   * occurrence is replaced by `expand` of the whole text before and after it.
   */
  function ReplaceAllFrom(s: string, pattern: string, expand: (string, string) -> string, k: nat): string
    requires |pattern| > 0 && k <= |s|
    decreases |s| - k
  {
    if |s| - k < |pattern| then s[k..]
    else if OccursAt(s, pattern, k) then expand(s[..k], s[k + |pattern|..]) + ReplaceAllFrom(s, pattern, expand, k + |pattern|)
    else [s[k]] + ReplaceAllFrom(s, pattern, expand, k + 1)
  }

  /** `s.replaceAll(pattern, replacement)` with a string pattern and a string replacement. */
  function ReplaceAll(s: string, pattern: string, replacement: string): string
    requires |pattern| > 0
  {
    ReplaceAllFrom(s, pattern, Substitution(replacement, pattern), 0)
  }

  /** A rest without the pattern is copied unchanged. */
  lemma {:induction false} ReplaceAllAbsent(s: string, pattern: string, expand: (string, string) -> string, k: nat)
    requires |pattern| > 0 && k <= |s| && !Contains(s[k..], pattern)
    ensures ReplaceAllFrom(s, pattern, expand, k) == s[k..]
    decreases |s| - k
  {
    if |s| - k >= |pattern| {
      assert s[k..][0..|pattern|] == s[k..k + |pattern|];
      assert !OccursAt(s[k..], pattern, 0);
      var rest := s[k + 1..];
      assert s[k..][1..] == rest;
      forall i | OccursAt(rest, pattern, i) ensures false {
        OccursShift(s[k..], pattern, 1, i);
      }
      ReplaceAllAbsent(s, pattern, expand, k + 1);
      assert s[k..] == [s[k]] + s[k + 1..];
    }
  }

  /** Away from an occurrence one character is copied. */
  lemma ReplaceAllCopy(s: string, pattern: string, expand: (string, string) -> string, k: nat)
    requires |pattern| > 0 && k + |pattern| <= |s| && !OccursAt(s, pattern, k)
    ensures ReplaceAllFrom(s, pattern, expand, k) == [s[k]] + ReplaceAllFrom(s, pattern, expand, k + 1)
  {
  }

  /** At an occurrence the expanded replacement is written. */
  lemma ReplaceAllMatch(s: string, pattern: string, expand: (string, string) -> string, k: nat)
    requires |pattern| > 0 && OccursAt(s, pattern, k)
    ensures ReplaceAllFrom(s, pattern, expand, k) ==
      expand(s[..k], s[k + |pattern|..]) + ReplaceAllFrom(s, pattern, expand, k + |pattern|)
  {
  }

  /** Before `|a|`, no occurrence starts in `a + pattern + b` when none lies within `a` and the pattern's head. */
  lemma NoEarlyOccurrence(s: string, a: string, pattern: string, b: string, k: nat)
    requires |pattern| > 0 && s == a + pattern + b && k < |a|
    requires !Contains(a + pattern[..|pattern| - 1], pattern)
    ensures k + |pattern| <= |s| && !OccursAt(s, pattern, k)
  {
    var head := a + pattern[..|pattern| - 1];
    assert forall j :: 0 <= j < |head| ==> s[j] == head[j];
    assert s[k..k + |pattern|] == head[k..k + |pattern|];
    assert !OccursAt(head, pattern, k);
  }

  /** The occurrence right after `a` is replaced by the replacement expanded against `a` and `b`. */
  lemma ReplaceAllAtFirst(s: string, a: string, pattern: string, b: string, expand: (string, string) -> string)
    requires |pattern| > 0 && s == a + pattern + b
    ensures ReplaceAllFrom(s, pattern, expand, |a|) ==
      expand(a, b) + ReplaceAllFrom(s, pattern, expand, |a| + |pattern|)
  {
    assert s[..|a|] == a && s[|a| + |pattern|..] == b && s[|a|..|a| + |pattern|] == pattern;
    ReplaceAllMatch(s, pattern, expand, |a|);
  }

  /** A stretch with no occurrence starting in it is copied as it is. */
  lemma {:induction false} ReplaceAllSkip(s: string, pattern: string, expand: (string, string) -> string, k: nat, m: nat)
    requires |pattern| > 0 && k <= m && m + |pattern| <= |s|
    requires forall j :: k <= j < m ==> !OccursAt(s, pattern, j)
    ensures ReplaceAllFrom(s, pattern, expand, k) == s[k..m] + ReplaceAllFrom(s, pattern, expand, m)
    decreases m - k
  {
    var rest := ReplaceAllFrom(s, pattern, expand, m);
    if k < m {
      ReplaceAllCopy(s, pattern, expand, k);
      ReplaceAllSkip(s, pattern, expand, k + 1, m);
      assert s[k..m] == [s[k]] + s[k + 1..m];
      assert [s[k]] + (s[k + 1..m] + rest) == [s[k]] + s[k + 1..m] + rest;
    } else {
      assert s[k..m] + rest == rest;
    }
  }

  /**
   * Before the first occurrence the text is copied, and the first occurrence is replaced by
   * the replacement expanded against the text before and after it.
   */
  lemma ReplaceAllFirst(s: string, a: string, pattern: string, b: string, replacement: string)
    requires |pattern| > 0 && s == a + pattern + b
    requires !Contains(a + pattern[..|pattern| - 1], pattern)
    ensures ReplaceAll(s, pattern, replacement) ==
      a + Expand(replacement, pattern, a, b) + ReplaceAllFrom(s, pattern, Substitution(replacement, pattern), |a| + |pattern|)
  {
    var expand := Substitution(replacement, pattern);
    forall j | 0 <= j < |a| ensures !OccursAt(s, pattern, j) {
      NoEarlyOccurrence(s, a, pattern, b, j);
    }
    ReplaceAllSkip(s, pattern, expand, 0, |a|);
    assert s[0..|a|] == a;
    ReplaceAllAtFirst(s, a, pattern, b, expand);
  }

  /** Drops every leading `c` (the regular expression `/^c+/` replaced by ""). */
  function TrimLeading(s: string, c: char): (r: string)
    ensures |r| <= |s| && r == s[|s| - |r|..]
    ensures r == [] || r[0] != c
    ensures forall i :: 0 <= i < |s| - |r| ==> s[i] == c
  {
    if s != [] && s[0] == c then TrimLeading(s[1..], c) else s
  }

  function Repeat(c: char, n: nat): (r: string)
    ensures |r| == n && forall i :: 0 <= i < n ==> r[i] == c
  {
    if n == 0 then [] else [c] + Repeat(c, n - 1)
  }

  function DigitChar(d: nat): (c: char)
    requires d < 10
    ensures IsAsciiDigit(c)
  {
    ('0' as int + d) as char
  }

  /** `n.toString()` for a natural number: decimal, no leading zero. */
  function NatToString(n: nat): (r: string)
    ensures |r| >= 1 && AllDigits(r)
    ensures |r| > 1 ==> r[0] != '0'
  {
    if n < 10 then [DigitChar(n)] else NatToString(n / 10) + [DigitChar(n % 10)]
  }

  /** Reads a run of ASCII digits as a number, the inverse of `NatToString`. */
  function DigitsValue(s: string): nat
    requires AllDigits(s)
  {
    if s == [] then 0 else DigitsValue(s[..|s| - 1]) * 10 + (s[|s| - 1] as int - '0' as int)
  }

  lemma {:induction false} NatToStringRoundTrip(n: nat)
    ensures DigitsValue(NatToString(n)) == n
  {
    if n >= 10 {
      var s := NatToString(n);
      assert s[..|s| - 1] == NatToString(n / 10);
      NatToStringRoundTrip(n / 10);
    }
  }

  /** Distinct numbers print differently, so a page number is recoverable from its query string. */
  lemma NatToStringInjective(m: nat, n: nat)
    requires NatToString(m) == NatToString(n)
    ensures m == n
  {
    NatToStringRoundTrip(m);
    NatToStringRoundTrip(n);
  }
}

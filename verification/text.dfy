/** The handful of Python `str` operations the agents are built from:
    substring tests (`in`), `lower`/`upper`, `strip`, `split`, `join`,
    `replace`, `count`, and rendering a non-negative int. Strings are
    `seq<char>`; case mapping is ASCII-only (see the README). */
module Text {

  // ---------------------------------------------------------------------
  // Substring tests
  // ---------------------------------------------------------------------

  predicate StartsWith(s: string, p: string) {
    |p| <= |s| && s[..|p|] == p
  }

  /** Python's `p in s` for two strings. */
  predicate Contains(s: string, p: string)
    decreases |s|
  {
    StartsWith(s, p) || (|s| > 0 && Contains(s[1..], p))
  }

  /** `any(k in s for k in keys)`. */
  predicate ContainsAny(s: string, keys: seq<string>) {
    exists i :: 0 <= i < |keys| && Contains(s, keys[i])
  }

  /** An occurrence at a known position is found by `Contains`. */
  lemma {:induction false} ContainsAt(s: string, p: string, i: nat)
    requires i + |p| <= |s| && s[i..i + |p|] == p
    ensures Contains(s, p)
    decreases i
  {
    if i == 0 {
      assert s[..|p|] == s[0..0 + |p|];
    } else {
      assert s[1..][i - 1..i - 1 + |p|] == s[i..i + |p|];
      ContainsAt(s[1..], p, i - 1);
    }
  }

  /** And every occurrence `Contains` finds is at some position. */
  lemma {:induction false} ContainsWitness(s: string, p: string) returns (i: nat)
    requires Contains(s, p)
    ensures i + |p| <= |s| && s[i..i + |p|] == p
    decreases |s|
  {
    if StartsWith(s, p) {
      i := 0;
    } else {
      var j := ContainsWitness(s[1..], p);
      assert s[1..][j..j + |p|] == s[j + 1..j + 1 + |p|];
      i := j + 1;
    }
  }

  lemma ContainsPrefixOf(p: string, s: string)
    ensures Contains(p + s, p)
  {
    assert (p + s)[..|p|] == p;
  }

  /** An occurrence in `a + b` that cannot start inside `a` lies in `b`. */
  lemma {:induction false} ContainsSkip(a: string, b: string, q: string)
    requires |q| > 0 && q[0] !in a
    requires Contains(a + b, q)
    ensures Contains(b, q)
    decreases |a|
  {
    if |a| > 0 {
      assert (a + b)[0] == a[0];
      assert !StartsWith(a + b, q);
      assert (a + b)[1..] == a[1..] + b;
      ContainsSkip(a[1..], b, q);
    } else {
      assert a + b == b;
    }
  }

  lemma {:induction false} ContainsSuffix(s: string, p: string, k: nat)
    requires k <= |s|
    requires Contains(s[k..], p)
    ensures Contains(s, p)
  {
    var i := ContainsWitness(s[k..], p);
    assert s[k..][i..i + |p|] == s[k + i..k + i + |p|];
    ContainsAt(s, p, k + i);
  }

  // ---------------------------------------------------------------------
  // Case mapping (ASCII) and whitespace
  // ---------------------------------------------------------------------

  function LowerChar(c: char): char {
    if 'A' <= c <= 'Z' then (c as int + 32) as char else c
  }

  function UpperChar(c: char): char {
    if 'a' <= c <= 'z' then (c as int - 32) as char else c
  }

  /** `s.lower()`: same length, every letter mapped independently. */
  function Lower(s: string): (r: string)
    ensures |r| == |s|
    ensures forall i :: 0 <= i < |s| ==> r[i] == LowerChar(s[i])
  {
    seq(|s|, i requires 0 <= i < |s| => LowerChar(s[i]))
  }

  function Upper(s: string): (r: string)
    ensures |r| == |s|
    ensures forall i :: 0 <= i < |s| ==> r[i] == UpperChar(s[i])
  {
    seq(|s|, i requires 0 <= i < |s| => UpperChar(s[i]))
  }

  /** Python's `str.isspace` for one character. */
  predicate IsSpace(c: char) {
    var n := c as int;
    (0x09 <= n <= 0x0D) || (0x1C <= n <= 0x20) || n == 0x85 || n == 0xA0
    || n == 0x1680 || (0x2000 <= n <= 0x200A) || n == 0x2028 || n == 0x2029
    || n == 0x202F || n == 0x205F || n == 0x3000
  }

  /** `s.lstrip()`: drop the leading whitespace. */
  function LStrip(s: string): (r: string)
    ensures |r| <= |s| && r == s[|s| - |r|..]
    ensures |r| > 0 ==> !IsSpace(r[0])
    ensures forall i :: 0 <= i < |s| - |r| ==> IsSpace(s[i])
    decreases |s|
  {
    if |s| > 0 && IsSpace(s[0]) then LStrip(s[1..]) else s
  }

  /** `s.rstrip()`: drop the trailing whitespace. */
  function RStrip(s: string): (r: string)
    ensures |r| <= |s| && r == s[..|r|]
    ensures |r| > 0 ==> !IsSpace(r[|r| - 1])
    ensures forall i :: |r| <= i < |s| ==> IsSpace(s[i])
    decreases |s|
  {
    if |s| > 0 && IsSpace(s[|s| - 1]) then RStrip(s[..|s| - 1]) else s
  }

  /** `s.strip()`. */
  function Strip(s: string): string {
    RStrip(LStrip(s))
  }

  /** `s.strip()` is empty exactly when `s` is all whitespace. */
  lemma StripEmptyIffBlank(s: string)
    ensures |Strip(s)| == 0 <==> forall i :: 0 <= i < |s| ==> IsSpace(s[i])
  {
  }

  /** The indentation the coder measures: `len(line) - len(line.lstrip())`. */
  function Indent(line: string): nat {
    |line| - |LStrip(line)|
  }

  function Spaces(n: nat): (r: string)
    ensures |r| == n && forall i :: 0 <= i < n ==> r[i] == ' '
  {
    seq(n, i => ' ')
  }

  /** `len(s.split())`: the number of maximal runs of non-whitespace. */
  function WordCount(s: string): nat
    decreases |s|
  {
    if |s| == 0 then 0
    else if |s| == 1 then (if IsSpace(s[0]) then 0 else 1)
    else if !IsSpace(s[0]) && IsSpace(s[1]) then 1 + WordCount(s[1..])
    else WordCount(s[1..])
  }

  // ---------------------------------------------------------------------
  // split / join
  // ---------------------------------------------------------------------

  /** `s.split(sep)` for a one-character separator: never empty, no part
      holds the separator. */
  function Split(s: string, sep: char): (r: seq<string>)
    ensures |r| >= 1
    ensures forall i :: 0 <= i < |r| ==> sep !in r[i]
    decreases |s|
  {
    if |s| == 0 then [""]
    else if s[0] == sep then [""] + Split(s[1..], sep)
    else
      var rest := Split(s[1..], sep);
      [[s[0]] + rest[0]] + rest[1..]
  }

  /** `sep.join(parts)`. */
  function Join(parts: seq<string>, sep: char): string
    decreases |parts|
  {
    if |parts| == 0 then ""
    else if |parts| == 1 then parts[0]
    else parts[0] + [sep] + Join(parts[1..], sep)
  }

  lemma JoinConsHead(c: char, parts: seq<string>, sep: char)
    requires |parts| >= 1
    ensures Join([[c] + parts[0]] + parts[1..], sep) == [c] + Join(parts, sep)
  {
    var ps := [[c] + parts[0]] + parts[1..];
    assert ps[1..] == parts[1..];
  }

  /** Joining the parts of a split gives the string back. */
  lemma {:induction false} JoinSplit(s: string, sep: char)
    ensures Join(Split(s, sep), sep) == s
    decreases |s|
  {
    if |s| == 0 {
    } else if s[0] == sep {
      JoinSplit(s[1..], sep);
      var rest := Split(s[1..], sep);
      assert ([""] + rest)[1..] == rest;
      assert s == [sep] + s[1..];
    } else {
      JoinSplit(s[1..], sep);
      JoinConsHead(s[0], Split(s[1..], sep), sep);
      assert s == [s[0]] + s[1..];
    }
  }

  lemma {:induction false} SplitNoSep(x: string, sep: char)
    requires sep !in x
    ensures Split(x, sep) == [x]
    decreases |x|
  {
    if |x| > 0 {
      SplitNoSep(x[1..], sep);
      assert [x[0]] + x[1..] == x;
    }
  }

  lemma {:induction false} SplitAtSep(x: string, y: string, sep: char)
    requires sep !in x
    ensures Split(x + [sep] + y, sep) == [x] + Split(y, sep)
    decreases |x|
  {
    var s := x + [sep] + y;
    if |x| == 0 {
      assert s[1..] == y;
    } else {
      assert s[1..] == x[1..] + [sep] + y;
      SplitAtSep(x[1..], y, sep);
      assert [x[0]] + x[1..] == x;
    }
  }

  /** Splitting a join of separator-free parts gives the parts back. */
  lemma {:induction false} SplitJoin(parts: seq<string>, sep: char)
    requires |parts| >= 1
    requires forall i :: 0 <= i < |parts| ==> sep !in parts[i]
    ensures Split(Join(parts, sep), sep) == parts
    decreases |parts|
  {
    if |parts| == 1 {
      SplitNoSep(parts[0], sep);
    } else {
      SplitJoin(parts[1..], sep);
      SplitAtSep(parts[0], Join(parts[1..], sep), sep);
      assert [parts[0]] + parts[1..] == parts;
    }
  }

  // ---------------------------------------------------------------------
  // replace / count
  // ---------------------------------------------------------------------

  /** `s.replace(p, r)`: leftmost, non-overlapping, every occurrence. */
  function ReplaceAll(s: string, p: string, r: string): string
    requires |p| > 0
    decreases |s|
  {
    if |s| < |p| then s
    else if s[..|p|] == p then r + ReplaceAll(s[|p|..], p, r)
    else [s[0]] + ReplaceAll(s[1..], p, r)
  }

  /** Replacing a pattern that does not occur changes nothing. */
  lemma {:induction false} ReplaceAbsent(s: string, p: string, r: string)
    requires |p| > 0 && !Contains(s, p)
    ensures ReplaceAll(s, p, r) == s
    decreases |s|
  {
    if |s| >= |p| {
      ReplaceAbsent(s[1..], p, r);
      assert [s[0]] + s[1..] == s;
    }
  }

  /** Replacing a pattern by itself changes nothing. */
  lemma {:induction false} ReplaceSelf(s: string, p: string)
    requires |p| > 0
    ensures ReplaceAll(s, p, p) == s
    decreases |s|
  {
    if |s| >= |p| {
      if s[..|p|] == p {
        ReplaceSelf(s[|p|..], p);
        assert s[..|p|] + s[|p|..] == s;
      } else {
        ReplaceSelf(s[1..], p);
        assert [s[0]] + s[1..] == s;
      }
    }
  }

  /** Text that starts a replaced string and holds no first character of
      the replacement was already at the start of the original. */
  lemma {:induction false} ReplaceKeepsPrefix(t: string, p: string, r: string, w: string)
    requires |p| > 0 && |r| > 0 && r[0] !in w
    requires StartsWith(ReplaceAll(t, p, r), w)
    ensures StartsWith(t, w)
    decreases |t|
  {
    if |w| > 0 && |t| >= |p| {
      if t[..|p|] == p {
        ReplaceMatchHead(t, p, r);
        assert false;
      } else {
        var rest := ReplaceAll(t[1..], p, r);
        assert ReplaceAll(t, p, r) == [t[0]] + rest;
        assert w[0] == t[0];
        assert rest[..|w| - 1] == ([t[0]] + rest)[1..|w|];
        assert StartsWith(rest, w[1..]);
        ReplaceKeepsPrefix(t[1..], p, r, w[1..]);
        assert t[..|w|] == [t[0]] + t[1..][..|w| - 1];
        assert w == [w[0]] + w[1..];
      }
    }
  }

  /** A string that starts with `p` is replaced starting with `r`. */
  lemma ReplaceMatchHead(t: string, p: string, r: string)
    requires |p| > 0 && |r| > 0 && |p| <= |t| && t[..|p|] == p
    ensures ReplaceAll(t, p, r) == r + ReplaceAll(t[|p|..], p, r)
    ensures ReplaceAll(t, p, r)[0] == r[0]
  {
  }

  /** `ReplaceKeepsPrefix` as an implication. */
  lemma ReplaceKeepsStart(t: string, p: string, r: string, w: string)
    requires |p| > 0 && |r| > 0 && r[0] !in w
    ensures StartsWith(ReplaceAll(t, p, r), w) ==> StartsWith(t, w)
  {
    if StartsWith(ReplaceAll(t, p, r), w) {
      ReplaceKeepsPrefix(t, p, r, w);
    }
  }

  /** Replacing in a string whose head opens no match keeps the head. */
  lemma ReplaceConsHead(c: char, y: string, p: string, r: string)
    requires |p| > 0 && !StartsWith([c] + y, p)
    ensures ReplaceAll([c] + y, p, r) == [c] + ReplaceAll(y, p, r)
  {
    assert ([c] + y)[1..] == y;
  }

  /** Starting with `w` after one character is starting with `w[1..]`. */
  lemma ConsStarts(c: char, y: string, w: string)
    requires |w| > 0
    ensures StartsWith([c] + y, w) <==> c == w[0] && StartsWith(y, w[1..])
  {
    if |w| <= |[c] + y| {
      assert ([c] + y)[..|w|] == [c] + y[..|w| - 1];
      assert w == [w[0]] + w[1..];
    }
  }

  /** A string does not start with one whose first character differs. */
  lemma FirstCharDiffers(s: string, w: string)
    requires |s| > 0 && |w| > 0 && s[0] != w[0]
    ensures !StartsWith(s, w)
  {
    assert |w| > |s| || s[..|w|][0] == s[0];
  }

  /** After `replace(p, r)` the string holds no `q`, provided `q` is `p`
      or did not occur before, and neither `q` nor `r` can begin inside
      the other. */
  lemma {:induction false} ReplaceLeavesNo(s: string, p: string, r: string, q: string)
    requires |p| > 0 && |r| > 0 && |q| > 0
    requires r[0] !in q && q[0] !in r
    requires q == p || !Contains(s, q)
    ensures !Contains(ReplaceAll(s, p, r), q)
    decreases |s|
  {
    var res := ReplaceAll(s, p, r);
    if |s| < |p| {
      if q == p {
        if Contains(s, q) {
          var i := ContainsWitness(s, q);
        }
      }
    } else if s[..|p|] == p {
      var t := ReplaceAll(s[|p|..], p, r);
      if q != p && Contains(s[|p|..], q) {
        ContainsSuffix(s, q, |p|);
      }
      ReplaceLeavesNo(s[|p|..], p, r, q);
      if Contains(r + t, q) {
        ContainsSkip(r, t, q);
      }
    } else {
      var t := ReplaceAll(s[1..], p, r);
      ReplaceLeavesNo(s[1..], p, r, q);
      assert res == [s[0]] + t;
      assert res[1..] == t;
      if StartsWith(res, q) {
        assert q[0] == s[0];
        assert t[..|q| - 1] == res[1..|q|];
        assert StartsWith(t, q[1..]);
        ReplaceKeepsPrefix(s[1..], p, r, q[1..]);
        assert false;
      }
    }
  }

  /** One of `a`, `b` is a prefix of the other. */
  predicate Overlaps(a: string, b: string) {
    var n := if |a| < |b| then |a| else |b|;
    a[..n] == b[..n]
  }

  /** When `p` starts at none of the first `k` positions, `replace` copies
      them unchanged. */
  lemma {:induction false} ReplaceSkipPrefix(s: string, p: string, r: string, k: nat)
    requires |p| > 0 && k <= |s|
    requires forall m :: 0 <= m < k ==> !StartsWith(s[m..], p)
    ensures ReplaceAll(s, p, r) == s[..k] + ReplaceAll(s[k..], p, r)
    decreases k
  {
    if k == 0 {
      assert s[..0] + s[0..] == s;
    } else if |s| < |p| {
      assert s[..k] + s[k..] == s;
    } else {
      var t := s[1..];
      assert s[0..] == s;
      assert s[..|p|] != p;
      assert ReplaceAll(s, p, r) == [s[0]] + ReplaceAll(t, p, r);
      forall m | 0 <= m < k - 1
        ensures !StartsWith(t[m..], p)
      {
        assert t[m..] == s[m + 1..];
      }
      ReplaceSkipPrefix(t, p, r, k - 1);
      assert t[k - 1..] == s[k..];
      assert [s[0]] + t[..k - 1] == s[..k];
    }
  }

  /** Occurrences of `p` at 0 and of `w` at `k` in the same string
      overlap when `k` is inside the `p`. */
  lemma OverlapAt(s: string, p: string, w: string, k: nat)
    requires k + |w| <= |s| && s[k..k + |w|] == w
    ensures StartsWith(s, p) && k < |p| && k == 0 ==> Overlaps(w, p)
    ensures StartsWith(s, p) && k < |p| && 0 < k ==> Overlaps(p[k..], w)
  {
    if StartsWith(s, p) && k < |p| {
      var n := if |p| - k < |w| then |p| - k else |w|;
      assert p[k..][..n] == s[k..k + n] == w[..n];
    }
  }

  /** An occurrence of `w` survives `replace(p, r)` when no occurrence of
      `p` can overlap it: `p` can neither begin inside `w` nor end inside
      it. */
  lemma {:induction false} ReplaceKeeps(s: string, p: string, r: string, w: string, k: nat)
    requires |p| > 0 && |w| > 0
    requires k + |w| <= |s| && s[k..k + |w|] == w
    requires forall m :: 0 <= m < |w| ==> !Overlaps(w[m..], p)
    requires forall m :: 0 < m < |p| ==> !Overlaps(p[m..], w)
    ensures Contains(ReplaceAll(s, p, r), w)
    decreases |s|
  {
    if |s| < |p| {
      ContainsAt(s, w, k);
    } else if s[..|p|] == p {
      OverlapAt(s, p, w, k);
      assert w[0..] == w;
      assert s[|p|..][k - |p|..k - |p| + |w|] == w;
      ReplaceKeeps(s[|p|..], p, r, w, k - |p|);
      var t := ReplaceAll(s[|p|..], p, r);
      assert (r + t)[|r|..] == t;
      ContainsSuffix(r + t, w, |r|);
    } else if k == 0 {
      forall m | 0 <= m < |w|
        ensures !StartsWith(s[m..], p)
      {
        OverlapAt(s[m..], p, w[m..], 0);
        assert s[m..][0..|w| - m] == w[m..];
      }
      ReplaceSkipPrefix(s, p, r, |w|);
      assert s[..|w|] == w;
      ContainsPrefixOf(w, ReplaceAll(s[|w|..], p, r));
    } else {
      assert s[1..][k - 1..k - 1 + |w|] == w;
      ReplaceKeeps(s[1..], p, r, w, k - 1);
      var t := ReplaceAll(s[1..], p, r);
      assert ([s[0]] + t)[1..] == t;
      ContainsSuffix([s[0]] + t, w, 1);
    }
  }

  /** Strings that differ at a position both reach do not overlap. */
  lemma DifferAt(a: string, b: string, t: nat)
    requires t < |a| && t < |b| && a[t] != b[t]
    ensures !Overlaps(a, b)
  {
    var n := if |a| < |b| then |a| else |b|;
    assert a[..n][t] != b[..n][t];
  }

  /** `ReplaceKeeps` for a string known only to contain `w` somewhere. */
  lemma ReplaceKeepsSome(s: string, p: string, r: string, w: string)
    requires |p| > 0 && |w| > 0 && Contains(s, w)
    requires forall m :: 0 <= m < |w| ==> !Overlaps(w[m..], p)
    requires forall m :: 0 < m < |p| ==> !Overlaps(p[m..], w)
    ensures Contains(ReplaceAll(s, p, r), w)
  {
    var k := ContainsWitness(s, w);
    ReplaceKeeps(s, p, r, w, k);
  }

  /** A string containing `w` contains every prefix of `w`. */
  lemma ContainsShorter(s: string, w: string, n: nat)
    requires Contains(s, w) && n <= |w|
    ensures Contains(s, w[..n])
  {
    var k := ContainsWitness(s, w);
    assert s[k..k + n] == w[..n];
    ContainsAt(s, w[..n], k);
  }

  /** Replacing by something at least as long never shortens. */
  lemma {:induction false} ReplaceGrows(s: string, p: string, r: string)
    requires 0 < |p| <= |r|
    ensures |ReplaceAll(s, p, r)| >= |s|
    decreases |s|
  {
    if |s| < |p| {
    } else if s[..|p|] == p {
      ReplaceGrows(s[|p|..], p, r);
    } else {
      ReplaceGrows(s[1..], p, r);
    }
  }

  /** Replacing a pattern that occurs leaves the replacement behind. */
  lemma {:induction false} ReplaceIntroduces(s: string, p: string, r: string)
    requires |p| > 0 && Contains(s, p)
    ensures Contains(ReplaceAll(s, p, r), r)
    decreases |s|
  {
    var i := ContainsWitness(s, p);
    if StartsWith(s, p) {
      ContainsPrefixOf(r, ReplaceAll(s[|p|..], p, r));
    } else {
      ReplaceIntroduces(s[1..], p, r);
      var t := ReplaceAll(s[1..], p, r);
      assert ([s[0]] + t)[1..] == t;
      ContainsSuffix([s[0]] + t, r, 1);
    }
  }

  /** Containment is transitive. */
  lemma ContainsTrans(s: string, a: string, b: string)
    requires Contains(s, a) && Contains(a, b)
    ensures Contains(s, b)
  {
    var i := ContainsWitness(s, a);
    var j := ContainsWitness(a, b);
    assert s[i + j..i + j + |b|] == b by {
      forall k | 0 <= k < |b|
        ensures s[i + j + k] == b[k]
      {
        assert s[i + j + k] == s[i..i + |a|][j + k];
        assert b[k] == a[j..j + |b|][k];
      }
    }
    ContainsAt(s, b, i + j);
  }

  /** Replacing one character by another maps the string character by
      character. */
  lemma {:induction false} ReplaceChar(s: string, a: char, b: char)
    ensures |ReplaceAll(s, [a], [b])| == |s|
    ensures forall i :: 0 <= i < |s| ==> ReplaceAll(s, [a], [b])[i] == (if s[i] == a then b else s[i])
    decreases |s|
  {
    if |s| > 0 {
      ReplaceChar(s[1..], a, b);
      var t := ReplaceAll(s[1..], [a], [b]);
      if s[..1] == [a] {
        assert ReplaceAll(s, [a], [b]) == [b] + t;
      } else {
        assert ReplaceAll(s, [a], [b]) == [s[0]] + t;
      }
    }
  }

  /** A string cannot contain a longer one. */
  lemma NotContainsLonger(s: string, p: string)
    requires |s| < |p|
    ensures !Contains(s, p)
  {
    if Contains(s, p) {
      var i := ContainsWitness(s, p);
    }
  }

  /** `s.count(p)`: leftmost, non-overlapping occurrences. */
  function Count(s: string, p: string): nat
    requires |p| > 0
    decreases |s|
  {
    if |s| < |p| then 0
    else if s[..|p|] == p then 1 + Count(s[|p|..], p)
    else Count(s[1..], p)
  }

  // ---------------------------------------------------------------------
  // Pattern search
  // ---------------------------------------------------------------------

  /** A regular-expression `\w` character, ASCII part. */
  predicate IsWordChar(c: char) {
    ('a' <= c <= 'z') || ('A' <= c <= 'Z') || ('0' <= c <= '9') || c == '_'
  }

  /** The length of the longest prefix of whitespace. */
  function SpaceRun(s: string): (n: nat)
    ensures n <= |s| && (forall i :: 0 <= i < n ==> IsSpace(s[i])) && (n < |s| ==> !IsSpace(s[n]))
    decreases |s|
  {
    if |s| > 0 && IsSpace(s[0]) then 1 + SpaceRun(s[1..]) else 0
  }

  /** The length of the longest prefix of word characters. */
  function WordRun(s: string): (n: nat)
    ensures n <= |s| && (forall i :: 0 <= i < n ==> IsWordChar(s[i])) && (n < |s| ==> !IsWordChar(s[n]))
    decreases |s|
  {
    if |s| > 0 && IsWordChar(s[0]) then 1 + WordRun(s[1..]) else 0
  }

  /** `re.search`: the pattern `at` matches at some position of `s`. */
  predicate Anywhere(s: string, at: string -> bool)
    decreases |s|
  {
    at(s) || (|s| > 0 && Anywhere(s[1..], at))
  }

  lemma {:induction false} AnywhereAt(s: string, at: string -> bool)
    ensures Anywhere(s, at) <==> exists i :: 0 <= i <= |s| && at(s[i..])
    decreases |s|
  {
    assert s[0..] == s;
    if |s| > 0 {
      AnywhereAt(s[1..], at);
      if Anywhere(s[1..], at) {
        var i :| 0 <= i <= |s[1..]| && at(s[1..][i..]);
        assert s[1..][i..] == s[i + 1..];
      }
      if exists i :: 0 <= i <= |s| && at(s[i..]) {
        var i :| 0 <= i <= |s| && at(s[i..]);
        if i > 0 {
          assert s[1..][i - 1..] == s[i..];
        }
      }
    } else {
      if exists i :: 0 <= i <= |s| && at(s[i..]) {
        var i :| 0 <= i <= |s| && at(s[i..]);
        assert s[i..] == s;
      }
    }
  }

  // ---------------------------------------------------------------------
  // Rendering numbers
  // ---------------------------------------------------------------------

  function DigitChar(d: nat): char
    requires d < 10
  {
    ('0' as int + d) as char
  }

  /** `str(n)` for a non-negative int. */
  function NatToString(n: nat): (r: string)
    ensures |r| >= 1
    ensures forall i :: 0 <= i < |r| ==> '0' <= r[i] <= '9'
  {
    if n < 10 then [DigitChar(n)] else NatToString(n / 10) + [DigitChar(n % 10)]
  }

  /** `str(n)` for any int. */
  function IntToString(n: int): (r: string)
    ensures |r| >= 1
    ensures r[0] == '-' <==> n < 0
  {
    if n < 0 then "-" + NatToString(-n) else NatToString(n)
  }
}

/**
 * The string operations of Python's `str` and JavaScript's `String` that the
 * modelled code relies on, each with the semantics of its language: leftmost
 * non-overlapping `replace`, `split` with an explicit separator and without one,
 * `strip`/`trim` over each language's own whitespace set, `find`/`rfind`,
 * JavaScript `substring` (which swaps reversed bounds) and `lastIndexOf`.
 */
module Strings {
  import opened Wrappers

  /** Which language's whitespace set a strip or a `\s` uses. */
  datatype Flavor = Py | Js

  /** Python `str.isspace` for one character. */
  predicate IsPySpace(c: char) {
    var n := c as int;
    n == 32 || 9 <= n <= 13 || 28 <= n <= 31 || n == 0x85 || n == 0xA0 || n == 0x1680
    || 0x2000 <= n <= 0x200A || n == 0x2028 || n == 0x2029 || n == 0x202F || n == 0x205F
    || n == 0x3000
  }

  /** JavaScript's WhiteSpace and LineTerminator characters (`\s`, `trim`). */
  predicate IsJsSpace(c: char) {
    var n := c as int;
    n == 32 || 9 <= n <= 13 || n == 0xA0 || n == 0x1680 || 0x2000 <= n <= 0x200A
    || n == 0x2028 || n == 0x2029 || n == 0x202F || n == 0x205F || n == 0x3000 || n == 0xFEFF
  }

  predicate IsSpace(f: Flavor, c: char) {
    if f == Py then IsPySpace(c) else IsJsSpace(c)
  }

  /** A JavaScript line terminator: where `.` stops and where `$` matches under the `m` flag. */
  predicate IsLineTerminator(c: char) {
    c == '\n' || c == '\r' || c as int == 0x2028 || c as int == 0x2029
  }

  predicate AllSpace(f: Flavor, s: string) {
    forall i | 0 <= i < |s| :: IsSpace(f, s[i])
  }

  // ---------------------------------------------------------------- search

  predicate StartsWith(s: string, p: string) {
    |p| <= |s| && s[..|p|] == p
  }

  predicate EndsWith(s: string, p: string) {
    |p| <= |s| && s[|s| - |p|..] == p
  }

  /** `pat` occurs in `s` starting at index `i`. */
  predicate OccursAt(s: string, pat: string, i: nat) {
    i <= |s| && StartsWith(s[i..], pat)
  }

  /** Python `pat in s` / JavaScript `s.includes(pat)`. */
  predicate Contains(s: string, pat: string)
    decreases |s|
  {
    StartsWith(s, pat) || (s != [] && Contains(s[1..], pat))
  }

  lemma {:induction false} ContainsIff(s: string, pat: string)
    ensures Contains(s, pat) <==> exists j: nat :: OccursAt(s, pat, j)
    decreases |s|
  {
    if s != [] {
      ContainsIff(s[1..], pat);
      if StartsWith(s, pat) {
        assert s[0..] == s;
        assert OccursAt(s, pat, 0);
      }
      if exists j: nat :: OccursAt(s, pat, j) {
        var j: nat :| OccursAt(s, pat, j);
        if j > 0 {
          assert s[1..][j - 1..] == s[j..];
          assert OccursAt(s[1..], pat, j - 1);
        }
      }
      if Contains(s[1..], pat) && !StartsWith(s, pat) {
        var j: nat :| OccursAt(s[1..], pat, j);
        assert s[1..][j..] == s[j + 1..];
        assert OccursAt(s, pat, j + 1);
      }
    } else {
      if exists j: nat :: OccursAt(s, pat, j) {
        var j: nat :| OccursAt(s, pat, j);
        assert s[j..] == s;
      }
      if pat == [] {
        assert OccursAt(s, pat, 0);
      }
    }
  }

  lemma ContainsAt(s: string, pat: string, j: nat)
    requires OccursAt(s, pat, j)
    ensures Contains(s, pat)
  {
    ContainsIff(s, pat);
  }

  lemma ContainsInfix(a: string, b: string, c: string, pat: string)
    requires Contains(b, pat)
    ensures Contains(a + b + c, pat)
  {
    ContainsIff(b, pat);
    var k: nat :| OccursAt(b, pat, k);
    var s := a + b + c;
    forall x | 0 <= x < |pat| ensures s[|a| + k..][x] == pat[x] {
      assert s[|a| + k..][x] == b[k..][x];
    }
    assert s[|a| + k..][..|pat|] == pat;
    ContainsAt(s, pat, |a| + k);
  }

  lemma ContainsTransitive(s: string, m: string, q: string)
    requires Contains(s, m) && Contains(m, q)
    ensures Contains(s, q)
  {
    ContainsIff(s, m);
    var j: nat :| OccursAt(s, m, j);
    ContainsInfix(s[..j], m, s[j + |m|..], q);
    assert s[..j] + m + s[j + |m|..] == s;
  }

  /** The least index at or after `i` where `pat` occurs. */
  function FindFrom(s: string, pat: string, i: nat): (r: Option<nat>)
    ensures r.Some? ==> i <= r.value && OccursAt(s, pat, r.value)
    ensures r.Some? ==> forall j | i <= j < r.value :: !OccursAt(s, pat, j)
    ensures r.None? ==> forall j | i <= j :: !OccursAt(s, pat, j)
    decreases |s| - i
  {
    if i > |s| then None
    else if OccursAt(s, pat, i) then Some(i)
    else FindFrom(s, pat, i + 1)
  }

  /** The search from `i` stops at the first occurrence at or after `i`. */
  lemma {:induction false} FindFromFirst(s: string, pat: string, i: nat, k: nat)
    requires i <= k && OccursAt(s, pat, k)
    requires forall j | i <= j < k :: !OccursAt(s, pat, j)
    ensures FindFrom(s, pat, i) == Some(k)
    decreases k - i
  {
    if i < k {
      FindFromFirst(s, pat, i + 1, k);
    }
  }

  /** Python `s.find(pat)` / JavaScript `s.indexOf(pat)`, with `None` for -1. */
  function Find(s: string, pat: string): (r: Option<nat>)
    ensures r.Some? <==> Contains(s, pat)
    ensures r.Some? ==> OccursAt(s, pat, r.value) && forall j | 0 <= j < r.value :: !OccursAt(s, pat, j)
  {
    ContainsIff(s, pat);
    FindFrom(s, pat, 0)
  }

  /** The greatest index at most `i` where `pat` occurs. */
  function RFindAtMost(s: string, pat: string, i: int): (r: Option<nat>)
    ensures r.Some? ==> r.value <= i && OccursAt(s, pat, r.value)
    ensures r.Some? ==> forall j: nat | r.value < j <= i :: !OccursAt(s, pat, j)
    ensures r.None? ==> forall j: nat | j <= i :: !OccursAt(s, pat, j)
    decreases if i < 0 then 0 else i + 1
  {
    if i < 0 then None
    else if OccursAt(s, pat, i) then Some(i)
    else RFindAtMost(s, pat, i - 1)
  }

  /** Python `s.rfind(pat)`: the last occurrence. */
  function RFind(s: string, pat: string): (r: Option<nat>)
    ensures r.Some? <==> Contains(s, pat)
    ensures r.Some? ==> OccursAt(s, pat, r.value) && forall j: nat | r.value < j :: !OccursAt(s, pat, j)
  {
    ContainsIff(s, pat);
    RFindAtMost(s, pat, |s|)
  }

  lemma SliceOfSlice(s: string, lo: nat, hi: nat, a: nat, m: nat)
    requires lo <= hi <= |s| && a + m <= hi - lo
    ensures s[lo..hi][a..a + m] == s[lo + a..lo + a + m]
  {
    var x, y := s[lo..hi][a..a + m], s[lo + a..lo + a + m];
    forall k | 0 <= k < m ensures x[k] == y[k] {
      assert x[k] == s[lo..hi][a + k];
    }
  }

  // ---------------------------------------------------------------- replace

  /**
   * Python `s.replace(pat, rep)`: scanning from the left, each occurrence is
   * replaced and the scan resumes after it, so occurrences never overlap.
   */
  function Replace(s: string, pat: string, rep: string): string
    requires pat != []
    decreases |s|
  {
    if s == [] then []
    else if StartsWith(s, pat) then rep + Replace(s[|pat|..], pat, rep)
    else [s[0]] + Replace(s[1..], pat, rep)
  }

  /** A prefix in which no occurrence starts is copied unchanged. */
  lemma {:induction false} ReplaceSkipsPrefix(b: string, t: string, pat: string, rep: string)
    requires pat != []
    requires forall p: nat | p < |b| :: !StartsWith((b + t)[p..], pat)
    ensures Replace(b + t, pat, rep) == b + Replace(t, pat, rep)
    decreases |b|
  {
    if b != [] {
      assert !StartsWith((b + t)[0..], pat);
      assert (b + t)[0..] == b + t;
      assert (b + t)[1..] == b[1..] + t;
      forall p: nat | p < |b[1..]| ensures !StartsWith((b[1..] + t)[p..], pat) {
        assert (b[1..] + t)[p..] == (b + t)[p + 1..];
      }
      ReplaceSkipsPrefix(b[1..], t, pat, rep);
    }
  }

  /** An occurrence at the very start is replaced first. */
  lemma ReplaceAtStart(t: string, pat: string, rep: string)
    requires pat != []
    ensures Replace(pat + t, pat, rep) == rep + Replace(t, pat, rep)
  {
    assert (pat + t)[..|pat|] == pat;
    assert (pat + t)[|pat|..] == t;
  }

  lemma {:induction false} ReplaceAbsent(s: string, pat: string, rep: string)
    requires pat != [] && !Contains(s, pat)
    ensures Replace(s, pat, rep) == s
    decreases |s|
  {
    if s != [] {
      ReplaceAbsent(s[1..], pat, rep);
    }
  }

  /** Replacing with a text no shorter than the pattern never shortens. */
  lemma {:induction false} ReplaceLength(s: string, pat: string, rep: string)
    requires pat != [] && |rep| >= |pat|
    ensures |Replace(s, pat, rep)| >= |s|
    ensures Contains(s, pat) && |rep| > |pat| ==> |Replace(s, pat, rep)| > |s|
    decreases |s|
  {
    if s != [] {
      if StartsWith(s, pat) {
        ReplaceLength(s[|pat|..], pat, rep);
      } else {
        ReplaceLength(s[1..], pat, rep);
      }
    }
  }

  /** A text that lacks one of `pat`'s characters does not contain `pat`. */
  lemma {:induction false} MissingChar(s: string, pat: string, c: char)
    requires c in pat && c !in s
    ensures !Contains(s, pat)
    decreases |s|
  {
    if s != [] {
      MissingChar(s[1..], pat, c);
    }
  }

  lemma {:induction false} ContainsShorter(s: string, pat: string)
    ensures Contains(s, pat) ==> |pat| <= |s|
    decreases |s|
  {
    if s != [] {
      ContainsShorter(s[1..], pat);
    }
  }

  lemma CharInSlice(s: string, i: nat, n: nat, m: nat)
    requires i + n <= |s| && m < |s|
    ensures i <= m < i + n ==> s[m] in s[i..i + n]
  {
    if i <= m < i + n {
      assert s[i..i + n][m - i] == s[m];
    }
  }

  /** Splicing text in front of a character that `q` lacks keeps every occurrence of `q`. */
  lemma SpliceKeepsContains(a: string, m: string, b: string, q: string)
    requires Contains(a + b, q) && (b == [] || b[0] !in q)
    ensures Contains(a + m + b, q)
  {
    var s := a + b;
    ContainsIff(s, q);
    var j: nat :| OccursAt(s, q, j);
    if b != [] {
      CharInSlice(s, j, |q|, |a|);
      assert s[j..j + |q|] == q && s[|a|] == b[0];
    }
    if j + |q| <= |a| {
      assert a[j..][..|q|] == s[j..][..|q|];
      ContainsAt(a, q, j);
      ContainsInfix([], a, m + b, q);
      assert [] + a + (m + b) == a + m + b;
    } else {
      assert b[j - |a|..][..|q|] == s[j..][..|q|];
      ContainsAt(b, q, j - |a|);
      ContainsInfix(a + m, b, [], q);
      assert a + m + b + [] == a + m + b;
    }
  }

  /**
   * `q` cannot be cut by inserting text right after an occurrence of `pat`:
   * `pat` does not occur in `q` short of its last character, and no proper
   * suffix of `pat` is a proper prefix of `q` (checked through `q`'s first two
   * characters).
   */
  predicate Uncut(q: string, pat: string) {
    pat != [] && |q| >= 2 && !Contains(q[..|q| - 1], pat)
    && pat[|pat| - 1] != q[0] && (|pat| >= 2 ==> q[1] !in pat[2..])
  }

  /** `Uncut` established character by character: `c` is a character of `pat` that `q` lacks before its end. */
  lemma UncutByChars(q: string, pat: string, c: char)
    requires |q| >= 2 && c in pat && c !in q[..|q| - 1]
    requires pat[|pat| - 1] != q[0] && (|pat| >= 2 ==> q[1] !in pat[2..])
    ensures Uncut(q, pat)
  {
    MissingChar(q[..|q| - 1], pat, c);
  }

  /** An occurrence of `q` that starts inside a leading `pat` (not at its head) contradicts `Uncut`. */
  lemma OverlapAtHead(s: string, pat: string, q: string, i: nat)
    requires pat != [] && StartsWith(s, pat) && 1 <= i && |q| >= 2 && OccursAt(s, q, i)
    ensures i < |pat| ==> pat[|pat| - 1] == q[0] || (|pat| >= 2 && q[1] in pat[2..])
  {
    if i < |pat| {
      if i + 1 == |pat| {
        assert s[i..][0] == q[0];
      } else {
        assert s[i..][1] == q[1];
        assert pat[2..][i - 1] == pat[i + 1];
      }
    }
  }

  /** Replacing `pat` by `pat + tail` keeps `pat` itself: its first occurrence is rewritten into text starting with `pat`. */
  lemma {:induction false} ReplaceKeepsPattern(s: string, pat: string, tail: string)
    requires pat != [] && Contains(s, pat)
    ensures Contains(Replace(s, pat, pat + tail), pat)
    decreases |s|
  {
    var r := Replace(s, pat, pat + tail);
    if StartsWith(s, pat) {
      assert r[..|pat|] == pat;
      ContainsAt(r, pat, 0);
    } else {
      ReplaceKeepsPattern(s[1..], pat, tail);
      ContainsInfix([s[0]], Replace(s[1..], pat, pat + tail), [], pat);
      assert [s[0]] + Replace(s[1..], pat, pat + tail) + [] == r;
    }
  }

  /** Replacing each `pat` by `pat + tail` keeps a prefix `t` in which `pat` does not end early. */
  lemma {:induction false} ReplaceKeepsPrefix(s: string, t: string, pat: string, tail: string)
    requires pat != [] && StartsWith(s, t) && (t == [] || !Contains(t[..|t| - 1], pat))
    ensures StartsWith(Replace(s, pat, pat + tail), t)
    decreases |s|
  {
    if s != [] && t != [] {
      if StartsWith(s, pat) {
        assert Replace(s, pat, pat + tail) == pat + (tail + Replace(s[|pat|..], pat, pat + tail));
      } else {
        var u := t[1..];
        assert u == [] || t[..|t| - 1][1..] == u[..|u| - 1];
        ReplaceKeepsPrefix(s[1..], u, pat, tail);
        assert t == [s[0]] + u;
      }
    }
  }

  /** Replacing each `pat` by `pat + tail` keeps every text that such an insertion cannot cut. */
  lemma {:induction false} ReplaceKeepsContains(s: string, q: string, pat: string, tail: string)
    requires Uncut(q, pat) && Contains(s, q)
    ensures Contains(Replace(s, pat, pat + tail), q)
    decreases |s|
  {
    var rep := pat + tail;
    if StartsWith(s, q) {
      ReplaceKeepsPrefix(s, q, pat, tail);
      assert Replace(s, pat, rep)[..|q|] == q;
      ContainsAt(Replace(s, pat, rep), q, 0);
    } else if StartsWith(s, pat) {
      var rest := Replace(s[|pat|..], pat, rep);
      ContainsIff(s[1..], q);
      var j: nat :| OccursAt(s[1..], q, j);
      assert s[1..][j..] == s[j + 1..];
      OverlapAtHead(s, pat, q, j + 1);
      assert s[|pat|..][j + 1 - |pat|..] == s[j + 1..];
      ContainsAt(s[|pat|..], q, j + 1 - |pat|);
      ReplaceKeepsContains(s[|pat|..], q, pat, tail);
      ContainsInfix(rep, rest, [], q);
      assert rep + rest + [] == rep + rest;
    } else {
      ReplaceKeepsContains(s[1..], q, pat, tail);
      ContainsInfix([s[0]], Replace(s[1..], pat, rep), [], q);
      assert [s[0]] + Replace(s[1..], pat, rep) + [] == Replace(s, pat, rep);
    }
  }

  // ---------------------------------------------------------------- counting, split and join

  function CountChar(s: string, c: char): nat {
    if s == [] then 0 else (if s[0] == c then 1 else 0) + CountChar(s[1..], c)
  }

  /** Python `s.split(sep)` for a non-empty separator. */
  function Split(s: string, sep: string): (r: seq<string>)
    requires sep != []
    ensures |r| >= 1
    decreases |s|
  {
    if StartsWith(s, sep) then [[]] + Split(s[|sep|..], sep)
    else if s == [] then [[]]
    else
      var r := Split(s[1..], sep);
      [[s[0]] + r[0]] + r[1..]
  }

  /** Python `''.join(pieces)` / JavaScript `pieces.join('')`. */
  function Concat(pieces: seq<string>): string {
    if pieces == [] then [] else Concat(pieces[..|pieces| - 1]) + pieces[|pieces| - 1]
  }

  lemma ConcatAppend(pieces: seq<string>, x: string)
    ensures Concat(pieces + [x]) == Concat(pieces) + x
  {
    assert (pieces + [x])[..|pieces|] == pieces;
  }

  lemma {:induction false} ConcatConcat(a: seq<string>, b: seq<string>)
    ensures Concat(a + b) == Concat(a) + Concat(b)
    decreases |b|
  {
    if b == [] {
      assert a + b == a;
    } else {
      var b', x := b[..|b| - 1], b[|b| - 1];
      assert b == b' + [x];
      assert a + b == (a + b') + [x];
      ConcatConcat(a, b');
      ConcatAppend(a + b', x);
      ConcatAppend(b', x);
    }
  }

  /** The position of the first `true`, or the length when there is none. */
  function FirstTrue(bs: seq<bool>): (i: nat)
    ensures i <= |bs|
    ensures i < |bs| ==> bs[i]
    ensures forall j | 0 <= j < i :: !bs[j]
    decreases |bs|
  {
    if bs == [] then 0 else if bs[0] then 0 else 1 + FirstTrue(bs[1..])
  }

  function Join(pieces: seq<string>, sep: string): string {
    if pieces == [] then []
    else if |pieces| == 1 then pieces[0]
    else pieces[0] + sep + Join(pieces[1..], sep)
  }

  /** Joining the pieces of a split with the same separator gives back the text. */
  lemma {:induction false} JoinSplit(s: string, sep: string)
    requires sep != []
    ensures Join(Split(s, sep), sep) == s
    decreases |s|
  {
    if StartsWith(s, sep) {
      var r := Split(s[|sep|..], sep);
      assert Split(s, sep) == [[]] + r;
      JoinSplit(s[|sep|..], sep);
      JoinEmptyFirst(r, sep);
      assert s == sep + s[|sep|..];
    } else if s != [] {
      var r := Split(s[1..], sep);
      assert Split(s, sep) == [[s[0]] + r[0]] + r[1..];
      JoinSplit(s[1..], sep);
      JoinExtendFirst(s[0], r, sep);
      assert s == [s[0]] + s[1..];
    }
  }

  lemma JoinEmptyFirst(r: seq<string>, sep: string)
    requires |r| >= 1
    ensures Join([[]] + r, sep) == sep + Join(r, sep)
  {
    assert ([[]] + r)[1..] == r;
  }

  lemma JoinExtendFirst(x: char, r: seq<string>, sep: string)
    requires |r| >= 1
    ensures Join([[x] + r[0]] + r[1..], sep) == [x] + Join(r, sep)
  {
    var q := [[x] + r[0]] + r[1..];
    if |r| > 1 {
      assert q[1..] == r[1..];
    }
  }

  /** A text holding the separator splits into at least two pieces. */
  lemma {:induction false} SplitContains(s: string, sep: string)
    requires sep != [] && Contains(s, sep)
    ensures |Split(s, sep)| >= 2
    decreases |s|
  {
    if !StartsWith(s, sep) {
      SplitContains(s[1..], sep);
    } else {
      assert Split(s, sep) == [[]] + Split(s[|sep|..], sep);
    }
  }

  /** A piece free of the separator, then the separator: the piece is split off first. */
  lemma {:induction false} SplitAfterPiece(a: string, b: string, c: char)
    requires c !in a
    ensures Split(a + [c] + b, [c]) == [a] + Split(b, [c])
    decreases |a|
  {
    var s := a + [c] + b;
    if a == [] {
      assert s[..1] == [c];
      assert s[1..] == b;
    } else {
      assert s[..1] == [a[0]];
      assert s[1..] == a[1..] + [c] + b;
      SplitAfterPiece(a[1..], b, c);
      var r := Split(s[1..], [c]);
      assert r[0] == a[1..] && r[1..] == Split(b, [c]);
      assert [a[0]] + a[1..] == a;
    }
  }

  /** A split on one character yields one piece more than there are separators. */
  lemma {:induction false} SplitCount(s: string, c: char)
    ensures |Split(s, [c])| == CountChar(s, c) + 1
    decreases |s|
  {
    if s != [] {
      SplitCount(s[1..], c);
      if StartsWith(s, [c]) {
        assert s[0] == c;
      } else {
        assert s[0] != c;
      }
    }
  }

  // ---------------------------------------------------------------- strip

  /** Python `lstrip()` / JavaScript `trimStart()`. */
  function TrimStart(f: Flavor, s: string): (r: string)
    ensures |r| <= |s| && r == s[|s| - |r|..]
    ensures r == [] || !IsSpace(f, r[0])
    ensures AllSpace(f, s[..|s| - |r|])
  {
    if s != [] && IsSpace(f, s[0]) then
      var r := TrimStart(f, s[1..]);
      TrimStartStep(f, s, r);
      r
    else s
  }

  /** A leading space in front of a trimmed tail belongs to the cut part. */
  lemma TrimStartStep(f: Flavor, s: string, r: string)
    requires s != [] && IsSpace(f, s[0])
    requires |r| <= |s[1..]| && r == s[1..][|s[1..]| - |r|..] && AllSpace(f, s[1..][..|s[1..]| - |r|])
    ensures |r| <= |s| && r == s[|s| - |r|..] && AllSpace(f, s[..|s| - |r|])
  {
    assert s[|s| - |r|..] == s[1..][|s[1..]| - |r|..];
    assert s[..|s| - |r|] == [s[0]] + s[1..][..|s[1..]| - |r|];
  }

  /** Python `rstrip()` / JavaScript `trimEnd()`. */
  function TrimEnd(f: Flavor, s: string): (r: string)
    ensures |r| <= |s| && r == s[..|r|]
    ensures r == [] || !IsSpace(f, r[|r| - 1])
    ensures AllSpace(f, s[|r|..])
  {
    if s != [] && IsSpace(f, s[|s| - 1]) then
      var r := TrimEnd(f, s[..|s| - 1]);
      TrimEndStep(f, s, r);
      r
    else s
  }

  /** A trailing space after a trimmed head belongs to the cut part. */
  lemma TrimEndStep(f: Flavor, s: string, r: string)
    requires s != [] && IsSpace(f, s[|s| - 1])
    requires |r| <= |s[..|s| - 1]| && r == s[..|s| - 1][..|r|] && AllSpace(f, s[..|s| - 1][|r|..])
    ensures |r| <= |s| && r == s[..|r|] && AllSpace(f, s[|r|..])
  {
    assert s[..|r|] == s[..|s| - 1][..|r|];
    assert s[|r|..] == s[..|s| - 1][|r|..] + [s[|s| - 1]];
  }

  /** Python `strip()` / JavaScript `trim()`. */
  function Trim(f: Flavor, s: string): string {
    TrimEnd(f, TrimStart(f, s))
  }

  /** A strip is empty exactly when the text is whitespace only. */
  lemma TrimEmptyIff(f: Flavor, s: string)
    ensures Trim(f, s) == [] <==> AllSpace(f, s)
  {
    var t := TrimStart(f, s);
    if Trim(f, s) == [] {
      assert t == [];
      forall i | 0 <= i < |s| ensures IsSpace(f, s[i]) {
        assert s[i] == s[..|s| - |t|][i];
      }
    }
  }

  /** The leading whitespace run: what `/^\s*` matches. */
  function LeadingSpace(f: Flavor, s: string): (r: string)
    ensures |r| <= |s| && r == s[..|r|] && AllSpace(f, r)
    ensures |r| == |s| || !IsSpace(f, s[|r|])
  {
    var t := TrimStart(f, s);
    assert s[|s| - |t|..] == t;
    s[..|s| - |t|]
  }

  /** Python `rstrip(c)` for a single character. */
  function RStripChar(s: string, c: char): (r: string)
    ensures |r| <= |s| && r == s[..|r|] && (r == [] || r[|r| - 1] != c)
    ensures forall i | |r| <= i < |s| :: s[i] == c
  {
    if s != [] && s[|s| - 1] == c then RStripChar(s[..|s| - 1], c) else s
  }

  // ---------------------------------------------------------------- whitespace-separated words

  /** The length of the leading run of non-whitespace characters. */
  function WordLength(s: string): (n: nat)
    ensures n <= |s| && (n == |s| || IsPySpace(s[n]))
    ensures forall i | 0 <= i < n :: !IsPySpace(s[i])
  {
    if s == [] || IsPySpace(s[0]) then 0 else 1 + WordLength(s[1..])
  }

  /** Python `s.split()` with no separator: the maximal runs of non-whitespace. */
  function Words(s: string): seq<string>
    decreases |s|
  {
    var t := TrimStart(Py, s);
    if t == [] then []
    else
      var n := WordLength(t);
      [t[..n]] + Words(t[n..])
  }

  /** A word: non-empty, with no whitespace. */
  predicate IsWord(w: string) {
    w != [] && forall i | 0 <= i < |w| :: !IsPySpace(w[i])
  }

  /** Every piece of `Words` is a word. */
  lemma {:induction false} WordsAreWords(s: string)
    ensures forall k | 0 <= k < |Words(s)| :: IsWord(Words(s)[k])
    decreases |s|
  {
    var t := TrimStart(Py, s);
    if t != [] {
      var n := WordLength(t);
      WordsAreWords(t[n..]);
      var r := Words(t[n..]);
      var w := t[..n];
      assert IsWord(w);
      AllWordsCons(w, r);
      assert Words(s) == [w] + r;
    }
  }

  lemma AllWordsCons(w: string, r: seq<string>)
    requires IsWord(w) && forall k | 0 <= k < |r| :: IsWord(r[k])
    ensures forall k | 0 <= k < |[w] + r| :: IsWord(([w] + r)[k])
  {
    forall k | 0 <= k < |[w] + r| ensures IsWord(([w] + r)[k]) {
      if k > 0 {
        assert ([w] + r)[k] == r[k - 1];
      }
    }
  }

  /** A text has no words exactly when it is whitespace only. */
  lemma WordsEmptyIff(s: string)
    ensures Words(s) == [] <==> AllSpace(Py, s)
  {
    var t := TrimStart(Py, s);
    if t == [] {
      assert s == s[..|s| - |t|];
    }
  }

  // ---------------------------------------------------------------- case

  function LowerChar(c: char): char {
    if 'A' <= c <= 'Z' then (c as int + 32) as char else c
  }

  function UpperChar(c: char): char {
    if 'a' <= c <= 'z' then (c as int - 32) as char else c
  }

  /** `lower()` / `toLowerCase()` on ASCII letters. */
  function Lower(s: string): (r: string)
    ensures |r| == |s|
  {
    seq(|s|, i requires 0 <= i < |s| => LowerChar(s[i]))
  }

  /** Lower-casing keeps every occurrence: `pat in s` gives `pat.lower() in s.lower()`. */
  lemma LowerKeepsContains(s: string, pat: string)
    requires Contains(s, pat)
    ensures Contains(Lower(s), Lower(pat))
  {
    ContainsIff(s, pat);
    var j: nat :| OccursAt(s, pat, j);
    var ls := Lower(s);
    forall x | 0 <= x < |pat| ensures ls[j..][..|pat|][x] == Lower(pat)[x] {
      assert s[j..][..|pat|][x] == pat[x];
    }
    assert ls[j..][..|pat|] == Lower(pat);
    ContainsAt(ls, Lower(pat), j);
  }

  predicate HasNoUpper(s: string) {
    forall i | 0 <= i < |s| :: !('A' <= s[i] <= 'Z')
  }

  lemma LowerHasNoUpper(s: string)
    ensures HasNoUpper(Lower(s))
  {
  }

  // ---------------------------------------------------------------- numbers

  predicate IsDigit(c: char) { '0' <= c <= '9' }

  function DigitsValue(s: string): nat
    requires forall i | 0 <= i < |s| :: IsDigit(s[i]) || s[i] == '_'
    decreases |s|
  {
    if s == [] then 0
    else
      var d := s[|s| - 1];
      assert IsDigit(d) || d == '_';
      if d == '_' then DigitsValue(s[..|s| - 1])
      else DigitsValue(s[..|s| - 1]) * 10 + (d as int - '0' as int)
  }

  /**
   * The body of a Python integer literal: digits, with single underscores
   * allowed between two digits.
   */
  predicate IsDigitBody(s: string) {
    s != [] && IsDigit(s[0]) && IsDigit(s[|s| - 1])
    && (forall i | 0 <= i < |s| :: IsDigit(s[i]) || s[i] == '_')
    && (forall i | 0 <= i < |s| - 1 :: !(s[i] == '_' && s[i + 1] == '_'))
  }

  /** Python `int(s)` on a text without surrounding whitespace; `None` for a ValueError. */
  function ParseInt(s: string): (r: Option<int>)
    ensures r.Some? ==> s != []
  {
    if s != [] && (s[0] == '-' || s[0] == '+') && IsDigitBody(s[1..]) then
      var v: int := DigitsValue(s[1..]);
      Some(if s[0] == '-' then -v else v)
    else if IsDigitBody(s) then Some(DigitsValue(s))
    else None
  }

  /** Decimal rendering of a natural number, as `str(n)` / `${n}` give it. */
  function DecimalString(n: nat): (r: string)
    ensures r != [] && forall i | 0 <= i < |r| :: IsDigit(r[i])
  {
    if n < 10 then [('0' as int + n) as char]
    else DecimalString(n / 10) + [('0' as int + n % 10) as char]
  }

  lemma {:induction false} DecimalRoundTrip(n: nat)
    ensures ParseInt(DecimalString(n)) == Some(n)
  {
    var r := DecimalString(n);
    assert IsDigitBody(r);
    DecimalValue(n);
  }

  lemma {:induction false} DecimalValue(n: nat)
    ensures DigitsValue(DecimalString(n)) == n
  {
    if n >= 10 {
      DecimalValue(n / 10);
      var r := DecimalString(n);
      assert r[..|r| - 1] == DecimalString(n / 10);
    }
  }

  /** Python `str.rjust(width)`: pad on the left with spaces. */
  function RJust(s: string, width: nat): (r: string)
    ensures |r| == if |s| >= width then |s| else width
    ensures EndsWith(r, s)
  {
    if |s| >= width then s else seq(width - |s|, _ => ' ') + s
  }

  // ---------------------------------------------------------------- JavaScript index operations

  function Clamp(i: int, n: nat): nat {
    if i < 0 then 0 else if i > n then n else i
  }

  /** JavaScript `s.substring(a, b)`: bounds are clamped, and swapped when reversed. */
  function JsSubstring(s: string, a: int, b: int): (r: string)
    ensures |r| == if Clamp(a, |s|) <= Clamp(b, |s|) then Clamp(b, |s|) - Clamp(a, |s|)
                   else Clamp(a, |s|) - Clamp(b, |s|)
    ensures 0 <= a <= b <= |s| ==> r == s[a..b]
  {
    var lo, hi := Clamp(a, |s|), Clamp(b, |s|);
    if lo <= hi then s[lo..hi] else s[hi..lo]
  }

  /** The order of the two bounds makes no difference. */
  lemma JsSubstringSymmetric(s: string, a: int, b: int)
    ensures JsSubstring(s, a, b) == JsSubstring(s, b, a)
  {
  }

  /** Out-of-range bounds act as the nearest end of the string. */
  lemma JsSubstringClamps(s: string, a: int, b: int)
    ensures JsSubstring(s, a, b) == JsSubstring(s, Clamp(a, |s|), Clamp(b, |s|))
  {
  }

  /** JavaScript `s.lastIndexOf(pat, from)`: a negative `from` searches from 0. */
  function JsLastIndexOf(s: string, pat: string, from: int): (r: int)
    ensures r == -1 || (0 <= r <= Clamp(from, |s|) && OccursAt(s, pat, r))
    ensures r == -1 ==> forall j: nat | j <= Clamp(from, |s|) :: !OccursAt(s, pat, j)
    ensures r != -1 ==> forall j: nat | r < j <= Clamp(from, |s|) :: !OccursAt(s, pat, j)
  {
    match RFindAtMost(s, pat, Clamp(from, |s|))
    case None => -1
    case Some(k) => k
  }
}

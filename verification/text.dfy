/**
  The two Kotlin string operations the pose search relies on:
  `String.trim()` and `CharSequence.contains(other, ignoreCase = true)`.
  Characters are Unicode scalar values; the whitespace table is the JVM's,
  and the case mapping covers the ASCII letters only.
 */
module Text {

  /**
    Kotlin's `Char.isWhitespace()` on the JVM: the controls U+0009..U+000D and
    U+001C..U+001F, and every space, line and paragraph separator of Unicode
    (categories Zs, Zl and Zp, the no-break spaces included).
   */
  predicate IsWhitespace(c: char) {
    || ('\t' <= c <= '\r')
    || ('\U{1C}' <= c <= ' ')
    || c == '\U{A0}'
    || c == '\U{1680}'
    || ('\U{2000}' <= c <= '\U{200A}')
    || c == '\U{2028}'
    || c == '\U{2029}'
    || c == '\U{202F}'
    || c == '\U{205F}'
    || c == '\U{3000}'
  }

  predicate AllWhitespace(s: string) {
    forall i :: 0 <= i < |s| ==> IsWhitespace(s[i])
  }

  lemma AllWhitespaceConcat(a: string, b: string)
    ensures AllWhitespace(a + b) <==> AllWhitespace(a) && AllWhitespace(b)
  {
    if AllWhitespace(a) && AllWhitespace(b) {
      forall i | 0 <= i < |a + b| ensures IsWhitespace((a + b)[i]) {
        if i >= |a| {
          assert (a + b)[i] == b[i - |a|];
        }
      }
    }
    if AllWhitespace(a + b) {
      forall i | 0 <= i < |a| ensures IsWhitespace(a[i]) {
        assert (a + b)[i] == a[i];
      }
      forall i | 0 <= i < |b| ensures IsWhitespace(b[i]) {
        assert (a + b)[i + |a|] == b[i];
      }
    }
  }

  /** Neither end of `s` is whitespace. */
  predicate IsTrimmed(s: string) {
    |s| == 0 || (!IsWhitespace(s[0]) && !IsWhitespace(s[|s| - 1]))
  }

  /** `s` without its leading whitespace. */
  function TrimStart(s: string): (r: string)
    ensures |r| <= |s| && r == s[|s| - |r|..]
    ensures AllWhitespace(s[..|s| - |r|])
    ensures |r| > 0 ==> !IsWhitespace(r[0])
    decreases |s|
  {
    if |s| > 0 && IsWhitespace(s[0]) then TrimStart(s[1..]) else s
  }

  /** `s` without its trailing whitespace. */
  function TrimEnd(s: string): (r: string)
    ensures |r| <= |s| && r == s[..|r|]
    ensures AllWhitespace(s[|r|..])
    ensures |r| > 0 ==> !IsWhitespace(r[|r| - 1])
    decreases |s|
  {
    if |s| > 0 && IsWhitespace(s[|s| - 1]) then TrimEnd(s[..|s| - 1]) else s
  }

  /**
    Kotlin's `String.trim()`: whitespace cut off both ends of `s`.
   */
  function Trim(s: string): (r: string)
    ensures IsTrimmed(r)
  {
    TrimEnd(TrimStart(s))
  }

  /** Regrouping a five-part concatenation. */
  lemma Regroup(w1: string, a: string, m: string, b: string, w2: string)
    ensures w1 + (a + m + b) + w2 == (w1 + a) + m + (b + w2)
  {
  }

  /** A prefix of a suffix of `s`, with what lies before and after it, makes up `s`. */
  lemma ThreeParts(s: string, t: string, r: string, k: int)
    requires 0 <= k <= |s| && t == s[k..] && |r| <= |t| && r == t[..|r|]
    ensures s == s[..k] + r + t[|r|..]
  {
    assert s == s[..k] + t;
    assert t == r + t[|r|..];
  }

  /**
    `Trim` returns a contiguous block of `s`, and what it cuts off on either
    side, `a` before and `b` after, is whitespace only.
   */
  lemma TrimSplit(s: string) returns (a: string, b: string)
    ensures s == a + Trim(s) + b
    ensures AllWhitespace(a) && AllWhitespace(b)
  {
    var t := TrimStart(s);
    var r := TrimEnd(t);
    var k := |s| - |t|;
    a := s[..k];
    b := t[|r|..];
    ThreeParts(s, t, r, k);
  }

  lemma {:induction false} TrimStartSkips(w: string, u: string)
    requires AllWhitespace(w)
    requires |u| == 0 || !IsWhitespace(u[0])
    ensures TrimStart(w + u) == u
    decreases |w|
  {
    if |w| == 0 {
      assert w + u == u;
    } else {
      assert (w + u)[1..] == w[1..] + u;
      TrimStartSkips(w[1..], u);
    }
  }

  lemma {:induction false} TrimEndSkips(u: string, w: string)
    requires AllWhitespace(w)
    requires |u| == 0 || !IsWhitespace(u[|u| - 1])
    ensures TrimEnd(u + w) == u
    decreases |w|
  {
    if |w| == 0 {
      assert u + w == u;
    } else {
      assert (u + w)[..|u + w| - 1] == u + w[..|w| - 1];
      TrimEndSkips(u, w[..|w| - 1]);
    }
  }

  /**
    `Trim` is characterised by its result: whenever `s` is a trimmed core
    padded with whitespace on both sides, trimming returns exactly that core.
   */
  lemma TrimReturnsCore(w1: string, t: string, w2: string)
    requires AllWhitespace(w1) && AllWhitespace(w2) && IsTrimmed(t)
    ensures Trim(w1 + t + w2) == t
  {
    if |t| == 0 {
      assert w1 + t + w2 == (w1 + w2) + "";
      TrimStartSkips(w1 + w2, "");
    } else {
      assert w1 + t + w2 == w1 + (t + w2);
      TrimStartSkips(w1, t + w2);
      TrimEndSkips(t, w2);
    }
  }

  /** A trimmed string is its own trim. */
  lemma TrimmedUnchanged(t: string)
    requires IsTrimmed(t)
    ensures Trim(t) == t
  {
    assert TrimStart(t) == t;
  }

  /** Whitespace added around a string is cut off again. */
  lemma TrimIgnoresPadding(w1: string, s: string, w2: string)
    requires AllWhitespace(w1) && AllWhitespace(w2)
    ensures Trim(w1 + s + w2) == Trim(s)
  {
    var a, b := TrimSplit(s);
    var t := Trim(s);
    Regroup(w1, a, t, b, w2);
    AllWhitespaceConcat(w1, a);
    AllWhitespaceConcat(b, w2);
    TrimReturnsCore(w1 + a, t, b + w2);
  }

  /** Whitespace added after a string is cut off again. */
  lemma TrimIgnoresTrailing(s: string, w: string)
    requires AllWhitespace(w)
    ensures Trim(s + w) == Trim(s)
  {
    var a, b := TrimSplit(s);
    var t := Trim(s);
    assert s + w == a + t + (b + w);
    AllWhitespaceConcat(b, w);
    TrimReturnsCore(a, t, b + w);
  }

  lemma TrimIdempotent(s: string)
    ensures Trim(Trim(s)) == Trim(s)
  {
    TrimmedUnchanged(Trim(s));
  }

  /** A string trims to nothing exactly when it is all whitespace. */
  lemma TrimEmptyIffAllWhitespace(s: string)
    ensures Trim(s) == "" <==> AllWhitespace(s)
  {
    if AllWhitespace(s) {
      assert s + "" + "" == s;
      TrimReturnsCore(s, "", "");
    }
    if Trim(s) == "" {
      var a, b := TrimSplit(s);
      assert s == a + b;
      AllWhitespaceConcat(a, b);
    }
  }

  /** Kotlin's `Char.uppercaseChar()`, restricted to the ASCII letters. */
  function UppercaseChar(c: char): char {
    if 'a' <= c <= 'z' then (c as int - 32) as char else c
  }

  /** Kotlin's `Char.lowercaseChar()`, restricted to the ASCII letters. */
  function LowercaseChar(c: char): char {
    if 'A' <= c <= 'Z' then (c as int + 32) as char else c
  }

  /**
    Kotlin's `Char.equals(other, ignoreCase = true)`: equal, or equal after
    upper-casing, or equal after upper- then lower-casing.
   */
  predicate CharEqualsIgnoreCase(a: char, b: char) {
    || a == b
    || UppercaseChar(a) == UppercaseChar(b)
    || LowercaseChar(UppercaseChar(a)) == LowercaseChar(UppercaseChar(b))
  }

  /** `s` with every character lower-cased. */
  function Lowercase(s: string): (r: string)
    ensures |r| == |s|
    ensures forall i :: 0 <= i < |s| ==> r[i] == LowercaseChar(s[i])
  {
    seq(|s|, i requires 0 <= i < |s| => LowercaseChar(s[i]))
  }

  /** Two characters are equal ignoring case exactly when they lower-case alike. */
  lemma CharEqualsIgnoreCaseFolds(a: char, b: char)
    ensures CharEqualsIgnoreCase(a, b) <==> LowercaseChar(a) == LowercaseChar(b)
  {
  }

  /** Case mapping never turns whitespace into non-whitespace or back. */
  lemma LowercaseKeepsWhitespace(c: char)
    ensures IsWhitespace(LowercaseChar(c)) <==> IsWhitespace(c)
  {
  }

  lemma LowercaseConcat(a: string, b: string)
    ensures Lowercase(a + b) == Lowercase(a) + Lowercase(b)
  {
  }

  lemma LowercaseKeepsShape(s: string)
    ensures AllWhitespace(s) ==> AllWhitespace(Lowercase(s))
    ensures IsTrimmed(s) ==> IsTrimmed(Lowercase(s))
  {
    forall i | 0 <= i < |s| ensures IsWhitespace(Lowercase(s)[i]) <==> IsWhitespace(s[i]) {
      LowercaseKeepsWhitespace(s[i]);
    }
  }

  /** A string whose lower-case form is trimmed is trimmed itself. */
  lemma FoldedTrimmed(q: string, w: string)
    requires Lowercase(q) == w && IsTrimmed(w)
    ensures Trim(q) == q
  {
    if |q| > 0 {
      LowercaseKeepsWhitespace(q[0]);
      LowercaseKeepsWhitespace(q[|q| - 1]);
    }
    TrimmedUnchanged(q);
  }

  /** Trimming and lower-casing commute. */
  lemma TrimCommutesWithLowercase(s: string)
    ensures Lowercase(Trim(s)) == Trim(Lowercase(s))
  {
    var a, b := TrimSplit(s);
    var t := Trim(s);
    LowercaseConcat(a + t, b);
    LowercaseConcat(a, t);
    LowercaseKeepsShape(a);
    LowercaseKeepsShape(t);
    LowercaseKeepsShape(b);
    TrimReturnsCore(Lowercase(a), Lowercase(t), Lowercase(b));
  }

  /**
    The whole of `q` lies inside `s` at offset `at`, every character equal to
    the one under it, ignoring case.
   */
  predicate MatchesAt(q: string, s: string, at: int) {
    && 0 <= at
    && at + |q| <= |s|
    && forall k :: 0 <= k < |q| ==> CharEqualsIgnoreCase(q[k], s[at + k])
  }

  /**
    The comparison loop of Kotlin's `regionMatches`: characters `k`, `k + 1`,
    ... of `q` against those of `s` from `at + k`, stopping at the first
    mismatch.
   */
  function CharsMatchFrom(q: string, s: string, at: nat, k: nat): (b: bool)
    requires at + |q| <= |s|
    ensures b <==> forall j :: k <= j < |q| ==> CharEqualsIgnoreCase(q[j], s[at + j])
    decreases |q| - k
  {
    k >= |q| || (CharEqualsIgnoreCase(q[k], s[at + k]) && CharsMatchFrom(q, s, at, k + 1))
  }

  /**
    Kotlin's `q.regionMatches(0, s, at, |q|, ignoreCase = true)` as `indexOf`
    calls it: false when the region does not fit inside `s`, otherwise the
    character loop.
   */
  function RegionMatchesIgnoreCase(q: string, s: string, at: int): (b: bool)
    ensures b <==> MatchesAt(q, s, at)
  {
    0 <= at && at + |q| <= |s| && CharsMatchFrom(q, s, at, 0)
  }

  /**
    Kotlin's `indexOf(q, from, ignoreCase = true)`: the first offset in
    `from..|s|` where `q` matches, or -1 when there is none.
   */
  function IndexOfIgnoreCase(s: string, q: string, from: nat): (r: int)
    ensures r == -1 || (from <= r <= |s| && MatchesAt(q, s, r))
    ensures forall i :: from <= i && (r == -1 || i < r) ==> !MatchesAt(q, s, i)
    decreases |s| + 1 - from
  {
    if from > |s| then -1
    else if RegionMatchesIgnoreCase(q, s, from) then from
    else IndexOfIgnoreCase(s, q, from + 1)
  }

  /** Kotlin's `s.contains(q, ignoreCase = true)`, that is `indexOf(q) >= 0`. */
  function ContainsIgnoreCase(s: string, q: string): (b: bool)
    ensures b <==> exists i :: MatchesAt(q, s, i)
  {
    IndexOfIgnoreCase(s, q, 0) >= 0
  }

  /** `t` occurs in `u` as a contiguous block. */
  ghost predicate IsInfix(t: string, u: string) {
    exists i :: InfixAt(t, u, i)
  }

  /** `t` occurs in `u` starting at offset `i`. */
  predicate InfixAt(t: string, u: string, i: int) {
    0 <= i && i + |t| <= |u| && u[i..i + |t|] == t
  }

  lemma RegionMatchIsFoldedSlice(q: string, s: string, at: int)
    requires 0 <= at && at + |q| <= |s|
    ensures MatchesAt(q, s, at) <==> Lowercase(s)[at..at + |q|] == Lowercase(q)
  {
    var ls, lq := Lowercase(s), Lowercase(q);
    forall k | 0 <= k < |q| ensures CharEqualsIgnoreCase(q[k], s[at + k]) <==> lq[k] == ls[at..at + |q|][k] {
      CharEqualsIgnoreCaseFolds(q[k], s[at + k]);
    }
    if ls[at..at + |q|] == lq {
      forall k | 0 <= k < |q| ensures CharEqualsIgnoreCase(q[k], s[at + k]) {
        assert lq[k] == ls[at..at + |q|][k];
      }
    }
  }

  /**
    When the lower-cased `q` sits in the lower-cased `s` at `at`, so does the
    lower-cased middle part `t` of `q == a + t + b`, at `at + |a|`.
   */
  lemma FoldedSliceOfCore(s: string, q: string, at: int, a: string, t: string, b: string)
    requires q == a + t + b
    requires 0 <= at && at + |q| <= |s| && Lowercase(s)[at..at + |q|] == Lowercase(q)
    ensures 0 <= at + |a| && at + |a| + |t| <= |s|
    ensures Lowercase(s)[at + |a|..at + |a| + |t|] == Lowercase(t)
  {
    forall k | 0 <= k < |t| ensures Lowercase(s)[at + |a|..at + |a| + |t|][k] == Lowercase(t)[k] {
      assert q[|a| + k] == t[k];
      assert Lowercase(s)[at..at + |q|][|a| + k] == Lowercase(q)[|a| + k];
    }
  }

  /**
    When the lower-cased `q == a + t + b` occurs in the lower-cased `s`, `s`
    contains `t`, ignoring case.
   */
  lemma ContainsMiddle(s: string, q: string, at: int, a: string, t: string, b: string)
    requires q == a + t + b
    requires 0 <= at && at + |q| <= |s| && Lowercase(s)[at..at + |q|] == Lowercase(q)
    ensures ContainsIgnoreCase(s, t)
  {
    FoldedSliceOfCore(s, q, at, a, t, b);
    RegionMatchIsFoldedSlice(t, s, at + |a|);
    assert MatchesAt(t, s, at + |a|);
  }

  /**
    When the lower-cased `q` occurs in the lower-cased `s`, so does what
    trimming leaves of `q`: `s` contains `Trim(q)`, ignoring case.
   */
  lemma ContainsTrimmedCore(s: string, q: string, at: int)
    requires 0 <= at && at + |q| <= |s| && Lowercase(s)[at..at + |q|] == Lowercase(q)
    ensures ContainsIgnoreCase(s, Trim(q))
  {
    var a, b := TrimSplit(q);
    ContainsMiddle(s, q, at, a, Trim(q), b);
  }

  /**
    Case-insensitive containment is plain containment after lower-casing
    both strings.
   */
  lemma ContainsIgnoreCaseIsFoldedInfix(s: string, q: string)
    ensures ContainsIgnoreCase(s, q) <==> IsInfix(Lowercase(q), Lowercase(s))
  {
    var ls, lq := Lowercase(s), Lowercase(q);
    if ContainsIgnoreCase(s, q) {
      var i :| MatchesAt(q, s, i);
      assert InfixAt(lq, ls, i) by {
        RegionMatchIsFoldedSlice(q, s, i);
      }
    }
    if IsInfix(lq, ls) {
      var i :| InfixAt(lq, ls, i);
      assert MatchesAt(q, s, i) by {
        RegionMatchIsFoldedSlice(q, s, i);
      }
    }
  }

  /** Queries that lower-case alike are contained in the same strings. */
  lemma ContainsIgnoresQueryCase(s: string, q1: string, q2: string)
    requires Lowercase(q1) == Lowercase(q2)
    ensures ContainsIgnoreCase(s, q1) == ContainsIgnoreCase(s, q2)
  {
    ContainsIgnoreCaseIsFoldedInfix(s, q1);
    ContainsIgnoreCaseIsFoldedInfix(s, q2);
  }

  /** Neither `a` nor `b` occurs in `s`. */
  predicate LacksChars(s: string, a: char, b: char) {
    forall i :: 0 <= i < |s| ==> s[i] != a && s[i] != b
  }

  /** `s` holds `c` in neither its lower- nor its upper-case form. */
  predicate LacksLetter(s: string, c: char) {
    LacksChars(s, LowercaseChar(c), UppercaseChar(c))
  }

  /** Two strings that each lack both characters still lack them once joined. */
  lemma LacksCharsConcat(x: string, y: string, a: char, b: char)
    requires LacksChars(x, a, b) && LacksChars(y, a, b)
    ensures LacksChars(x + y, a, b)
  {
    forall i | 0 <= i < |x + y| ensures (x + y)[i] != a && (x + y)[i] != b {
      if i < |x| {
        assert (x + y)[i] == x[i];
      } else {
        assert (x + y)[i] == y[i - |x|];
      }
    }
  }

  /** The only characters equal to `a` ignoring case are its two case forms. */
  lemma IgnoreCaseForms(a: char, b: char)
    requires CharEqualsIgnoreCase(a, b)
    ensures b == LowercaseChar(a) || b == UppercaseChar(a)
  {
  }

  /** Two characters with the same lower-case form have the same upper-case form. */
  lemma SameLetterForms(a: char, b: char)
    requires LowercaseChar(a) == LowercaseChar(b)
    ensures UppercaseChar(a) == UppercaseChar(b)
  {
  }

  /** A query is never contained in a string that lacks one of its letters. */
  lemma MissingLetterRulesOutMatch(s: string, q: string, k: int)
    requires 0 <= k < |q| && LacksLetter(s, q[k])
    ensures !ContainsIgnoreCase(s, q)
  {
    if ContainsIgnoreCase(s, q) {
      var at :| MatchesAt(q, s, at);
      IgnoreCaseForms(q[k], s[at + k]);
    }
  }
}

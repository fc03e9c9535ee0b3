// String primitives the application relies on: String.prototype.toLowerCase,
// includes, a global RegExp replace, Array.prototype.join, number-to-string
// conversion and the emptiness test of String.prototype.trim.

module Text {

  /** True for the letters that the modelled toLowerCase changes. */
  predicate IsUpperAscii(c: char) {
    'A' <= c <= 'Z'
  }

  predicate IsAsciiLetter(c: char) {
    'A' <= c <= 'Z' || 'a' <= c <= 'z'
  }

  function LowerChar(c: char): (r: char)
    ensures !IsUpperAscii(r)
    ensures IsUpperAscii(c) ==> r as int == c as int + 32
    ensures !IsUpperAscii(c) ==> r == c
  {
    if IsUpperAscii(c) then (c as int + 32) as char else c
  }

  /** toLowerCase, restricted to the ASCII letters. */
  function Lower(s: string): (r: string)
    ensures |r| == |s|
  {
    if s == [] then [] else [LowerChar(s[0])] + Lower(s[1..])
  }

  lemma {:induction false} LowerIndex(s: string)
    ensures forall i :: 0 <= i < |s| ==> Lower(s)[i] == LowerChar(s[i])
  {
    if s != [] { LowerIndex(s[1..]); }
  }

  /** Lower-casing twice is lower-casing once. */
  lemma LowerIdempotent(s: string)
    ensures Lower(Lower(s)) == Lower(s)
  {
  }

  /** A string without ASCII letters is its own lower-case form. */
  lemma LowerOfCaseless(s: string)
    requires forall i :: 0 <= i < |s| ==> !IsAsciiLetter(s[i])
    ensures Lower(s) == s
  {
  }

  predicate StartsWith(s: string, p: string) {
    |p| <= |s| && s[..|p|] == p
  }

  /** `p` occurs in `s` at index `i`. */
  predicate OccursAt(s: string, p: string, i: int) {
    0 <= i && i + |p| <= |s| && s[i..i + |p|] == p
  }

  /** String.prototype.includes: scans the start positions left to right. */
  function Contains(s: string, p: string): (r: bool)
    ensures r <==> exists i :: OccursAt(s, p, i)
  {
    if StartsWith(s, p) then
      assert OccursAt(s, p, 0);
      true
    else if s == [] then
      assert forall i :: !OccursAt(s, p, i);
      false
    else
      var rest := Contains(s[1..], p);
      assert forall i :: OccursAt(s[1..], p, i) <==> OccursAt(s, p, i + 1);
      assert forall i :: OccursAt(s, p, i) ==> i == 0 || OccursAt(s[1..], p, i - 1);
      rest
  }

  lemma ContainsSelf(s: string)
    ensures Contains(s, s)
  {
    assert OccursAt(s, s, 0);
  }

  lemma ContainsEmpty(s: string)
    ensures Contains(s, [])
  {
    assert OccursAt(s, [], 0);
  }

  /** An occurrence in the tail is an occurrence in the whole. */
  lemma ContainsTail(s: string, p: string)
    requires s != []
    ensures Contains(s[1..], p) ==> Contains(s, p)
  {
    if Contains(s[1..], p) {
      var i :| OccursAt(s[1..], p, i);
      assert s[i + 1..i + 1 + |p|] == s[1..][i..i + |p|];
      assert OccursAt(s, p, i + 1);
    }
  }

  /** An occurrence inside a part is an occurrence in the whole. */
  lemma ContainsInfix(a: string, p: string, b: string)
    ensures Contains(a + p + b, p)
  {
    assert OccursAt(a + p + b, p, |a|);
  }

  /**
   * `s.replace(new RegExp(p, 'g'), r)` for a pattern without special
   * characters: the occurrences of `p` are found left to right, without
   * overlap, and each is replaced by `r`. An empty pattern matches before
   * every character and at the end.
   */
  function ReplaceAll(s: string, p: string, r: string): (t: string)
    decreases |s|, |p|
  {
    if p == [] then
      if s == [] then r else r + [s[0]] + ReplaceAll(s[1..], p, r)
    else if |s| < |p| then s
    else if s[..|p|] == p then r + ReplaceAll(s[|p|..], p, r)
    else [s[0]] + ReplaceAll(s[1..], p, r)
  }

  /** Replacing a pattern that does not occur changes nothing. */
  lemma {:induction false} ReplaceAbsent(s: string, p: string, r: string)
    requires p != []
    requires !Contains(s, p)
    ensures ReplaceAll(s, p, r) == s
    decreases |s|
  {
    if |s| >= |p| {
      assert forall i :: OccursAt(s[1..], p, i) ==> OccursAt(s, p, i + 1);
      ReplaceAbsent(s[1..], p, r);
    }
  }

  /**
   * Every replacement starts with r[0]; so a prefix of the output that does
   * not hold r[0] was copied unchanged from the input.
   */
  lemma {:induction false} ReplacePrefixCopied(s: string, p: string, r: string, k: nat)
    requires p != [] && r != []
    requires k <= |ReplaceAll(s, p, r)|
    ensures (forall j :: 0 <= j < k ==> ReplaceAll(s, p, r)[j] != r[0]) ==>
              k <= |s| && s[..k] == ReplaceAll(s, p, r)[..k]
    decreases |s|
  {
    var t := ReplaceAll(s, p, r);
    if k == 0 || |s| < |p| {
    } else if s[..|p|] == p {
      assert t[0] == r[0];
    } else {
      var u := ReplaceAll(s[1..], p, r);
      assert t == [s[0]] + u;
      assert forall j :: 0 <= j < k - 1 ==> u[j] == t[j + 1];
      ReplacePrefixCopied(s[1..], p, r, k - 1);
      if forall j :: 0 <= j < k ==> t[j] != r[0] {
        assert s[..k] == [s[0]] + s[1..][..k - 1];
        assert t[..k] == [s[0]] + u[..k - 1];
      }
    }
  }

  /** An occurrence in `r + u` lies in `u` unless `r` holds the pattern's first character. */
  lemma OccurrenceAfterPrefix(r: string, u: string, p: string)
    requires p != []
    ensures Contains(r + u, p) ==> p[0] in r || Contains(u, p)
  {
    var t := r + u;
    forall i | OccursAt(t, p, i) ensures p[0] in r || OccursAt(u, p, i - |r|) {
      if i < |r| {
        assert t[i] == r[i] == p[0];
      } else {
        assert t[i..i + |p|] == u[i - |r|..i - |r| + |p|];
      }
    }
  }

  /**
   * An occurrence at the front of `[s[0]] + ReplaceAll(s[1..], p, r)` was an
   * occurrence at the front of `s`, unless `p` holds `r[0]`.
   */
  lemma OccurrenceAfterCopy(s: string, p: string, r: string)
    requires p != [] && r != [] && |p| <= |s|
    ensures Contains([s[0]] + ReplaceAll(s[1..], p, r), p) ==>
              r[0] in p || s[..|p|] == p || Contains(ReplaceAll(s[1..], p, r), p)
  {
    var u := ReplaceAll(s[1..], p, r);
    var t := [s[0]] + u;
    forall i | OccursAt(t, p, i) && r[0] !in p
      ensures s[..|p|] == p || OccursAt(u, p, i - 1)
    {
      if i == 0 {
        var k := |p| - 1;
        assert t[..|p|] == p;
        assert forall j :: 0 <= j < k ==> u[j] == p[j + 1];
        ReplacePrefixCopied(s[1..], p, r, k);
        assert u[..k] == p[1..];
        assert s[..|p|] == [s[0]] + s[1..][..k];
      } else {
        assert t[i..i + |p|] == u[i - 1..i - 1 + |p|];
      }
    }
  }

  /**
   * The replacement is global: when the replacement text does not contain
   * the first character of the pattern and does not begin with any character
   * of the pattern, no occurrence of the pattern is left.
   */
  lemma {:induction false} ReplaceLeavesNone(s: string, p: string, r: string)
    requires p != [] && r != []
    requires p[0] !in r
    requires r[0] !in p
    ensures !Contains(ReplaceAll(s, p, r), p)
    decreases |s|
  {
    if |s| < |p| {
      assert forall i :: !OccursAt(s, p, i);
    } else if s[..|p|] == p {
      ReplaceLeavesNone(s[|p|..], p, r);
      OccurrenceAfterPrefix(r, ReplaceAll(s[|p|..], p, r), p);
    } else {
      ReplaceLeavesNone(s[1..], p, r);
      OccurrenceAfterCopy(s, p, r);
    }
  }

  /**
   * `s.replace(new RegExp(p, 'gi'), r)` for a pattern without special
   * characters: as ReplaceAll, but a window matches when it equals the
   * pattern once both are lower-cased.
   */
  function ReplaceAllIgnoreCase(s: string, p: string, r: string): (t: string)
    decreases |s|, |p|
  {
    if p == [] then
      if s == [] then r else r + [s[0]] + ReplaceAllIgnoreCase(s[1..], p, r)
    else if |s| < |p| then s
    else if Lower(s[..|p|]) == Lower(p) then r + ReplaceAllIgnoreCase(s[|p|..], p, r)
    else [s[0]] + ReplaceAllIgnoreCase(s[1..], p, r)
  }

  lemma {:induction false} LowerAppend(a: string, b: string)
    ensures Lower(a + b) == Lower(a) + Lower(b)
  {
    if a != [] {
      LowerAppend(a[1..], b);
      assert (a + b)[0] == a[0];
      assert (a + b)[1..] == a[1..] + b;
    } else {
      assert a + b == b;
    }
  }

  lemma LowerTake(s: string, i: nat)
    requires i <= |s|
    ensures Lower(s[..i]) == Lower(s)[..i]
  {
    LowerIndex(s);
    LowerIndex(s[..i]);
  }

  lemma LowerDrop(s: string, i: nat)
    requires i <= |s|
    ensures Lower(s[i..]) == Lower(s)[i..]
  {
    LowerIndex(s);
    LowerIndex(s[i..]);
  }

  /**
   * Lower-casing commutes with the case-insensitive replacement: its result,
   * lower-cased, is the literal replacement on the lower-cased strings.
   */
  lemma {:induction false} LowerReplaceIgnoreCase(s: string, p: string, r: string)
    ensures Lower(ReplaceAllIgnoreCase(s, p, r)) == ReplaceAll(Lower(s), Lower(p), Lower(r))
    decreases |s|
  {
    if p == [] {
      if s != [] {
        LowerReplaceIgnoreCase(s[1..], p, r);
        LowerStepEmpty(s, p, r);
      }
    } else if |s| < |p| {
    } else if Lower(s[..|p|]) == Lower(p) {
      LowerReplaceIgnoreCase(s[|p|..], p, r);
      LowerStepMatch(s, p, r);
    } else {
      LowerReplaceIgnoreCase(s[1..], p, r);
      LowerStepCopy(s, p, r);
    }
  }

  lemma LowerStepEmpty(s: string, p: string, r: string)
    requires p == [] && s != []
    requires Lower(ReplaceAllIgnoreCase(s[1..], p, r)) == ReplaceAll(Lower(s[1..]), Lower(p), Lower(r))
    ensures Lower(ReplaceAllIgnoreCase(s, p, r)) == ReplaceAll(Lower(s), Lower(p), Lower(r))
  {
    var u := ReplaceAllIgnoreCase(s[1..], p, r);
    var ls := Lower(s);
    assert Lower(p) == [];
    LowerDrop(s, 1);
    LowerAppend(r + [s[0]], u);
    LowerAppend(r, [s[0]]);
    calc {
      Lower(ReplaceAllIgnoreCase(s, p, r));
      Lower(r + [s[0]] + u);
      Lower(r) + Lower([s[0]]) + Lower(u);
      { assert Lower([s[0]]) == [ls[0]]; }
      Lower(r) + [ls[0]] + ReplaceAll(ls[1..], [], Lower(r));
      ReplaceAll(ls, [], Lower(r));
    }
  }

  lemma LowerStepMatch(s: string, p: string, r: string)
    requires p != [] && |p| <= |s| && Lower(s[..|p|]) == Lower(p)
    requires Lower(ReplaceAllIgnoreCase(s[|p|..], p, r)) == ReplaceAll(Lower(s[|p|..]), Lower(p), Lower(r))
    ensures Lower(ReplaceAllIgnoreCase(s, p, r)) == ReplaceAll(Lower(s), Lower(p), Lower(r))
  {
    var u := ReplaceAllIgnoreCase(s[|p|..], p, r);
    var ls, lp, lr := Lower(s), Lower(p), Lower(r);
    assert A: ReplaceAllIgnoreCase(s, p, r) == r + u;
    LowerAppend(r, u);
    assert B: Lower(r + u) == lr + Lower(u);
    LowerDrop(s, |p|);
    assert C: Lower(u) == ReplaceAll(ls[|p|..], lp, lr);
    LowerTake(s, |p|);
    assert D: ls[..|lp|] == lp;
    assert E: ReplaceAll(ls, lp, lr) == lr + ReplaceAll(ls[|lp|..], lp, lr);
  }

  lemma LowerStepCopy(s: string, p: string, r: string)
    requires p != [] && |p| <= |s| && Lower(s[..|p|]) != Lower(p)
    requires Lower(ReplaceAllIgnoreCase(s[1..], p, r)) == ReplaceAll(Lower(s[1..]), Lower(p), Lower(r))
    ensures Lower(ReplaceAllIgnoreCase(s, p, r)) == ReplaceAll(Lower(s), Lower(p), Lower(r))
  {
    var u := ReplaceAllIgnoreCase(s[1..], p, r);
    var ls, lp := Lower(s), Lower(p);
    LowerTake(s, |p|);
    LowerDrop(s, 1);
    LowerAppend([s[0]], u);
    calc {
      Lower(ReplaceAllIgnoreCase(s, p, r));
      Lower([s[0]] + u);
      Lower([s[0]]) + Lower(u);
      { assert Lower([s[0]]) == [ls[0]]; }
      [ls[0]] + ReplaceAll(ls[1..], lp, Lower(r));
      { assert lp != [] && |lp| <= |ls| && ls[..|lp|] != lp; }
      ReplaceAll(ls, lp, Lower(r));
    }
  }

  /** A pattern that does not occur, ignoring case, leaves the text as it is. */
  lemma {:induction false} ReplaceIgnoreCaseAbsent(s: string, p: string, r: string)
    requires p != []
    requires !Contains(Lower(s), Lower(p))
    ensures ReplaceAllIgnoreCase(s, p, r) == s
    decreases |s|
  {
    if |s| >= |p| {
      LowerTake(s, |p|);
      LowerDrop(s, 1);
      assert !OccursAt(Lower(s), Lower(p), 0);
      ContainsTail(Lower(s), Lower(p));
      ReplaceIgnoreCaseAbsent(s[1..], p, r);
    }
  }

  /**
   * The replacement is global: under the conditions of ReplaceLeavesNone on
   * the lower-cased pattern and replacement, no occurrence of the pattern is
   * left, in any case.
   */
  lemma ReplaceIgnoreCaseLeavesNone(s: string, p: string, r: string)
    requires p != [] && r != []
    requires Lower(p)[0] !in Lower(r)
    requires Lower(r)[0] !in Lower(p)
    ensures !Contains(Lower(ReplaceAllIgnoreCase(s, p, r)), Lower(p))
  {
    LowerReplaceIgnoreCase(s, p, r);
    ReplaceLeavesNone(Lower(s), Lower(p), Lower(r));
  }

  /** Array.prototype.join. */
  function Join(xs: seq<string>, sep: string): (r: string)
  {
    if xs == [] then ""
    else if |xs| == 1 then xs[0]
    else xs[0] + sep + Join(xs[1..], sep)
  }

  /** The joined length: the lengths of the elements plus one separator per gap. */
  lemma {:induction false} JoinLength(xs: seq<string>, sep: string)
    ensures |Join(xs, sep)| == SumLengths(xs) + (if xs == [] then 0 else (|xs| - 1) * |sep|)
  {
    if |xs| > 1 {
      JoinLength(xs[1..], sep);
    }
  }

  /**
   * Joining a list with one more element adds one separator and that
   * element at the end; a single element is joined without a separator.
   */
  lemma {:induction false} JoinAppend(xs: seq<string>, x: string, sep: string)
    ensures Join([x], sep) == x
    ensures xs != [] ==> Join(xs + [x], sep) == Join(xs, sep) + sep + x
  {
    if |xs| > 1 {
      assert (xs + [x])[1..] == xs[1..] + [x];
      JoinAppend(xs[1..], x, sep);
    } else if |xs| == 1 {
      assert (xs + [x])[1..] == [x];
    }
  }

  function SumLengths(xs: seq<string>): nat {
    if xs == [] then 0 else |xs[0]| + SumLengths(xs[1..])
  }

  function DigitChar(d: nat): (c: char)
    requires d < 10
    ensures '0' <= c <= '9'
  {
    ('0' as int + d) as char
  }

  /** The decimal rendering of a non-negative integer, as String(n) gives it. */
  function NatToString(n: nat): (r: string)
    ensures |r| >= 1
    ensures forall i :: 0 <= i < |r| ==> '0' <= r[i] <= '9'
    ensures |r| > 1 ==> r[0] != '0'
  {
    if n < 10 then [DigitChar(n)] else NatToString(n / 10) + [DigitChar(n % 10)]
  }

  /** The value denoted by a string of decimal digits. */
  function DecimalValue(s: string): nat
    requires forall i :: 0 <= i < |s| ==> '0' <= s[i] <= '9'
  {
    if s == [] then 0 else 10 * DecimalValue(s[..|s| - 1]) + (s[|s| - 1] as int - '0' as int)
  }

  /** The rendering can be read back: String(n) denotes n. */
  lemma {:induction false} NatToStringRoundTrip(n: nat)
    ensures DecimalValue(NatToString(n)) == n
  {
    if n >= 10 {
      NatToStringRoundTrip(n / 10);
      var s := NatToString(n);
      assert s[..|s| - 1] == NatToString(n / 10);
    }
  }

  /**
   * An id made of a fixed prefix and a decimal number (`prefix-${n}`)
   * identifies the number: two such ids are equal exactly when the numbers are.
   */
  lemma NumberedIdInjective(prefix: string, a: nat, b: nat)
    ensures prefix + NatToString(a) == prefix + NatToString(b) <==> a == b
  {
    if prefix + NatToString(a) == prefix + NatToString(b) {
      assert (prefix + NatToString(a))[|prefix|..] == NatToString(a);
      assert (prefix + NatToString(b))[|prefix|..] == NatToString(b);
      NatToStringRoundTrip(a);
      NatToStringRoundTrip(b);
    }
  }

  /**
   * The characters String.prototype.trim removes: the ECMAScript WhiteSpace
   * and LineTerminator code points.
   */
  predicate IsJsWhitespace(c: char) {
    c == '\t' || c == '\n' || c == '\U{000B}' || c == '\U{000C}' || c == '\r' || c == ' '
    || c == '\U{00A0}' || c == '\U{1680}' || ('\U{2000}' <= c <= '\U{200A}')
    || c == '\U{2028}' || c == '\U{2029}' || c == '\U{202F}' || c == '\U{205F}'
    || c == '\U{3000}' || c == '\U{FEFF}'
  }

  /** `!s.trim()`: the string is empty once trimmed. */
  predicate IsBlank(s: string) {
    forall i :: 0 <= i < |s| ==> IsJsWhitespace(s[i])
  }
}

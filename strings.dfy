/** The string operations the dashboard relies on: ASCII lower-casing,
    `includes`, `split`, and rendering a number in decimal. */
module Strings {

  /** `toLowerCase` on one character, restricted to ASCII letters. */
  function LowerChar(c: char): char {
    if 'A' <= c <= 'Z' then (c as int + 32) as char else c
  }

  /** `toLowerCase`, restricted to ASCII letters. */
  function Lower(s: string): string {
    seq(|s|, i requires 0 <= i < |s| => LowerChar(s[i]))
  }

  /** `sub` occurs in `t` starting at position `i`. */
  predicate OccursAt(t: string, sub: string, i: nat) {
    i + |sub| <= |t| && t[i..i + |sub|] == sub
  }

  /** `t.includes(sub)`. */
  predicate Contains(t: string, sub: string) {
    exists i :: 0 <= i <= |t| - |sub| && OccursAt(t, sub, i)
  }

  /** `k` is the position of the first occurrence of `sub` in `t`. */
  predicate FirstOccurrence(t: string, sub: string, k: nat) {
    OccursAt(t, sub, k) && forall i :: 0 <= i < k ==> !OccursAt(t, sub, i)
  }

  /** `p` is the text of `t` up to the first occurrence of `sep`, or all of
      `t` when `sep` does not occur. */
  predicate IsFirstPiece(t: string, sep: string, p: string) {
    && |p| <= |t| && p == t[..|p|]
    && (forall i :: 0 <= i < |p| ==> !OccursAt(t, sep, i))
    && (p == t || OccursAt(t, sep, |p|))
  }

  /** `s.split(sep)` for a non-empty separator: the pieces between the
      successive non-overlapping occurrences of `sep`, scanning left to right. */
  function Split(s: string, sep: string): (parts: seq<string>)
    requires |sep| > 0
    ensures |parts| >= 1
    decreases |s|
  {
    if |s| < |sep| then [s]
    else if s[..|sep|] == sep then [""] + Split(s[|sep|..], sep)
    else
      var rest := Split(s[1..], sep);
      [[s[0]] + rest[0]] + rest[1..]
  }

  /** `parts.join(sep)`. */
  function Join(parts: seq<string>, sep: string): string
    requires |parts| >= 1
  {
    if |parts| == 1 then parts[0] else parts[0] + sep + Join(parts[1..], sep)
  }

  lemma OccursShift(s: string, sep: string, i: nat)
    requires |s| > 0
    ensures OccursAt(s, sep, i + 1) <==> OccursAt(s[1..], sep, i)
  {
    if i + 1 + |sep| <= |s| {
      assert s[i + 1..i + 1 + |sep|] == s[1..][i..i + |sep|];
    }
  }

  /** Joining the pieces with the separator gives the string back. */
  lemma {:induction false} SplitJoin(s: string, sep: string)
    requires |sep| > 0
    ensures Join(Split(s, sep), sep) == s
    decreases |s|
  {
    if |s| < |sep| {
    } else if s[..|sep|] == sep {
      SplitJoin(s[|sep|..], sep);
      assert s == sep + s[|sep|..];
    } else {
      var rest := Split(s[1..], sep);
      SplitJoin(s[1..], sep);
      JoinPrependToFirst(s[0], rest, sep);
      assert s == [s[0]] + s[1..];
    }
  }

  /** Prepending a character to the first piece prepends it to the join. */
  lemma JoinPrependToFirst(c: char, parts: seq<string>, sep: string)
    requires |parts| >= 1
    ensures Join([[c] + parts[0]] + parts[1..], sep) == [c] + Join(parts, sep)
  {
    var q := [[c] + parts[0]] + parts[1..];
    if |parts| > 1 {
      assert q[1..] == parts[1..];
    }
  }

  /** The first piece is the text before the first occurrence of `sep`
      (the whole string when there is none). */
  lemma {:induction false} SplitFirst(s: string, sep: string)
    requires |sep| > 0
    ensures IsFirstPiece(s, sep, Split(s, sep)[0])
    decreases |s|
  {
    if |s| < |sep| {
    } else if s[..|sep|] == sep {
      assert s[0..|sep|] == s[..|sep|];
    } else {
      var rest := Split(s[1..], sep);
      SplitFirst(s[1..], sep);
      var p := Split(s, sep)[0];
      assert p == [s[0]] + rest[0];
      forall i | 0 <= i < |p| ensures !OccursAt(s, sep, i) {
        if i == 0 {
          assert s[0..|sep|] == s[..|sep|];
        } else {
          OccursShift(s, sep, i - 1);
        }
      }
      OccursShift(s, sep, |rest[0]|);
      assert p == s[..|p|];
    }
  }

  /** When there are two or more pieces, the first is followed by `sep` and
      the remaining pieces split what comes after it; a single piece is the
      whole string. */
  lemma {:induction false} SplitRest(s: string, sep: string)
    requires |sep| > 0
    ensures var parts := Split(s, sep);
      && (|parts| == 1 ==> parts[0] == s)
      && (|parts| >= 2 ==>
            && |parts[0]| + |sep| <= |s|
            && OccursAt(s, sep, |parts[0]|)
            && parts[1..] == Split(s[|parts[0]| + |sep|..], sep))
    decreases |s|
  {
    if |s| < |sep| {
    } else if s[..|sep|] == sep {
      assert s[0..|sep|] == s[..|sep|];
    } else {
      var rest := Split(s[1..], sep);
      SplitRest(s[1..], sep);
      var parts := Split(s, sep);
      assert parts[0] == [s[0]] + rest[0];
      assert parts[1..] == rest[1..];
      if |rest| == 1 {
        assert s == [s[0]] + s[1..];
      } else {
        OccursShift(s, sep, |rest[0]|);
        assert s[1..][|rest[0]| + |sep|..] == s[|parts[0]| + |sep|..];
      }
    }
  }

  /** `split` yields a single piece exactly when the separator does not occur. */
  lemma SingleSegmentIffAbsent(s: string, sep: string)
    requires |sep| > 0
    ensures |Split(s, sep)| == 1 <==> !Contains(s, sep)
  {
    var parts := Split(s, sep);
    SplitFirst(s, sep);
    SplitRest(s, sep);
    if |parts| >= 2 {
      assert OccursAt(s, sep, |parts[0]|);
    }
  }

  function DigitChar(d: nat): char
    requires d < 10
  {
    "0123456789"[d]
  }

  /** `String(n)` for a natural number: its decimal digits, most significant first. */
  function NatToString(n: nat): (r: string)
    ensures |r| >= 1
    ensures forall i :: 0 <= i < |r| ==> '0' <= r[i] <= '9'
  {
    if n < 10 then [DigitChar(n)] else NatToString(n / 10) + [DigitChar(n % 10)]
  }
}

/** String operations the core uses from the Java and JavaScript libraries:
    prefix/suffix tests, substring search, ASCII lower-casing, blankness,
    replace-all and splitting on a separator character. */
module Strings {

  predicate StartsWith(s: string, prefix: string) {
    |prefix| <= |s| && s[..|prefix|] == prefix
  }

  predicate EndsWith(s: string, suffix: string) {
    |suffix| <= |s| && s[|s| - |suffix|..] == suffix
  }

  /** `sub` occurs in `s` starting at index `i`. */
  predicate OccursAt(s: string, sub: string, i: int) {
    0 <= i && i + |sub| <= |s| && s[i..i + |sub|] == sub
  }

  /** Java `String.contains` and JavaScript `String.prototype.includes`. */
  predicate Contains(s: string, sub: string) {
    exists i | 0 <= i <= |s| - |sub| :: OccursAt(s, sub, i)
  }

  lemma ContainsItself(s: string)
    ensures Contains(s, s)
  {
    assert OccursAt(s, s, 0);
  }

  /** Upper-case ASCII letters map to lower case; every other character is kept. */
  function LowerChar(c: char): (r: char)
    ensures 'A' <= c <= 'Z' ==> r as int == c as int + 32
    ensures !('A' <= c <= 'Z') ==> r == c
  {
    if 'A' <= c <= 'Z' then (c as int + 32) as char else c
  }

  /** `toLowerCase`, restricted to ASCII letters. */
  function ToLower(s: string): (r: string)
    ensures |r| == |s|
    ensures forall i | 0 <= i < |s| :: r[i] == LowerChar(s[i])
  {
    seq(|s|, i requires 0 <= i < |s| => LowerChar(s[i]))
  }

  /** Lower-casing twice is lower-casing once. */
  lemma ToLowerIdempotent(s: string)
    ensures ToLower(ToLower(s)) == ToLower(s)
  {
    var t := ToLower(s);
    assert forall i | 0 <= i < |t| :: LowerChar(t[i]) == t[i];
  }

  /** Lower-casing distributes over concatenation, so it maps an occurrence of
      `sub` in `s` to an occurrence of the lower-cased `sub` at the same place. */
  lemma ToLowerPreservesOccurrence(s: string, sub: string, i: int)
    requires OccursAt(s, sub, i)
    ensures OccursAt(ToLower(s), ToLower(sub), i)
  {
    var ls, lsub := ToLower(s), ToLower(sub);
    forall k | 0 <= k < |sub|
      ensures ls[i..i + |sub|][k] == lsub[k]
    {
      assert s[i + k] == sub[k];
    }
  }

  /** Blank in the sense of Java `trim().isEmpty()`: every character is at or
      below U+0020 (this includes the empty string). */
  predicate IsBlank(s: string) {
    forall i | 0 <= i < |s| :: s[i] <= ' '
  }

  /** Java `String.replace(target, replacement)`: every occurrence of `pat`,
      scanning left to right without overlap, is replaced by `rep`. */
  function ReplaceAll(s: string, pat: string, rep: string): string
    requires |pat| > 0
    decreases |s|
  {
    if |s| < |pat| then s
    else if s[..|pat|] == pat then rep + ReplaceAll(s[|pat|..], pat, rep)
    else [s[0]] + ReplaceAll(s[1..], pat, rep)
  }

  /** A string in which the first character of `pat` never appears is left unchanged. */
  lemma {:induction false} ReplaceAllNoOccurrence(s: string, pat: string, rep: string)
    requires |pat| > 0
    requires forall i | 0 <= i < |s| :: s[i] != pat[0]
    ensures ReplaceAll(s, pat, rep) == s
    decreases |s|
  {
    if |s| >= |pat| {
      assert s[..|pat|][0] == s[0];
      ReplaceAllNoOccurrence(s[1..], pat, rep);
    }
  }

  /** Replacing in `pat + t` replaces the leading `pat` and then works on `t`. */
  lemma ReplaceAllLeading(pat: string, t: string, rep: string)
    requires |pat| > 0
    ensures ReplaceAll(pat + t, pat, rep) == rep + ReplaceAll(t, pat, rep)
  {
    var s := pat + t;
    assert s[..|pat|] == pat;
    assert s[|pat|..] == t;
  }

  /** The fields of `s` separated by `sep`: k separators give k + 1 fields,
      empty fields included. */
  function SplitOn(s: string, sep: char): (parts: seq<string>)
    ensures |parts| >= 1
    decreases |s|
  {
    if |s| == 0 then [""]
    else
      var rest := SplitOn(s[1..], sep);
      if s[0] == sep then [""] + rest
      else [[s[0]] + rest[0]] + rest[1..]
  }

  /** For a non-empty string, the first field is empty exactly when the string
      starts with the separator. */
  lemma SplitOnFirstField(s: string, sep: char)
    requires |s| > 0
    ensures SplitOn(s, sep)[0] == "" <==> s[0] == sep
  {
  }

  /** Every field is empty exactly when every character is the separator. */
  lemma {:induction false} SplitOnAllEmpty(s: string, sep: char)
    ensures (forall k | 0 <= k < |SplitOn(s, sep)| :: SplitOn(s, sep)[k] == "")
            <==> (forall i | 0 <= i < |s| :: s[i] == sep)
    decreases |s|
  {
    if |s| > 0 {
      SplitOnAllEmpty(s[1..], sep);
      var rest := SplitOn(s[1..], sep);
      if s[0] == sep {
        var parts := SplitOn(s, sep);
        assert parts == [""] + rest;
        if forall i | 0 <= i < |s| :: s[i] == sep {
          assert forall i | 0 <= i < |s[1..]| :: s[1..][i] == s[i + 1];
          assert forall k | 1 <= k < |parts| :: parts[k] == rest[k - 1];
        }
        if forall k | 0 <= k < |parts| :: parts[k] == "" {
          assert forall k | 0 <= k < |rest| :: rest[k] == parts[k + 1];
          assert forall i | 1 <= i < |s| :: s[i] == s[1..][i - 1];
        }
      } else {
        assert SplitOn(s, sep)[0] != "";
      }
    }
  }

  /** The fields up to the last non-empty one. */
  function DropTrailingEmpty(parts: seq<string>): (r: seq<string>)
    ensures r <= parts
    ensures forall k | |r| <= k < |parts| :: parts[k] == ""
    ensures |r| > 0 ==> r[|r| - 1] != ""
  {
    if |parts| == 0 then []
    else if parts[|parts| - 1] == "" then DropTrailingEmpty(parts[..|parts| - 1])
    else parts
  }

  /** Java's `String.split` around a one-character separator: the fields
      without the trailing empty ones; the empty string gives one empty field. */
  function JavaSplit(s: string, sep: char): (parts: seq<string>)
  {
    if |s| == 0 then [""] else DropTrailingEmpty(SplitOn(s, sep))
  }

  /** A non-empty string made only of separators splits into no field at all;
      otherwise some field is kept, and the first field is empty exactly when
      the string starts with the separator. */
  lemma JavaSplitShape(s: string, sep: char)
    requires |s| > 0
    ensures (forall i | 0 <= i < |s| :: s[i] == sep) <==> |JavaSplit(s, sep)| == 0
    ensures |JavaSplit(s, sep)| > 0 ==> (JavaSplit(s, sep)[0] == "" <==> s[0] == sep)
    ensures |JavaSplit(s, sep)| > 0 && s[0] != sep ==> JavaSplit(s, sep)[0][..1] == s[..1]
  {
    var parts := SplitOn(s, sep);
    SplitOnAllEmpty(s, sep);
    SplitOnFirstField(s, sep);
    var r := DropTrailingEmpty(parts);
    if |r| == 0 {
      assert forall k | 0 <= k < |parts| :: parts[k] == "";
    } else {
      assert parts[|r| - 1] != "";
      if s[0] != sep {
        assert r[0] == parts[0] == [s[0]] + SplitOn(s[1..], sep)[0];
      }
    }
  }
}

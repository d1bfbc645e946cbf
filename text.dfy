/** The string builtins the client uses — `trim`, `toLowerCase`, `includes`,
    and the prefix/suffix tests a router needs — over ASCII. Whitespace is
    space, tab, line feed, vertical tab, form feed and carriage return; case
    folding maps 'A'..'Z' to 'a'..'z'. */
module Text {

  predicate IsWhitespace(c: char)
  {
    c == ' ' || c == '\t' || c == '\n' || c == '\r' || c as int == 11 || c as int == 12
  }

  /** Every character is whitespace (this includes the empty string). */
  predicate IsBlank(s: string)
  {
    forall i :: 0 <= i < |s| ==> IsWhitespace(s[i])
  }

  /** Drops the leading whitespace: the result is the suffix of `s` that starts
      at its first non-whitespace character. */
  function TrimStart(s: string): (r: string)
    ensures |r| <= |s| && r == s[|s| - |r|..]
    ensures r == [] || !IsWhitespace(r[0])
    ensures forall i :: 0 <= i < |s| - |r| ==> IsWhitespace(s[i])
  {
    if s != [] && IsWhitespace(s[0]) then TrimStart(s[1..]) else s
  }

  /** Drops the trailing whitespace: the result is the prefix of `s` that ends
      at its last non-whitespace character. */
  function TrimEnd(s: string): (r: string)
    ensures |r| <= |s| && r == s[..|r|]
    ensures r == [] || !IsWhitespace(r[|r| - 1])
    ensures forall i :: |r| <= i < |s| ==> IsWhitespace(s[i])
  {
    if s != [] && IsWhitespace(s[|s| - 1]) then TrimEnd(s[..|s| - 1]) else s
  }

  /** `s.trim()`: the slice of `s` left once its leading and trailing
      whitespace is dropped; empty exactly when `s` is blank, and otherwise
      starting and ending with a non-whitespace character. */
  function Trim(s: string): (r: string)
    ensures exists i: nat :: OccursAt(s, r, i) && IsBlank(s[..i]) && IsBlank(s[i + |r|..])
    ensures r == [] <==> IsBlank(s)
    ensures r == [] || (!IsWhitespace(r[0]) && !IsWhitespace(r[|r| - 1]))
  {
    var front := TrimStart(s);
    TrimmedSlice(s, front, TrimEnd(front));
    TrimEnd(front)
  }

  /** A slice `r` of a suffix `front` of `s`, with only whitespace before
      `front` and after `r` and with non-whitespace at the start of `front`
      and at the end of `r`, is what trimming `s` must give. */
  lemma TrimmedSlice(s: string, front: string, r: string)
    requires |front| <= |s| && front == s[|s| - |front|..]
    requires |r| <= |front| && r == front[..|r|]
    requires forall i :: 0 <= i < |s| - |front| ==> IsWhitespace(s[i])
    requires forall i :: |r| <= i < |front| ==> IsWhitespace(front[i])
    requires front == [] || !IsWhitespace(front[0])
    requires r == [] || !IsWhitespace(r[|r| - 1])
    ensures exists i: nat :: OccursAt(s, r, i) && IsBlank(s[..i]) && IsBlank(s[i + |r|..])
    ensures r == [] <==> IsBlank(s)
    ensures r == [] || (!IsWhitespace(r[0]) && !IsWhitespace(r[|r| - 1]))
  {
    var start := |s| - |front|;
    assert s[start..start + |r|] == r;
    assert IsBlank(s[..start]) by {
      forall k | 0 <= k < start ensures IsWhitespace(s[..start][k]) {
        assert s[..start][k] == s[k];
      }
    }
    var rest := s[start + |r|..];
    forall k | 0 <= k < |rest| ensures IsWhitespace(rest[k]) {
      assert rest[k] == front[|r| + k];
    }
    assert OccursAt(s, r, start) && IsBlank(s[..start]) && IsBlank(rest);
    if r != [] {
      assert r[0] == front[0] == s[start];
    }
  }

  /** `!s.trim()`: nothing is left once whitespace is trimmed, which is
      exactly when `s` is blank. */
  method TrimsToEmpty(s: string) returns (empty: bool)
    ensures empty <==> IsBlank(s)
  {
    empty := Trim(s) == "";
  }

  /** Trimming twice is trimming once. */
  lemma TrimIdempotent(s: string)
    ensures Trim(Trim(s)) == Trim(s)
  {
  }

  function LowerChar(c: char): (d: char)
  {
    if 'A' <= c <= 'Z' then (c as int + 32) as char else c
  }

  /** `s.toLowerCase()`: character by character, no upper-case letter remains. */
  function Lower(s: string): (r: string)
    ensures |r| == |s|
    ensures forall i :: 0 <= i < |s| ==> r[i] == LowerChar(s[i])
    ensures forall i :: 0 <= i < |r| ==> !('A' <= r[i] <= 'Z')
  {
    if s == [] then [] else [LowerChar(s[0])] + Lower(s[1..])
  }

  /** `sub` occurs in `s` starting at index `i`. */
  predicate OccursAt(s: string, sub: string, i: nat)
  {
    i + |sub| <= |s| && s[i..i + |sub|] == sub
  }

  /** The substring relation: `sub` occurs at some index of `s`. */
  ghost predicate Includes(s: string, sub: string)
  {
    exists i: nat :: OccursAt(s, sub, i)
  }

  /** `s.includes(sub)`. */
  function Contains(s: string, sub: string): (r: bool)
  {
    if |sub| > |s| then false
    else s[..|sub|] == sub || Contains(s[1..], sub)
  }

  /** `includes` is the substring relation: true exactly when `sub` occurs at
      some index of `s`. */
  lemma {:induction false} ContainsIff(s: string, sub: string)
    ensures Contains(s, sub) <==> Includes(s, sub)
  {
    if |sub| > |s| {
      forall i: nat ensures !OccursAt(s, sub, i) { }
    } else if s[..|sub|] == sub {
      assert OccursAt(s, sub, 0);
    } else {
      ContainsIff(s[1..], sub);
      if Contains(s[1..], sub) {
        var i: nat :| OccursAt(s[1..], sub, i);
        assert s[1..][i..i + |sub|] == s[i + 1..i + 1 + |sub|];
        assert OccursAt(s, sub, i + 1);
      } else {
        forall i: nat | 0 < i && OccursAt(s, sub, i) ensures OccursAt(s[1..], sub, i - 1) {
          assert s[1..][i - 1..i - 1 + |sub|] == s[i..i + |sub|];
        }
        assert !OccursAt(s, sub, 0);
      }
    }
  }

  /** The empty string is included in every string. */
  lemma ContainsEmpty(s: string)
    ensures Contains(s, "")
  {
  }

  predicate StartsWith(s: string, prefix: string)
  {
    |prefix| <= |s| && s[..|prefix|] == prefix
  }

  predicate EndsWith(s: string, suffix: string)
  {
    |suffix| <= |s| && s[|s| - |suffix|..] == suffix
  }
}

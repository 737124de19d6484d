/** String operations the Swift code takes from Foundation.

    Foundation's versions are Unicode- and locale-aware. This module states
    ASCII approximations of them: case mapping touches only 'A'..'Z' and
    'a'..'z', and the whitespace set is the ASCII whitespace characters plus
    NEL (U+0085) and NO-BREAK SPACE (U+00A0). Every other character is left
    as it is and compared by code point. */
module Text {

  // ---------------------------------------------------------------------------
  // Characters

  function LowerChar(c: char): char {
    if 'A' <= c <= 'Z' then (c as int + 32) as char else c
  }

  function UpperChar(c: char): char {
    if 'a' <= c <= 'z' then (c as int - 32) as char else c
  }

  /** The members of `CharacterSet.whitespacesAndNewlines` this model knows. */
  predicate IsWhitespaceOrNewline(c: char) {
    c == ' ' || c == '\t' || c == '\n' || c == '\r' || c == '\U{0B}' || c == '\U{0C}'
    || c == '\U{85}' || c == '\U{A0}'
  }

  lemma CaseMappingKeepsWhitespace(c: char)
    ensures IsWhitespaceOrNewline(UpperChar(c)) <==> IsWhitespaceOrNewline(c)
    ensures IsWhitespaceOrNewline(LowerChar(c)) <==> IsWhitespaceOrNewline(c)
  {
  }

  // ---------------------------------------------------------------------------
  // Case mapping of whole strings

  /** `lowercased()`. */
  function Lower(s: string): (r: string)
    ensures |r| == |s|
    ensures forall i :: 0 <= i < |s| ==> r[i] == LowerChar(s[i])
  {
    seq(|s|, i requires 0 <= i < |s| => LowerChar(s[i]))
  }

  /** `capitalized`: the first character of every word upper-cased and every
      other character lower-cased, a word being delimited by whitespace. */
  function Capitalized(s: string): string {
    CapitalizedFrom(s, true)
  }

  /** `Capitalized` of the rest of a string whose previous character was
      whitespace (or absent) exactly when `atWordStart` holds. */
  function CapitalizedFrom(s: string, atWordStart: bool): (r: string)
    ensures |r| == |s|
    decreases |s|
  {
    if s == [] then []
    else
      [if atWordStart then UpperChar(s[0]) else LowerChar(s[0])]
      + CapitalizedFrom(s[1..], IsWhitespaceOrNewline(s[0]))
  }

  lemma {:induction false} CapitalizedKeepsWhitespace(s: string, w: bool, i: nat)
    requires i < |s|
    ensures IsWhitespaceOrNewline(CapitalizedFrom(s, w)[i]) <==> IsWhitespaceOrNewline(s[i])
    decreases |s|
  {
    CaseMappingKeepsWhitespace(s[0]);
    if i > 0 {
      CapitalizedKeepsWhitespace(s[1..], IsWhitespaceOrNewline(s[0]), i - 1);
    }
  }

  /** Capitalising a concatenation capitalises its parts, the second part
      starting a word exactly when the first ends in whitespace. */
  lemma {:induction false} CapitalizedFromAppend(a: string, b: string, w: bool)
    ensures CapitalizedFrom(a + b, w)
         == CapitalizedFrom(a, w)
          + CapitalizedFrom(b, if a == [] then w else IsWhitespaceOrNewline(a[|a| - 1]))
    decreases |a|
  {
    if a == [] {
      assert a + b == b;
    } else {
      assert (a + b)[0] == a[0];
      assert (a + b)[1..] == a[1..] + b;
      CapitalizedFromAppend(a[1..], b, IsWhitespaceOrNewline(a[0]));
    }
  }

  // ---------------------------------------------------------------------------
  // Searching

  /** `s.contains(sub)`: `sub` occurs as a contiguous piece of `s`. */
  predicate Contains(s: string, sub: string)
    decreases |s|
  {
    (|sub| <= |s| && s[..|sub|] == sub) || (s != [] && Contains(s[1..], sub))
  }

  /** A copy of `sub` starts at offset `i` of `s`. */
  predicate OccursAt(s: string, sub: string, i: int) {
    0 <= i <= |s| - |sub| && s[i..i + |sub|] == sub
  }

  /** `Contains` agrees with the direct statement: some offset of `s` starts a
      copy of `sub`. */
  lemma {:induction false} ContainsIffOccurs(s: string, sub: string)
    ensures Contains(s, sub) <==> exists i :: OccursAt(s, sub, i)
    decreases |s|
  {
    if |sub| <= |s| && s[..|sub|] == sub {
      assert OccursAt(s, sub, 0);
    }
    if s != [] {
      ContainsIffOccurs(s[1..], sub);
      if Contains(s[1..], sub) {
        var i :| OccursAt(s[1..], sub, i);
        assert s[i + 1..i + 1 + |sub|] == s[1..][i..i + |sub|];
        assert OccursAt(s, sub, i + 1);
      }
      if exists i :: OccursAt(s, sub, i) {
        var i :| OccursAt(s, sub, i);
        if i > 0 {
          assert s[1..][i - 1..i - 1 + |sub|] == s[i..i + |sub|];
          assert OccursAt(s[1..], sub, i - 1);
        } else {
          assert s[..|sub|] == sub;
        }
      }
    } else {
      if exists i :: OccursAt(s, sub, i) {
        var i :| OccursAt(s, sub, i);
        assert s[..|sub|] == sub;
      }
    }
  }

  /** `localizedCaseInsensitiveContains`, with `Lower` as the case fold. */
  predicate ContainsIgnoringCase(s: string, sub: string) {
    Contains(Lower(s), Lower(sub))
  }

  /** `s.hasSuffix(suffix)`. */
  predicate HasSuffix(s: string, suffix: string) {
    |suffix| <= |s| && s[|s| - |suffix|..] == suffix
  }

  lemma AppendedHasSuffix(s: string, suffix: string)
    ensures HasSuffix(s + suffix, suffix) && (s + suffix)[..|s|] == s
  {
    assert (s + suffix)[|s|..] == suffix;
  }

  // ---------------------------------------------------------------------------
  // Trimming

  function TrimStart(s: string): (r: string)
    ensures |r| <= |s| && r == s[|s| - |r|..]
    ensures r != [] ==> !IsWhitespaceOrNewline(r[0])
    decreases |s|
  {
    if s != [] && IsWhitespaceOrNewline(s[0]) then TrimStart(s[1..]) else s
  }

  function TrimEnd(s: string): (r: string)
    ensures |r| <= |s| && r == s[..|r|]
    ensures r != [] ==> !IsWhitespaceOrNewline(r[|r| - 1])
    decreases |s|
  {
    if s != [] && IsWhitespaceOrNewline(s[|s| - 1]) then TrimEnd(s[..|s| - 1]) else s
  }

  /** `trimmingCharacters(in: .whitespacesAndNewlines)`. */
  function Trim(s: string): string {
    TrimEnd(TrimStart(s))
  }

  /** Trimming leaves a string unchanged exactly when it neither starts nor
      ends with whitespace. */
  lemma TrimIsIdentityIff(s: string)
    ensures Trim(s) == s <==>
              (s == [] || (!IsWhitespaceOrNewline(s[0]) && !IsWhitespaceOrNewline(s[|s| - 1])))
  {
    if s != [] {
      if IsWhitespaceOrNewline(s[0]) {
        assert |TrimStart(s)| < |s| by {
          assert TrimStart(s) == TrimStart(s[1..]);
        }
      } else if IsWhitespaceOrNewline(s[|s| - 1]) {
        assert TrimStart(s) == s;
        assert |TrimEnd(s)| < |s| by {
          assert TrimEnd(s) == TrimEnd(s[..|s| - 1]);
        }
      }
    }
  }

  // ---------------------------------------------------------------------------
  // Replacing, splitting and joining

  /** `replacingOccurrences(of: [from], with: [to])` for single characters. */
  function ReplaceChar(s: string, from: char, to: char): (r: string)
    ensures |r| == |s|
    ensures forall i :: 0 <= i < |s| ==> r[i] == if s[i] == from then to else s[i]
  {
    seq(|s|, i requires 0 <= i < |s| => if s[i] == from then to else s[i])
  }

  /** The length of the leading run of `s` that contains no `sep`. */
  function RunLength(s: string, sep: char): (n: nat)
    ensures n <= |s|
    ensures sep !in s[..n]
    ensures n < |s| ==> s[n] == sep
    decreases |s|
  {
    if s == [] || s[0] == sep then 0 else 1 + RunLength(s[1..], sep)
  }

  /** `split(separator: sep)` with empty pieces omitted (Swift's default). */
  function Split(s: string, sep: char): (r: seq<string>)
    ensures forall i :: 0 <= i < |r| ==> r[i] != [] && sep !in r[i]
    decreases |s|
  {
    if s == [] then []
    else if s[0] == sep then Split(s[1..], sep)
    else
      var n := RunLength(s, sep);
      [s[..n]] + Split(s[n..], sep)
  }

  /** `joined(separator: sep)`. */
  function Join(parts: seq<string>, sep: string): string
    decreases |parts|
  {
    if parts == [] then []
    else if |parts| == 1 then parts[0]
    else parts[0] + sep + Join(parts[1..], sep)
  }

  /** `components(separatedBy: seps)`: the pieces between separator
      characters, empty pieces kept, so there is always at least one. */
  function Components(s: string, seps: set<char>): (r: seq<string>)
    ensures r != []
    decreases |s|
  {
    if s == [] then [[]]
    else
      var rest := Components(s[1..], seps);
      if s[0] in seps then [[]] + rest
      else [[s[0]] + rest[0]] + rest[1..]
  }

  /** Every character of `seps` in `s` replaced by `fill`, the rest kept. */
  function Substitute(s: string, seps: set<char>, fill: char): (r: string)
    ensures |r| == |s|
    decreases |s|
  {
    if s == [] then []
    else [if s[0] in seps then fill else s[0]] + Substitute(s[1..], seps, fill)
  }

  lemma {:induction false} SubstituteAt(s: string, seps: set<char>, fill: char, i: nat)
    requires i < |s|
    ensures Substitute(s, seps, fill)[i] == if s[i] in seps then fill else s[i]
    decreases |s|
  {
    if i > 0 {
      SubstituteAt(s[1..], seps, fill, i - 1);
    }
  }

  /** Splitting at a set of separator characters and joining the pieces with
      one character is the same as substituting that character for each
      separator. */
  lemma {:induction false} JoinComponentsIsSubstitute(s: string, seps: set<char>, fill: char)
    ensures Join(Components(s, seps), [fill]) == Substitute(s, seps, fill)
    decreases |s|
  {
    if s != [] {
      var rest := Components(s[1..], seps);
      JoinComponentsIsSubstitute(s[1..], seps, fill);
      if s[0] in seps {
        assert ([[]] + rest)[1..] == rest;
      } else if |rest| == 1 {
      } else {
        var parts := [[s[0]] + rest[0]] + rest[1..];
        assert parts[1..] == rest[1..];
        assert Join(rest, [fill]) == rest[0] + [fill] + Join(rest[1..], [fill]);
        calc {
          Join(parts, [fill]);
          ([s[0]] + rest[0]) + [fill] + Join(rest[1..], [fill]);
          [s[0]] + (rest[0] + [fill] + Join(rest[1..], [fill]));
          [s[0]] + Substitute(s[1..], seps, fill);
        }
      }
    }
  }

  // ---------------------------------------------------------------------------
  // Case-insensitive ordering (`localizedCaseInsensitiveCompare`)

  /** Lexicographic order by code point, `a` at or before `b`. */
  predicate LexLeq(a: string, b: string)
    decreases |a|
  {
    a == [] || (b != [] && (a[0] < b[0] || (a[0] == b[0] && LexLeq(a[1..], b[1..]))))
  }

  lemma {:induction false} LexLeqTotal(a: string, b: string)
    ensures LexLeq(a, b) || LexLeq(b, a)
    decreases |a|
  {
    if a != [] && b != [] && a[0] == b[0] {
      LexLeqTotal(a[1..], b[1..]);
    }
  }

  lemma {:induction false} LexLeqTransitive(a: string, b: string, c: string)
    requires LexLeq(a, b) && LexLeq(b, c)
    ensures LexLeq(a, c)
    decreases |a|
  {
    if a != [] && a[0] == b[0] && b[0] == c[0] {
      LexLeqTransitive(a[1..], b[1..], c[1..]);
    }
  }

  /** `a` sorts at or before `b` when case is ignored, that is, comparing
      `b` with `a` does not give `orderedAscending`. */
  predicate CaseInsensitiveLeq(a: string, b: string) {
    LexLeq(Lower(a), Lower(b))
  }
}

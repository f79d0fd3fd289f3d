/**
 * The string operations the chat code relies on: JavaScript's white-space class (`\s` and
 * `String.prototype.trim`), ASCII lower-casing, `includes`, suffix tests and the last
 * `/`-separated segment of a path.
 */
module Text {

  /** The characters matched by JavaScript's `\s` and removed by `trim()`. */
  predicate IsWhitespace(c: char) {
    var n := c as int;
    (9 <= n <= 13) || n == 0x20 || n == 0xA0 || n == 0x1680 || (0x2000 <= n <= 0x200A)
    || n == 0x2028 || n == 0x2029 || n == 0x202F || n == 0x205F || n == 0x3000 || n == 0xFEFF
  }

  predicate AllWhitespace(s: string) {
    forall i :: 0 <= i < |s| ==> IsWhitespace(s[i])
  }

  predicate NoWhitespace(s: string) {
    forall i :: 0 <= i < |s| ==> !IsWhitespace(s[i])
  }

  /** Number of leading white-space characters. */
  function LeadingWhitespace(s: string): (k: nat)
    ensures k <= |s| && AllWhitespace(s[..k])
    ensures k < |s| ==> !IsWhitespace(s[k])
  {
    if |s| == 0 || !IsWhitespace(s[0]) then 0
    else
      var k := LeadingWhitespace(s[1..]);
      assert s[..k + 1] == [s[0]] + s[1..][..k];
      k + 1
  }

  /** Index where the trailing white space of `s` starts. */
  function TrailingWhitespaceStart(s: string): (k: nat)
    ensures k <= |s| && AllWhitespace(s[k..])
    ensures k > 0 ==> !IsWhitespace(s[k - 1])
  {
    if |s| == 0 || !IsWhitespace(s[|s| - 1]) then |s|
    else
      var k := TrailingWhitespaceStart(s[..|s| - 1]);
      assert s[k..] == s[..|s| - 1][k..] + [s[|s| - 1]];
      k
  }

  /** `String.prototype.trim`: `s` without its leading and trailing white space. */
  function Trim(s: string): (r: string)
    ensures exists i, j :: 0 <= i <= j <= |s| && r == s[i..j] && AllWhitespace(s[..i]) && AllWhitespace(s[j..])
    ensures r != [] ==> !IsWhitespace(r[0]) && !IsWhitespace(r[|r| - 1])
    ensures r == [] <==> AllWhitespace(s)
  {
    var i := LeadingWhitespace(s);
    var t := s[i..];
    var j := TrailingWhitespaceStart(t);
    assert t[..j] == s[i..i + j] && t[j..] == s[i + j..];
    assert t[..j] == [] ==> AllWhitespace(s) by {
      if t[..j] == [] {
        assert j == 0 && i == |s|;
        forall k | 0 <= k < |s| ensures IsWhitespace(s[k]) {
          assert s[..i][k] == s[k];
        }
      }
    }
    t[..j]
  }

  /** `s.trim() === ""`, the test for a blank input. */
  predicate IsBlank(s: string) {
    Trim(s) == []
  }

  function LowerChar(c: char): char {
    if 'A' <= c <= 'Z' then (c as int + 32) as char else c
  }

  /** `toLowerCase()` on the ASCII letters; other characters are kept. */
  function Lower(s: string): (r: string)
    ensures |r| == |s|
    ensures forall i :: 0 <= i < |s| ==> r[i] == LowerChar(s[i])
  {
    seq(|s|, i requires 0 <= i < |s| => LowerChar(s[i]))
  }

  /** `needle` occurs in `hay` starting at position `i`. */
  ghost predicate OccursAt(hay: string, needle: string, i: int) {
    0 <= i && i + |needle| <= |hay| && hay[i..i + |needle|] == needle
  }

  /** `String.prototype.includes`: some occurrence of `needle` exists (the empty string occurs everywhere). */
  function Contains(hay: string, needle: string): (b: bool)
    ensures b <==> exists i :: OccursAt(hay, needle, i)
    decreases |hay|
  {
    if |needle| > |hay| then
      false
    else if hay[..|needle|] == needle then
      assert OccursAt(hay, needle, 0);
      true
    else
      var tail := hay[1..];
      assert forall i :: OccursAt(hay, needle, i) <==> i > 0 && OccursAt(tail, needle, i - 1) by {
        forall i ensures OccursAt(hay, needle, i) <==> i > 0 && OccursAt(tail, needle, i - 1) {
          if i > 0 && i + |needle| <= |hay| {
            assert tail[i - 1..i - 1 + |needle|] == hay[i..i + |needle|];
          }
        }
      }
      var b := Contains(tail, needle);
      assert b ==> exists i :: OccursAt(hay, needle, i) by {
        if b {
          var j :| OccursAt(tail, needle, j);
          assert OccursAt(hay, needle, j + 1);
        }
      }
      b
  }

  predicate HasSuffix(s: string, suffix: string) {
    |suffix| <= |s| && s[|s| - |suffix|..] == suffix
  }

  /** `s.split("/").pop()`: the text after the last `/`, or all of `s` when it has none. */
  function LastSegment(s: string): (r: string)
    ensures HasSuffix(s, r) && '/' !in r
    ensures |r| < |s| ==> s[|s| - |r| - 1] == '/'
  {
    if |s| == 0 then []
    else if s[|s| - 1] == '/' then []
    else
      var p := s[..|s| - 1];
      var r := LastSegment(p);
      assert s == p + [s[|s| - 1]];
      assert s[|s| - |r| - 1..] == p[|p| - |r|..] + [s[|s| - 1]];
      assert |r| < |p| ==> s[|s| - |r| - 2] == p[|p| - |r| - 1];
      r + [s[|s| - 1]]
  }

  /** The last segment of a path is what follows its final `/`. */
  lemma {:induction false} LastSegmentAfterSlash(dir: string, name: string)
    requires '/' !in name
    ensures LastSegment(dir + "/" + name) == name
    decreases |name|
  {
    var p := dir + "/" + name;
    if name == [] {
      assert p[|p| - 1] == '/';
    } else {
      assert p[..|p| - 1] == dir + "/" + name[..|name| - 1];
      assert name[|name| - 1] in name;
      LastSegmentAfterSlash(dir, name[..|name| - 1]);
      assert name == name[..|name| - 1] + [name[|name| - 1]];
    }
  }
}

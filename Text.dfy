/**
 * The string operations the scripts borrow from JavaScript: startsWith, trim,
 * toLowerCase and includes, and the character classes \s and \d of regular
 * expressions. All of them are modelled over ASCII.
 */
module Text {

  /** ASCII whitespace: space, tab, line feed, vertical tab, form feed, carriage return. */
  predicate IsSpace(c: char) {
    c == ' ' || c == '\t' || c == '\n' || c == '\U{000B}' || c == '\U{000C}' || c == '\r'
  }

  predicate IsDigit(c: char) {
    '0' <= c <= '9'
  }

  predicate StartsWith(s: string, prefix: string) {
    prefix <= s
  }

  /** A string that `trim()` turns into the empty string. */
  predicate IsBlank(s: string) {
    forall i :: 0 <= i < |s| ==> IsSpace(s[i])
  }

  /** The number of whitespace characters at the start of `s`. */
  function LeadingSpaces(s: string): (n: nat)
    ensures n <= |s|
    ensures forall i :: 0 <= i < n ==> IsSpace(s[i])
    ensures n < |s| ==> !IsSpace(s[n])
  {
    if s != [] && IsSpace(s[0]) then 1 + LeadingSpaces(s[1..]) else 0
  }

  /** The number of whitespace characters at the end of `s`. */
  function TrailingSpaces(s: string): (n: nat)
    ensures n <= |s|
    ensures forall i :: |s| - n <= i < |s| ==> IsSpace(s[i])
    ensures n < |s| ==> !IsSpace(s[|s| - 1 - n])
  {
    if s != [] && IsSpace(s[|s| - 1]) then 1 + TrailingSpaces(s[..|s| - 1]) else 0
  }

  /**
   * JavaScript's `trim()`: leading and trailing whitespace removed. The result
   * is the slice of `s` after its leading whitespace, with only whitespace
   * after it, and it neither starts nor ends with whitespace; `TrimOfPadded`
   * shows these facts determine it.
   */
  function Trim(s: string): (r: string)
    ensures var a := LeadingSpaces(s);
            a + |r| <= |s| && r == s[a..a + |r|] && forall i :: a + |r| <= i < |s| ==> IsSpace(s[i])
    ensures r == [] || (!IsSpace(r[0]) && !IsSpace(r[|r| - 1]))
    ensures r == [] <==> IsBlank(s)
  {
    var a := LeadingSpaces(s);
    if a == |s| then []
    else
      var e := |s| - TrailingSpaces(s);
      assert a < e;
      s[a..e]
  }

  /** Whitespace before a text that does not start with whitespace is exactly what is counted as leading. */
  lemma LeadingSpacesOfPadded(pre: string, rest: string)
    requires IsBlank(pre)
    requires rest != [] && !IsSpace(rest[0])
    ensures LeadingSpaces(pre + rest) == |pre|
  {
    var s := pre + rest;
    assert forall i :: 0 <= i < |pre| ==> s[i] == pre[i];
    assert s[|pre|] == rest[0];
  }

  /** Whitespace after a text that does not end with whitespace is exactly what is counted as trailing. */
  lemma TrailingSpacesOfPadded(rest: string, post: string)
    requires IsBlank(post)
    requires rest != [] && !IsSpace(rest[|rest| - 1])
    ensures TrailingSpaces(rest + post) == |post|
  {
    var s := rest + post;
    assert forall i :: |rest| <= i < |s| ==> s[i] == post[i - |rest|];
    assert s[|rest| - 1] == rest[|rest| - 1];
  }

  /**
   * `trim()` returns exactly the text between surrounding whitespace, provided
   * that text does not itself start or end with whitespace.
   */
  lemma TrimOfPadded(pre: string, core: string, post: string)
    requires IsBlank(pre) && IsBlank(post)
    requires core == [] || (!IsSpace(core[0]) && !IsSpace(core[|core| - 1]))
    ensures Trim(pre + core + post) == core
  {
    var s := pre + core + post;
    if core == [] {
      assert IsBlank(s) by {
        forall i | 0 <= i < |s|
          ensures IsSpace(s[i])
        {
          if i < |pre| {
            assert s[i] == pre[i];
          } else {
            assert s[i] == post[i - |pre|];
          }
        }
      }
    } else {
      assert s == pre + (core + post);
      LeadingSpacesOfPadded(pre, core + post);
      assert s == (pre + core) + post;
      TrailingSpacesOfPadded(pre + core, post);
      assert s[|pre|..|s| - |post|] == core;
    }
  }

  function LowerChar(c: char): (d: char)
  {
    if 'A' <= c <= 'Z' then (c as int + 32) as char else c
  }

  /** JavaScript's `toLowerCase()`, restricted to ASCII letters. */
  function Lower(s: string): (r: string)
    ensures |r| == |s|
    ensures forall i :: 0 <= i < |s| ==> r[i] == LowerChar(s[i])
  {
    if s == [] then [] else [LowerChar(s[0])] + Lower(s[1..])
  }

  /** `sub` occurs in `text` starting at position `i`. */
  predicate OccursAt(text: string, sub: string, i: nat) {
    i + |sub| <= |text| && text[i..i + |sub|] == sub
  }

  /** JavaScript's `text.includes(sub)`, by scanning the start positions left to right. */
  function Contains(text: string, sub: string): bool
    decreases |text|
  {
    if |text| < |sub| then false
    else StartsWith(text, sub) || (|text| > 0 && Contains(text[1..], sub))
  }

  /** `Contains` holds exactly when `sub` occurs at some position of `text`. */
  lemma {:induction false} ContainsIffOccurs(text: string, sub: string)
    ensures Contains(text, sub) <==> exists i: nat :: i <= |text| && OccursAt(text, sub, i)
    decreases |text|
  {
    if |text| < |sub| {
      assert forall i: nat :: i <= |text| ==> !OccursAt(text, sub, i);
    } else if StartsWith(text, sub) {
      assert OccursAt(text, sub, 0);
    } else {
      ContainsIffOccurs(text[1..], sub);
      if Contains(text[1..], sub) {
        var i: nat :| i <= |text[1..]| && OccursAt(text[1..], sub, i);
        OccursShift(text, sub, i);
      } else {
        assert !OccursAt(text, sub, 0) by {
          assert text[0..|sub|] == text[..|sub|];
        }
        forall i: nat | 0 < i <= |text|
          ensures !OccursAt(text, sub, i)
        {
          OccursShift(text, sub, i - 1);
        }
      }
    }
  }

  /** Dropping the first character moves every occurrence one position to the left. */
  lemma OccursShift(text: string, sub: string, i: nat)
    requires |text| > 0
    ensures OccursAt(text[1..], sub, i) <==> OccursAt(text, sub, i + 1)
  {
    if i + |sub| <= |text[1..]| {
      assert text[1..][i..i + |sub|] == text[i + 1..i + 1 + |sub|];
    }
  }

  /** A text that lacks one of the characters of `sub` does not contain `sub`. */
  lemma MissingCharacterRulesOutContains(text: string, sub: string, c: char)
    requires c in sub && c !in text
    ensures !Contains(text, sub)
  {
    ContainsIffOccurs(text, sub);
    var j :| 0 <= j < |sub| && sub[j] == c;
    forall i: nat | i <= |text|
      ensures !OccursAt(text, sub, i)
    {
      if i + |sub| <= |text| {
      assert text[i..i + |sub|][j] == text[i + j];
        assert text[i + j] in text;
      }
    }
  }
}

/**
 * Python's `str.lower` and `str.title`, restricted to ASCII.
 * `title` upper-cases a letter that does not follow a letter and lower-cases
 * a letter that does; every other character is kept.
 */
module Ascii {

  predicate IsUpper(c: char) { 'A' <= c <= 'Z' }
  predicate IsLower(c: char) { 'a' <= c <= 'z' }
  predicate IsLetter(c: char) { IsUpper(c) || IsLower(c) }

  /** No upper-case letter anywhere in `s`. */
  predicate NoUpper(s: string) { forall i :: 0 <= i < |s| ==> !IsUpper(s[i]) }

  function LowerChar(c: char): (d: char)
    ensures !IsUpper(d)
    ensures IsLetter(d) == IsLetter(c)
    ensures IsLower(c) || !IsLetter(c) ==> d == c
    ensures IsUpper(c) ==> IsLower(d) && d as int == c as int + 32
  {
    if IsUpper(c) then (c as int + 32) as char else c
  }

  function UpperChar(c: char): (d: char)
    ensures !IsLower(d)
    ensures IsLetter(d) == IsLetter(c)
    ensures IsUpper(c) || !IsLetter(c) ==> d == c
    ensures IsLower(c) ==> IsUpper(d) && d as int == c as int - 32
  {
    if IsLower(c) then (c as int - 32) as char else c
  }

  /** `s.lower()` */
  function Lower(s: string): (r: string)
    ensures |r| == |s|
    ensures forall i :: 0 <= i < |s| ==> r[i] == LowerChar(s[i])
    ensures NoUpper(r)
  {
    if s == [] then [] else [LowerChar(s[0])] + Lower(s[1..])
  }

  /** Title-casing of `s` when the character before it was (or was not) a letter. */
  function TitleFrom(s: string, afterLetter: bool): (r: string)
    ensures |r| == |s|
  {
    if s == [] then []
    else
      var c := if !IsLetter(s[0]) then s[0]
               else if afterLetter then LowerChar(s[0])
               else UpperChar(s[0]);
      [c] + TitleFrom(s[1..], IsLetter(s[0]))
  }

  /**
   * `s.title()`: each character is decided by itself and the one before it.
   * A letter after a letter is lower-cased, any other letter upper-cased, and
   * every other character is kept.
   */
  function Title(s: string): (r: string)
    ensures |r| == |s|
    ensures forall i :: 0 <= i < |s| && !IsLetter(s[i]) ==> r[i] == s[i]
    ensures forall i :: 0 < i < |s| && IsLetter(s[i]) && IsLetter(s[i - 1]) ==> r[i] == LowerChar(s[i])
    ensures forall i :: 0 <= i < |s| && IsLetter(s[i]) && (i == 0 || !IsLetter(s[i - 1])) ==> r[i] == UpperChar(s[i])
  {
    var r := TitleFrom(s, false);
    assert forall i :: 0 <= i < |s| ==>
      && (!IsLetter(s[i]) ==> r[i] == s[i])
      && (i > 0 && IsLetter(s[i]) && IsLetter(s[i - 1]) ==> r[i] == LowerChar(s[i]))
      && (IsLetter(s[i]) && (i == 0 || !IsLetter(s[i - 1])) ==> r[i] == UpperChar(s[i]))
    by {
      forall i | 0 <= i < |s|
        ensures !IsLetter(s[i]) ==> r[i] == s[i]
        ensures i > 0 && IsLetter(s[i]) && IsLetter(s[i - 1]) ==> r[i] == LowerChar(s[i])
        ensures IsLetter(s[i]) && (i == 0 || !IsLetter(s[i - 1])) ==> r[i] == UpperChar(s[i])
      {
        TitleFromAt(s, false, i);
      }
    }
    r
  }

  /** A string holding an upper-case letter is never the lower-case form of anything. */
  lemma LowerNeverHasUpper(s: string, t: string)
    requires exists i :: 0 <= i < |t| && IsUpper(t[i])
    ensures Lower(s) != t
  {
  }

  /**
   * Each character of `s.title()` is decided by its own character and the one
   * before it: a letter after a letter is lower-cased, any other letter upper-cased.
   */
  lemma {:induction false} TitleFromAt(s: string, afterLetter: bool, i: nat)
    requires i < |s|
    ensures TitleFrom(s, afterLetter)[i] ==
      var prevLetter := if i == 0 then afterLetter else IsLetter(s[i - 1]);
      if !IsLetter(s[i]) then s[i]
      else if prevLetter then LowerChar(s[i])
      else UpperChar(s[i])
  {
    if i > 0 {
      TitleFromAt(s[1..], IsLetter(s[0]), i - 1);
    }
  }

  /** Title-casing changes letter case only: both sides lower-case to the same string. */
  lemma {:induction false} TitleFromKeepsLetters(s: string, afterLetter: bool)
    ensures Lower(TitleFrom(s, afterLetter)) == Lower(s)
  {
    if s != [] {
      TitleFromKeepsLetters(s[1..], IsLetter(s[0]));
    }
  }

  lemma TitleKeepsLetters(s: string)
    ensures |Title(s)| == |s|
    ensures Lower(Title(s)) == Lower(s)
  {
    TitleFromKeepsLetters(s, false);
  }

  /** Title-casing ignores the case of its input. */
  lemma {:induction false} TitleFromIgnoresCase(s: string, afterLetter: bool)
    ensures TitleFrom(Lower(s), afterLetter) == TitleFrom(s, afterLetter)
  {
    if s != [] {
      assert Lower(s)[1..] == Lower(s[1..]);
      TitleFromIgnoresCase(s[1..], IsLetter(s[0]));
    }
  }

  lemma TitleIgnoresCase(a: string, b: string)
    requires Lower(a) == Lower(b)
    ensures Title(a) == Title(b)
  {
    TitleFromIgnoresCase(a, false);
    TitleFromIgnoresCase(b, false);
  }

  /** A word of lower-case letters lower-cases to itself and title-cases to its first letter raised. */
  lemma LowerWord(s: string)
    requires s != [] && forall i :: 0 <= i < |s| ==> IsLower(s[i])
    ensures Lower(s) == s
    ensures Title(s) == [UpperChar(s[0])] + s[1..]
  {
    var r, t := Title(s), [UpperChar(s[0])] + s[1..];
    forall i | 0 <= i < |s|
      ensures r[i] == t[i]
    {
      assert IsLetter(s[i]);
      if i > 0 {
        assert IsLetter(s[i - 1]) && t[i] == s[i] == LowerChar(s[i]);
      }
    }
    assert r == t;
    assert forall i :: 0 <= i < |s| ==> Lower(s)[i] == s[i];
  }
}

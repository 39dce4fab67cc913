/** String normalisation used to turn free-text destinations into table keys:
    Python's `str.lower`, `str.replace(" ", "")`, `str.strip` and `str.title`,
    over strings as sequences of Unicode scalar values. */
module Text {

  /** Python's `str.isspace` for one code point: the characters that
      `str.strip()` with no argument removes. */
  predicate IsSpace(c: char) {
    ('\t' <= c <= '\r') || ('\U{1C}' <= c <= ' ') || c == '\U{85}' || c == '\U{A0}'
    || c == '\U{1680}' || ('\U{2000}' <= c <= '\U{200A}') || c == '\U{2028}' || c == '\U{2029}'
    || c == '\U{202F}' || c == '\U{205F}' || c == '\U{3000}'
  }

  predicate IsAsciiUpper(c: char) { 'A' <= c <= 'Z' }

  predicate IsAsciiLower(c: char) { 'a' <= c <= 'z' }

  /** KELVIN SIGN, the one non-ASCII character whose lower case is ASCII ('k'). */
  const Kelvin: char := '\U{212A}'

  /** A character that has case, in the sense of Python's title-casing loop. */
  predicate IsCased(c: char) { IsAsciiUpper(c) || IsAsciiLower(c) || c == Kelvin }

  /** The lower case of one character: 'A'..'Z' move down by 32 to 'a'..'z', KELVIN SIGN
      becomes 'k', and every other character is its own lower case. */
  function LowerChar(c: char): (d: char)
    ensures !IsAsciiUpper(d)
    ensures IsCased(d) == IsCased(c)
    ensures IsAsciiUpper(c) ==> IsAsciiLower(d) && d as int == c as int + 32
    ensures c == Kelvin ==> d == 'k'
    ensures !IsAsciiUpper(c) && c != Kelvin ==> d == c
  {
    if IsAsciiUpper(c) then (c as int + 32) as char
    else if c == Kelvin then 'k'
    else c
  }

  /** The upper case of one character: 'a'..'z' move up by 32 to 'A'..'Z', every other
      character (KELVIN SIGN included) is its own upper case. */
  function UpperChar(c: char): (d: char)
    ensures !IsAsciiLower(d)
    ensures LowerChar(d) == LowerChar(c)
    ensures IsAsciiLower(c) ==> IsAsciiUpper(d) && d as int == c as int - 32
    ensures !IsAsciiLower(c) ==> d == c
  {
    if IsAsciiLower(c) then (c as int - 32) as char else c
  }

  /** `s.lower()`. */
  function Lower(s: string): (r: string)
    ensures |r| == |s|
    ensures forall i :: 0 <= i < |r| ==> !IsAsciiUpper(r[i])
    ensures forall i :: 0 <= i < |s| && IsAsciiUpper(s[i]) ==> r[i] as int == s[i] as int + 32
    ensures forall i :: 0 <= i < |s| && s[i] == Kelvin ==> r[i] == 'k'
    ensures forall i :: 0 <= i < |s| && !IsAsciiUpper(s[i]) && s[i] != Kelvin ==> r[i] == s[i]
  {
    seq(|s|, i requires 0 <= i < |s| => LowerChar(s[i]))
  }

  /** Lower-casing works character by character, so it distributes over concatenation. */
  lemma LowerAppend(a: string, b: string)
    ensures Lower(a + b) == Lower(a) + Lower(b)
  {
  }

  /** Lower-casing never creates or removes whitespace. */
  lemma LowerKeepsSpaces(s: string)
    ensures forall i :: 0 <= i < |s| ==> (IsSpace(Lower(s)[i]) <==> IsSpace(s[i]))
  {
  }

  /** "New York" lower-cased keeps its inner space. */
  lemma NewYorkLowered()
    ensures Lower("New York") == "new york"
  {
  }

  /** `s.replace(" ", "")`. */
  function RemoveSpaces(s: string): (r: string)
    ensures ' ' !in r
    ensures |r| <= |s|
  {
    if s == [] then []
    else if s[0] == ' ' then RemoveSpaces(s[1..])
    else [s[0]] + RemoveSpaces(s[1..])
  }

  /** Only U+0020 is dropped: every other character keeps its number of occurrences,
      and nothing new appears. */
  lemma {:induction false} RemoveSpacesKeepsOthers(s: string)
    ensures forall c :: c != ' ' ==> multiset(RemoveSpaces(s))[c] == multiset(s)[c]
    ensures forall c :: c in RemoveSpaces(s) ==> c in s
    ensures |RemoveSpaces(s)| == |s| - multiset(s)[' ']
  {
    if s != [] {
      RemoveSpacesKeepsOthers(s[1..]);
      assert s == [s[0]] + s[1..];
    }
  }

  /** Removing spaces distributes over concatenation: the kept characters stay in order. */
  lemma {:induction false} RemoveSpacesAppend(a: string, b: string)
    ensures RemoveSpaces(a + b) == RemoveSpaces(a) + RemoveSpaces(b)
  {
    if a == [] {
      assert a + b == b;
    } else {
      assert (a + b)[0] == a[0];
      assert (a + b)[1..] == a[1..] + b;
      RemoveSpacesAppend(a[1..], b);
    }
  }

  /** On one character: a space disappears, anything else is kept. */
  lemma RemoveSpacesChar(c: char)
    ensures RemoveSpaces([c]) == if c == ' ' then [] else [c]
  {
  }

  lemma {:induction false} RemoveSpacesNoop(s: string)
    requires ' ' !in s
    ensures RemoveSpaces(s) == s
  {
    if s != [] {
      RemoveSpacesNoop(s[1..]);
    }
  }

  /** Number of whitespace characters at the start of `s`. */
  function LeadingSpaces(s: string): (n: nat)
    ensures n <= |s|
    ensures forall k :: 0 <= k < n ==> IsSpace(s[k])
    ensures n == |s| || !IsSpace(s[n])
  {
    if s == [] || !IsSpace(s[0]) then 0 else 1 + LeadingSpaces(s[1..])
  }

  /** Number of whitespace characters at the end of `s`. */
  function TrailingSpaces(s: string): (n: nat)
    ensures n <= |s|
    ensures forall k :: |s| - n <= k < |s| ==> IsSpace(s[k])
    ensures n == |s| || !IsSpace(s[|s| - n - 1])
  {
    if s == [] || !IsSpace(s[|s| - 1]) then 0 else 1 + TrailingSpaces(s[..|s| - 1])
  }

  /** `s.strip()`: the longest slice of `s` that neither starts nor ends with whitespace,
      obtained by removing whitespace from both ends only. */
  function Strip(s: string): (r: string)
    ensures LeadingSpaces(s) + |r| <= |s|
    ensures r == [] || (!IsSpace(r[0]) && !IsSpace(r[|r| - 1]))
    ensures r == s[LeadingSpaces(s)..LeadingSpaces(s) + |r|]
    ensures forall k :: 0 <= k < LeadingSpaces(s) ==> IsSpace(s[k])
    ensures forall k :: LeadingSpaces(s) + |r| <= k < |s| ==> IsSpace(s[k])
  {
    var i := LeadingSpaces(s);
    var t := s[i..];
    t[..|t| - TrailingSpaces(t)]
  }

  /** `s.title()`, with `prevCased` telling whether the character before `s` had case:
      a cased character is upper-cased when it starts a word and lower-cased otherwise;
      every other character is kept. */
  function TitleFrom(s: string, prevCased: bool): (r: string)
    ensures |r| == |s|
    ensures forall i :: 0 <= i < |r| ==> LowerChar(r[i]) == LowerChar(s[i])
    ensures forall i :: 0 <= i < |r| && !IsCased(s[i]) ==> r[i] == s[i]
    ensures forall i :: 0 <= i < |r| && (if i == 0 then !prevCased else !IsCased(s[i - 1]))
              ==> r[i] == UpperChar(s[i])
    ensures forall i :: 0 <= i < |r| && (if i == 0 then prevCased else IsCased(s[i - 1]))
              ==> r[i] == LowerChar(s[i])
  {
    if s == [] then []
    else
      var c := if prevCased then LowerChar(s[0]) else UpperChar(s[0]);
      [c] + TitleFrom(s[1..], IsCased(s[0]))
  }

  function Title(s: string): (r: string)
    ensures |r| == |s|
    ensures Lower(r) == Lower(s)
    ensures forall i :: 0 <= i < |r| && (i == 0 || !IsCased(s[i - 1])) ==> r[i] == UpperChar(s[i])
    ensures forall i :: 0 < i < |r| && IsCased(s[i - 1]) ==> r[i] == LowerChar(s[i])
  {
    TitleFrom(s, false)
  }
}

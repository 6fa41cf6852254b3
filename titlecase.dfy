/** Python's `str.title()` restricted to ASCII: a letter that follows a
    letter is lower-cased, every other letter is upper-cased, and all other
    characters are copied. Any non-letter (space, digit, apostrophe) starts
    a new word, as in Python (`"3rd".title() == "3Rd"`).
 */
module TitleCase {

  predicate IsUpper(c: char) { 'A' <= c <= 'Z' }
  predicate IsLower(c: char) { 'a' <= c <= 'z' }
  predicate IsCased(c: char) { IsUpper(c) || IsLower(c) }

  function Upper(c: char): char
  {
    if IsLower(c) then (c as int - 32) as char else c
  }

  function Lower(c: char): char
  {
    if IsUpper(c) then (c as int + 32) as char else c
  }

  /** Title-cases `s`, where `afterCased` says whether the character just
      before `s` was a letter. */
  function TitleFrom(s: string, afterCased: bool): string
  {
    if s == [] then []
    else [if afterCased then Lower(s[0]) else Upper(s[0])] + TitleFrom(s[1..], IsCased(s[0]))
  }

  /** `s.title()`. */
  function Title(s: string): (r: string)
    ensures |r| == |s|
  {
    TitleFromLength(s, false);
    TitleFrom(s, false)
  }

  /** The character at position `i` of `TitleFrom(s, b)` depends only on
      `s[i]` and on whether the character before it is a letter. */
  lemma {:induction false} TitleFromAt(s: string, b: bool, i: nat)
    requires i < |s|
    ensures |TitleFrom(s, b)| == |s|
    ensures TitleFrom(s, b)[i] ==
      (if (if i == 0 then b else IsCased(s[i - 1])) then Lower(s[i]) else Upper(s[i]))
  {
    if i == 0 {
      TitleFromLength(s, b);
    } else {
      TitleFromAt(s[1..], IsCased(s[0]), i - 1);
      assert s[1..][i - 1] == s[i];
      if i > 1 {
        assert s[1..][i - 2] == s[i - 1];
      }
    }
  }

  lemma {:induction false} TitleFromLength(s: string, b: bool)
    ensures |TitleFrom(s, b)| == |s|
  {
    if s != [] {
      TitleFromLength(s[1..], IsCased(s[0]));
    }
  }

  /** Pointwise meaning of `Title`: the result has the input's length; a
      character is lower-cased exactly when the one before it is a letter,
      and upper-cased otherwise (non-letters are unchanged by both). */
  lemma TitleAt(s: string, i: nat)
    requires i < |s|
    ensures |Title(s)| == |s|
    ensures Title(s)[i] == if i > 0 && IsCased(s[i - 1]) then Lower(s[i]) else Upper(s[i])
  {
    TitleFromAt(s, false, i);
  }

  /** Title-casing changes letters only, never whether a character is one. */
  lemma CaseMapsKeepCased(c: char)
    ensures IsCased(Upper(c)) == IsCased(c) && IsCased(Lower(c)) == IsCased(c)
    ensures IsUpper(Upper(c)) == IsCased(c) && IsLower(Lower(c)) == IsCased(c)
    ensures Lower(Upper(c)) == Lower(c) && Upper(Lower(c)) == Upper(c)
    ensures Lower(Lower(c)) == Lower(c) && Upper(Upper(c)) == Upper(c)
  {
  }

  lemma {:induction false} TitleFromIdempotent(s: string, b: bool)
    ensures TitleFrom(TitleFrom(s, b), b) == TitleFrom(s, b)
  {
    if s != [] {
      var c := if b then Lower(s[0]) else Upper(s[0]);
      CaseMapsKeepCased(s[0]);
      assert IsCased(c) == IsCased(s[0]);
      TitleFromIdempotent(s[1..], IsCased(s[0]));
      var t := TitleFrom(s, b);
      assert t == [c] + TitleFrom(s[1..], IsCased(s[0]));
      assert t[0] == c && t[1..] == TitleFrom(s[1..], IsCased(s[0]));
    }
  }

  /** Title-casing an already title-cased string changes nothing. */
  lemma TitleIdempotent(s: string)
    ensures Title(Title(s)) == Title(s)
  {
    TitleFromIdempotent(s, false);
  }

  /** One step of `TitleFrom` on a string given by its first character. */
  lemma TitleFromCons(c: char, s: string, b: bool)
    ensures TitleFrom([c] + s, b) == [if b then Lower(c) else Upper(c)] + TitleFrom(s, IsCased(c))
  {
    assert ([c] + s)[1..] == s;
  }

  /** The search-result scenario: "light rain" is shown as "Light Rain". */
  lemma TitleLightRain()
    ensures Title("light rain") == "Light Rain"
  {
    TitleFromCons('n', "", true);
    TitleFromCons('i', "n", true);
    TitleFromCons('a', "in", true);
    TitleFromCons('r', "ain", false);
    TitleFromCons(' ', "rain", true);
    TitleFromCons('t', " rain", true);
    TitleFromCons('h', "t rain", true);
    TitleFromCons('g', "ht rain", true);
    TitleFromCons('i', "ght rain", true);
    TitleFromCons('l', "ight rain", false);
  }
}

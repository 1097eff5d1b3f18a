/** Case mapping of method names, as `strings.ToLower` / `strings.ToUpper`
    act on ASCII letters. */
module Text {

  predicate IsUpperAscii(c: char) {
    'A' <= c <= 'Z'
  }

  predicate IsLowerAscii(c: char) {
    'a' <= c <= 'z'
  }

  function LowerChar(c: char): (r: char)
    ensures IsUpperAscii(c) ==> IsLowerAscii(r)
    ensures !IsUpperAscii(c) ==> r == c
  {
    if IsUpperAscii(c) then (c as int + 32) as char else c
  }

  function UpperChar(c: char): (r: char)
    ensures IsLowerAscii(c) ==> IsUpperAscii(r)
    ensures !IsLowerAscii(c) ==> r == c
  {
    if IsLowerAscii(c) then (c as int - 32) as char else c
  }

  /** `strings.ToLower`: every character mapped on its own, length kept. */
  function Lower(s: string): (r: string)
    ensures |r| == |s|
    ensures forall i :: 0 <= i < |s| ==> r[i] == LowerChar(s[i])
  {
    if s == [] then [] else [LowerChar(s[0])] + Lower(s[1..])
  }

  /** `strings.ToUpper`: every character mapped on its own, length kept. */
  function Upper(s: string): (r: string)
    ensures |r| == |s|
    ensures forall i :: 0 <= i < |s| ==> r[i] == UpperChar(s[i])
  {
    if s == [] then [] else [UpperChar(s[0])] + Upper(s[1..])
  }

  /** Lower-casing first does not change the upper-cased form. */
  lemma UpperOfLower(s: string)
    ensures Upper(Lower(s)) == Upper(s)
  {
    forall i | 0 <= i < |s|
      ensures Upper(Lower(s))[i] == Upper(s)[i]
    {
      var c := s[i];
      if IsUpperAscii(c) {
        assert LowerChar(c) as int == c as int + 32;
      }
    }
  }

  /** Upper-casing first does not change the lower-cased form. */
  lemma LowerOfUpper(s: string)
    ensures Lower(Upper(s)) == Lower(s)
  {
    forall i | 0 <= i < |s|
      ensures Lower(Upper(s))[i] == Lower(s)[i]
    {
      var c := s[i];
      if IsLowerAscii(c) {
        assert UpperChar(c) as int == c as int - 32;
      }
    }
  }

  /** Two strings with the same lower-case form have the same upper-case form. */
  lemma SameLowerSameUpper(a: string, b: string)
    requires Lower(a) == Lower(b)
    ensures Upper(a) == Upper(b)
  {
    UpperOfLower(a);
    UpperOfLower(b);
  }

  /** Lower-casing keeps a character out of a string when that character is
      not an upper-case letter's image. */
  lemma LowerKeepsAbsent(s: string, c: char)
    requires !IsLowerAscii(c) && !IsUpperAscii(c)
    requires c !in s
    ensures c !in Lower(s)
  {
    forall i | 0 <= i < |s|
      ensures Lower(s)[i] != c
    {
      assert s[i] != c;
    }
  }
}

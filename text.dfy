/** Case mapping of strings, restricted to ASCII letters: the addresses the
    server compares are Bluetooth MAC addresses, written in hexadecimal
    digits and colons. */
module Text {

  /** `str.upper()` on one ASCII character. */
  function UpperChar(c: char): char {
    if 'a' <= c <= 'z' then (c as int - 'a' as int + 'A' as int) as char else c
  }

  /** `str.lower()` on one ASCII character. */
  function LowerChar(c: char): char {
    if 'A' <= c <= 'Z' then (c as int - 'A' as int + 'a' as int) as char else c
  }

  function Upper(s: string): (u: string)
    ensures |u| == |s|
  {
    seq(|s|, i requires 0 <= i < |s| => UpperChar(s[i]))
  }

  function Lower(s: string): (l: string)
    ensures |l| == |s|
  {
    seq(|s|, i requires 0 <= i < |s| => LowerChar(s[i]))
  }

  /** Upper-casing and lower-casing identify exactly the same pairs of
      characters. */
  lemma CharFoldsAgree(a: char, b: char)
    ensures UpperChar(a) == UpperChar(b) <==> LowerChar(a) == LowerChar(b)
  {
  }

  /** Under the ASCII mapping, comparing upper-cased strings and comparing
      lower-cased strings accept the same pairs. (Python's full Unicode
      mapping does not have this property, which is one reason the model
      keeps the source's two comparisons apart.) */
  lemma FoldsAgree(a: string, b: string)
    ensures Upper(a) == Upper(b) <==> Lower(a) == Lower(b)
  {
    if Upper(a) == Upper(b) {
      forall i | 0 <= i < |a| ensures Lower(a)[i] == Lower(b)[i] {
        assert Upper(a)[i] == Upper(b)[i];
        CharFoldsAgree(a[i], b[i]);
      }
    }
    if Lower(a) == Lower(b) {
      forall i | 0 <= i < |a| ensures Upper(a)[i] == Upper(b)[i] {
        assert Lower(a)[i] == Lower(b)[i];
        CharFoldsAgree(a[i], b[i]);
      }
    }
  }
}

// The Cyrillic-to-Latin table that both style chunkers use to turn file
// names into ASCII vector identifiers.

module Transliteration {
  import opened Text

  type LatinText = s: string | forall i :: 0 <= i < |s| ==> IsAsciiLetter(s[i]) witness ""

  /** Spellings of `а`..`я`, in code-point order. */
  const LowerLatin: seq<LatinText> := LowerLatin0 + LowerLatin1 + LowerLatin2 + LowerLatin3

  const LowerLatin0: seq<LatinText> := ["a", "b", "v", "g", "d", "e", "zh", "z"]
  const LowerLatin1: seq<LatinText> := ["i", "y", "k", "l", "m", "n", "o", "p"]
  const LowerLatin2: seq<LatinText> := ["r", "s", "t", "u", "f", "kh", "ts", "ch"]
  const LowerLatin3: seq<LatinText> := ["sh", "shch", "", "y", "", "e", "yu", "ya"]

  /** Spellings of `А`..`Я`, in code-point order. */
  const UpperLatin: seq<LatinText> := UpperLatin0 + UpperLatin1 + UpperLatin2 + UpperLatin3

  const UpperLatin0: seq<LatinText> := ["A", "B", "V", "G", "D", "E", "Zh", "Z"]
  const UpperLatin1: seq<LatinText> := ["I", "Y", "K", "L", "M", "N", "O", "P"]
  const UpperLatin2: seq<LatinText> := ["R", "S", "T", "U", "F", "Kh", "Ts", "Ch"]
  const UpperLatin3: seq<LatinText> := ["Sh", "Shch", "", "Y", "", "E", "Yu", "Ya"]

  /**
   * The dictionary lookup: the 66 letters of the Russian alphabet have a
   * Latin spelling made of ASCII letters (empty for the hard and soft
   * signs), every other character has none.
   */
  function Latin(c: char): (r: Option<string>)
    ensures r.Some? <==> IsLowerCyrillic(c) || IsUpperCyrillic(c)
    ensures r.Some? ==> forall i :: 0 <= i < |r.value| ==> IsAsciiLetter(r.value[i])
  {
    if 'а' <= c <= 'я' then Some(LowerLatin[c as int - 'а' as int])
    else if c == 'ё' then Some("yo")
    else if 'А' <= c <= 'Я' then Some(UpperLatin[c as int - 'А' as int])
    else if c == 'Ё' then Some("Yo")
    else None
  }

  lemma LatinExamples()
    ensures Latin('щ') == Some("shch") && Latin('Ж') == Some("Zh") && Latin('ь') == Some("")
    ensures Latin('ё') == Some("yo") && Latin('x') == None && Latin('і') == None
  {
  }
}

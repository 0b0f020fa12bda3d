/**
 The compiled name pattern of pbt.py: a bracketed character class made of two
 code-point ranges and one literal, repeated one or more times and anchored at
 both ends. The class is kept as data (the bracket's items in source order) so
 that its meaning, and the redundancy of the literal long-vowel mark, are
 stated about the pattern itself rather than about a restatement of it.
 */
module KanaPattern {

  /** The first and last code points of the two Unicode blocks. */
  const HiraganaFirst: char := '\U{3040}'
  const HiraganaLast: char := '\U{309F}'
  const KatakanaFirst: char := '\U{30A0}'
  const KatakanaLast: char := '\U{30FF}'
  /** The katakana-hiragana prolonged sound mark, written literally in the class. */
  const LongVowelMark: char := '\U{30FC}'

  /** One item between the brackets of a character class. */
  datatype ClassItem =
    | Range(lo: char, hi: char)   // `lo-hi`, both ends inclusive
    | Literal(c: char)            // a single character

  predicate ItemMatches(item: ClassItem, c: char) {
    match item
    case Range(lo, hi) => lo <= c <= hi
    case Literal(x) => c == x
  }

  /** The two block ranges of the class, without the literal mark. */
  const KanaBlocks: seq<ClassItem> := [Range(HiraganaFirst, HiraganaLast), Range(KatakanaFirst, KatakanaLast)]

  /** The class of the pattern exactly as written: two ranges, then the literal mark. */
  const KanaClass: seq<ClassItem> := KanaBlocks + [Literal(LongVowelMark)]

  predicate InHiragana(c: char) { HiraganaFirst <= c <= HiraganaLast }
  predicate InKatakana(c: char) { KatakanaFirst <= c <= KatakanaLast }

  /** The Kana Alphabet: the union of the two blocks. */
  predicate InKana(c: char) { InHiragana(c) || InKatakana(c) }

  /** A character is in a class when some item of the class matches it. */
  function InClass(items: seq<ClassItem>, c: char): (r: bool)
    ensures r <==> exists k :: 0 <= k < |items| && ItemMatches(items[k], c)
  {
    if items == [] then false
    else ItemMatches(items[0], c) || InClass(items[1..], c)
  }

  /** `class+` consuming all of `s`: one character of the class, then zero or more. */
  function PlusMatch(items: seq<ClassItem>, s: string): (r: bool)
    ensures r <==> |s| >= 1 && forall i :: 0 <= i < |s| ==> InClass(items, s[i])
  {
    |s| >= 1 && InClass(items, s[0]) && (|s| == 1 || PlusMatch(items, s[1..]))
  }

  /** The pattern's class admits exactly the Kana Alphabet. */
  lemma KanaClassIsKana()
    ensures forall c :: InClass(KanaClass, c) <==> InKana(c)
  {
  }

  /** The two block ranges alone admit the same alphabet. */
  lemma KanaBlocksIsKana(c: char)
    ensures InClass(KanaBlocks, c) <==> InKana(c)
  {
  }

  /** The two blocks touch: the alphabet is the single interval U+3040..U+30FF. */
  lemma KanaIsOneInterval(c: char)
    ensures InKana(c) <==> 0x3040 <= c as int <= 0x30FF
  {
  }

  /** The literal mark lies inside the katakana block, so the class with and without it agree. */
  lemma LongVowelMarkRedundant(c: char)
    ensures InKatakana(LongVowelMark)
    ensures InClass(KanaClass, c) <==> InClass(KanaBlocks, c)
  {
  }

  /** Hence the repeated class with and without the mark accepts the same strings. */
  lemma LongVowelMarkAddsNothing(s: string)
    ensures PlusMatch(KanaClass, s) <==> PlusMatch(KanaBlocks, s)
  {
    forall i | 0 <= i < |s|
      ensures InClass(KanaClass, s[i]) <==> InClass(KanaBlocks, s[i])
    {
      LongVowelMarkRedundant(s[i]);
    }
  }
}

# Kana name validator

A Dafny model of the name validator of `pbt.py`. `is_valid_name` admits a
string exactly when it is non-empty and each of its code points lies in the
Hiragana block (U+3040..U+309F) or the Katakana block (U+30A0..U+30FF). The
source does this with one compiled pattern, `^[\u3040-\u309F\u30A0-\u30FFー]+$`,
applied with `fullmatch`. The long-vowel mark (U+30FC) appears in the class as
a separate literal, even though it already lies in the Katakana block.

The model does not include a regular-expression engine. Instead:

- `kana_pattern.dfy` (module `KanaPattern`) keeps the bracketed class as data,
  with its items in the order written: two `Range` items and one `Literal`.
  `InClass` says when a class admits a character. `PlusMatch` is the `+`
  quantifier applied to the whole string: one character of the class, then
  zero or more. Lemmas relate the class to the Kana Alphabet (`InKana`, the
  union of the two blocks). They also prove that the literal mark adds nothing
  to the class.
- `pbt.dfy` (module `Pbt`) is `is_valid_name`. With `fullmatch`, `^` holds at
  the start of the string and `$` at its end, so the repeated class has to
  consume every character. The result is the exact characterisation: at least
  one character, and all of them in the alphabet. Lemmas cover the empty
  string, the block boundaries, rejection by a single bad character anywhere,
  concatenation, substrings, no prefix match, and a trailing newline.
- `pbt_properties.dfy` (module `PbtProperties`) states the two properties
  that `test_pbt.py` asserts, for all inputs. Its per-character oracle loop is
  a scan method proved against the oracle predicate. The katakana and hiragana
  generating strategies are written as predicates on strings.

Strings are `seq<char>`: each `char` is one Unicode scalar value, so one
element is one code point, as in a Python `str`.

## Model

| member | source | states |
|---|---|---|
| KanaPattern.InClass | pbt.py:4 | a bracketed class admits a character iff some item of the class (an inclusive range or a literal) matches it |
| KanaPattern.PlusMatch | pbt.py:4 | `class+` matches a whole string iff the string is non-empty and every character is admitted by the class |
| KanaPattern.KanaClassIsKana | pbt.py:4 | the pattern's class (two ranges plus the literal mark) admits exactly the Hiragana or Katakana block characters |
| KanaPattern.KanaBlocksIsKana | pbt.py:4 | the two block ranges alone, without the literal mark, admit the same alphabet |
| KanaPattern.KanaIsOneInterval | pbt.py:4 | the two blocks are adjacent, so the alphabet is the single interval U+3040..U+30FF |
| KanaPattern.LongVowelMarkRedundant | pbt.py:4 | U+30FC lies in the Katakana block, so the class with and without the literal admits the same characters |
| KanaPattern.LongVowelMarkAddsNothing | pbt.py:4 | the repeated class with and without the literal mark accepts the same strings |
| Pbt.IsValidName | pbt.py:4-10 | a name is valid iff it has at least one character and every character is in the Hiragana or Katakana block |
| Pbt.EmptyRejected | pbt.py:4 | the empty string is rejected, because the quantifier is `+` |
| Pbt.NonKanaRejects | pbt.py:4-10 | one character outside the alphabet, at any position, rejects the whole name |
| Pbt.Boundaries | pbt.py:4 | U+3040, U+309F, U+30A0, U+30FF and U+30FC are accepted alone; U+303F and U+3100 are rejected |
| Pbt.PerCharacter | pbt.py:4-10 | a name is valid iff it is non-empty and each of its characters alone is a valid name |
| Pbt.ConcatAccepted | pbt.py:4-10 | concatenating two valid names, in either order, gives a valid name |
| Pbt.SubstringAccepted | pbt.py:4-10 | every non-empty substring of a valid name is valid |
| Pbt.NoPrefixMatch | pbt.py:10 | a string is rejected whenever a non-kana character follows any prefix, valid or not: matching is anchored at both ends |
| Pbt.TrailingNewlineRejected | pbt.py:4-10 | a name that ends in a newline is rejected, even though `$` may match before a final newline |
| Pbt.Scenarios | pbt.py:4-10 | pure hiragana, pure katakana, mixed names and a name with the long-vowel mark are accepted; kanji, Latin letters, the empty name and a trailing space are rejected |
| PbtProperties.OracleIsKanaClass | test_pbt.py:22 | the test's oracle (the mark, or either block) agrees with the pattern's class on every character |
| PbtProperties.FirstDisallowed | test_pbt.py:20-25 | the oracle's scan returns the first character the oracle disallows, or nothing exactly when it allows every character |
| PbtProperties.CheckInvalidCharacters | test_pbt.py:10-25 | the first test expects rejection exactly when some character is disallowed, and then the validator does reject |
| PbtProperties.InvalidCharacterRejected | test_pbt.py:20-25 | any string with a character the oracle disallows is rejected |
| PbtProperties.KatakanaAccepted | test_pbt.py:30-33 | every non-empty string of Katakana-block characters and long-vowel marks is accepted |
| PbtProperties.HiraganaAccepted | test_pbt.py:36-39 | every non-empty string of Hiragana-block characters is accepted |
| PbtProperties.JapaneseNameAccepted | test_pbt.py:42-55 | every name the combined strategy draws, from either alphabet, is accepted |
| PbtProperties.AcceptedNamesAreDrawnFromTheStrategies | test_pbt.py:29-42 | the converse: every character of an accepted name belongs to the katakana strategy's alphabet or the hiragana strategy's alphabet |

## Left out

- The Python `re` engine (`re.compile`, `fullmatch`): a foreign library. The model states its effect on this one pattern: class membership, one or more repetitions, and a match anchored at both ends. It does not model general regular expressions.
- The commented-out alternative pattern at pbt.py:7: it is not live code.
- The Hypothesis and pytest harness (`@settings`, `@given`, generating random examples): this is test infrastructure. Its assertions are stated as lemmas for all inputs, and its strategies as predicates on strings.
- Lone surrogates: a Python `str` can hold them but a Dafny `char` cannot. The validator would reject them in any case, since they lie outside both blocks.
- Unicode normalisation, half-width katakana and kanji: the source has no logic for these. They are ordinary characters outside the alphabet and are rejected.

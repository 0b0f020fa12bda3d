/**
 The properties that test_pbt.py asserts of the validator, stated for all
 inputs. The first test walks the name with its own per-character oracle and
 expects rejection at the first character the oracle disallows; the second
 draws non-empty names from a katakana alphabet (the block plus the literal
 long-vowel mark) or a hiragana alphabet and expects acceptance.
 */
module PbtProperties {
  import opened KanaPattern
  import opened Pbt

  datatype Option<T> = None | Some(value: T)

  /** The test's per-character oracle: the literal mark, or a character of either block. */
  predicate OracleAllows(c: char) {
    c == LongVowelMark || (HiraganaFirst <= c <= HiraganaLast || KatakanaFirst <= c <= KatakanaLast)
  }

  /** The oracle and the pattern's class agree on every character. */
  lemma OracleIsKanaClass(c: char)
    ensures OracleAllows(c) <==> InClass(KanaClass, c)
  {
  }

  /** The oracle's scan: the index of the first character it disallows, if any. */
  method FirstDisallowed(name: string) returns (r: Option<nat>)
    ensures r.Some? ==> r.value < |name| && !OracleAllows(name[r.value])
    ensures r.Some? ==> forall j :: 0 <= j < r.value ==> OracleAllows(name[j])
    ensures r.None? <==> forall j :: 0 <= j < |name| ==> OracleAllows(name[j])
  {
    var i := 0;
    while i < |name|
      invariant 0 <= i <= |name|
      invariant forall j :: 0 <= j < i ==> OracleAllows(name[j])
    {
      if !OracleAllows(name[i]) {
        return Some(i);
      }
      i := i + 1;
    }
    return None;
  }

  /** The first test's loop: rejection is expected exactly when the scan stops early. */
  method CheckInvalidCharacters(name: string) returns (expectRejected: bool)
    ensures expectRejected <==> exists j :: 0 <= j < |name| && !OracleAllows(name[j])
    ensures expectRejected ==> !IsValidName(name)
  {
    var r := FirstDisallowed(name);
    expectRejected := r.Some?;
    if r.Some? {
      OracleIsKanaClass(name[r.value]);
      KanaClassIsKana();
      NonKanaRejects(name, r.value);
    }
  }

  /** The first test's property for every string: a disallowed character anywhere means rejection. */
  lemma InvalidCharacterRejected(name: string, j: nat)
    requires j < |name| && !OracleAllows(name[j])
    ensures !IsValidName(name)
  {
  }

  /** The names the katakana strategy draws: at least one character, each in the katakana block or the mark. */
  predicate KatakanaName(s: string) {
    |s| >= 1 && forall i :: 0 <= i < |s| ==> (KatakanaFirst <= s[i] <= KatakanaLast || s[i] == LongVowelMark)
  }

  /** The names the hiragana strategy draws: at least one character, each in the hiragana block. */
  predicate HiraganaName(s: string) {
    |s| >= 1 && forall i :: 0 <= i < |s| ==> HiraganaFirst <= s[i] <= HiraganaLast
  }

  lemma KatakanaAccepted(s: string)
    requires KatakanaName(s)
    ensures IsValidName(s)
  {
  }

  lemma HiraganaAccepted(s: string)
    requires HiraganaName(s)
    ensures IsValidName(s)
  {
  }

  /** The second test's property: every name of either strategy is accepted. */
  lemma JapaneseNameAccepted(s: string)
    requires KatakanaName(s) || HiraganaName(s)
    ensures IsValidName(s)
  {
  }

  /** Conversely, every accepted name mixes the two strategies' alphabets only: each character comes from one of them. */
  lemma AcceptedNamesAreDrawnFromTheStrategies(s: string)
    requires IsValidName(s)
    ensures forall i :: 0 <= i < |s| ==> KatakanaName([s[i]]) || HiraganaName([s[i]])
  {
  }
}

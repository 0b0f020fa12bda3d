/**
 The name validator of pbt.py. `is_valid_name` hands the whole string to
 `fullmatch` of the anchored pattern `^[class]+$`. Under `fullmatch` the match
 must span the entire string, so `^` holds at its start and `$` at its end and
 what decides the answer is the repeated class consuming every character. The
 validator is total: every string, of any content, gets a boolean.
 */
module Pbt {
  import opened KanaPattern

  /** `is_valid_name`: at least one character, and every character in the Kana Alphabet. */
  function IsValidName(name: string): (valid: bool)
    ensures valid <==> |name| >= 1 && forall i :: 0 <= i < |name| ==> InKana(name[i])
  {
    KanaClassIsKana();
    PlusMatch(KanaClass, name)
  }

  /** The quantifier is `+`, not `*`: the empty string is rejected. */
  lemma EmptyRejected()
    ensures !IsValidName("")
  {
  }

  /** A single character outside the alphabet anywhere rejects the whole string. */
  lemma NonKanaRejects(name: string, i: nat)
    requires i < |name| && !InKana(name[i])
    ensures !IsValidName(name)
  {
  }

  /** The inclusive ends of both blocks are accepted; the code points just outside are not. */
  lemma Boundaries()
    ensures IsValidName([HiraganaFirst]) && IsValidName([HiraganaLast])
    ensures IsValidName([KatakanaFirst]) && IsValidName([KatakanaLast])
    ensures IsValidName([LongVowelMark])
    ensures !IsValidName(['\U{303F}']) && !IsValidName(['\U{3100}'])
  {
  }

  /** Validity is decided character by character: a string is valid iff it is non-empty and each of its characters alone is. */
  lemma PerCharacter(name: string)
    ensures IsValidName(name) <==> |name| >= 1 && forall i :: 0 <= i < |name| ==> IsValidName([name[i]])
  {
  }

  /** Two valid names concatenated, in either order, give a valid name. */
  lemma ConcatAccepted(s: string, t: string)
    requires IsValidName(s) && IsValidName(t)
    ensures IsValidName(s + t) && IsValidName(t + s)
  {
  }

  /** Every non-empty substring of a valid name is valid. */
  lemma SubstringAccepted(name: string, lo: nat, hi: nat)
    requires IsValidName(name) && lo < hi <= |name|
    ensures IsValidName(name[lo..hi])
  {
  }

  /** No prefix match: a valid name followed by anything that holds a non-kana character is rejected. */
  lemma NoPrefixMatch(s: string, t: string, j: nat)
    requires j < |t| && !InKana(t[j])
    ensures !IsValidName(s + t)
  {
    NonKanaRejects(s + t, |s| + j);
  }

  /** `$` may match before a final newline, but `fullmatch` still needs the newline consumed: it is rejected. */
  lemma TrailingNewlineRejected(s: string)
    ensures !IsValidName(s + "\n")
  {
    NoPrefixMatch(s, "\n", 0);
  }

  /** The concrete names of the validator's documentation. */
  lemma Scenarios()
    // あいう, アイウ, カタかな, ひらガナー
    ensures IsValidName("\U{3042}\U{3044}\U{3046}")
    ensures IsValidName("\U{30A2}\U{30A4}\U{30A6}")
    ensures IsValidName("\U{30AB}\U{30BF}\U{304B}\U{306A}")
    ensures IsValidName("\U{3072}\U{3089}\U{30AC}\U{30CA}\U{30FC}")
    // たなか太郎, Tanaka, the empty name, あ followed by a space
    ensures !IsValidName("\U{305F}\U{306A}\U{304B}\U{592A}\U{90CE}")
    ensures !IsValidName("Tanaka")
    ensures !IsValidName("")
    ensures !IsValidName("\U{3042} ")
  {
    NonKanaRejects("\U{305F}\U{306A}\U{304B}\U{592A}\U{90CE}", 3);
    NonKanaRejects("\U{3042} ", 1);
  }
}

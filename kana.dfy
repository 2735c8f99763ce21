/** The script normaliser: `kataToHira` rewrites every character of the
    Katakana block U+30A1..U+30F6 to the Hiragana character 0x60 code points
    below it and copies every other character unchanged. */
module Kana {

  /** First and last code point matched by the character class `[ァ-ヶ]`. */
  const KatakanaFirst: int := 0x30A1
  const KatakanaLast: int := 0x30F6

  /** Distance between a Katakana character and its Hiragana counterpart. */
  const KanaOffset: int := 0x60

  /** First and last code point a matched character is rewritten to. */
  const HiraganaFirst: int := 0x3041
  const HiraganaLast: int := 0x3096

  predicate IsHiragana(c: char) {
    HiraganaFirst <= c as int <= HiraganaLast
  }

  /** Membership in the character class `[\u30a1-\u30f6]`, 'ァ'..'ヶ'. */
  predicate IsKatakana(c: char) {
    KatakanaFirst <= c as int <= KatakanaLast
  }

  /** No character of `s` is matched by the rewrite. */
  predicate NoKatakana(s: string) {
    forall i :: 0 <= i < |s| ==> !IsKatakana(s[i])
  }

  /** The replacement callback applied to one character. */
  function HiraChar(c: char): (h: char)
    ensures IsKatakana(c) ==> IsHiragana(h) && h as int == c as int - KanaOffset
    ensures !IsKatakana(c) ==> h == c
    ensures !IsKatakana(h)
  {
    if IsKatakana(c) then (c as int - KanaOffset) as char else c
  }

  /** The whole-string rewrite: one output character per input character. */
  function KataToHira(s: string): (r: string)
    ensures |r| == |s|
    ensures forall i :: 0 <= i < |s| ==> r[i] == HiraChar(s[i])
    ensures NoKatakana(r)
  {
    if s == [] then [] else [HiraChar(s[0])] + KataToHira(s[1..])
  }

  /** The rewrite works character by character, so it distributes over
      concatenation. */
  lemma KataToHiraAppend(a: string, b: string)
    ensures KataToHira(a + b) == KataToHira(a) + KataToHira(b)
  {
  }

  /** A string is left as it is exactly when it contains no Katakana-block
      character. */
  lemma KataToHiraFixpoint(s: string)
    ensures KataToHira(s) == s <==> NoKatakana(s)
  {
  }

  /** Applying the rewrite twice is the same as applying it once. */
  lemma KataToHiraIdempotent(s: string)
    ensures KataToHira(KataToHira(s)) == KataToHira(s)
  {
  }

  lemma KataToHiraExamples()
    ensures KataToHira("") == ""
    ensures KataToHira("カタカナ") == "かたかな"
    ensures KataToHira("ABC123") == "ABC123"
    ensures KataToHira("ヲ") == "を"
  {
  }
}

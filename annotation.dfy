/** The annotation decision of `renderTokens`: every token of the morphological
    analyser becomes one render unit, whose base is the token's surface form and
    which carries a ruby gloss only when the token has a reading whose Hiragana
    form differs from the surface form. */
module Annotation {
  import opened Wrappers
  import opened Kana

  /** A kuromoji token, reduced to the two fields the component reads.
      `reading` is `None` where the analyser gives no reading. */
  datatype Token = Token(surfaceForm: string, reading: Option<string>)

  /** One `<ruby>` element: the text shown, and the `<rt>` annotation if any. */
  datatype Unit = Unit(base: string, gloss: Option<string>)

  /** JavaScript truthiness of `t.reading`: a missing reading and the empty
      string are the two falsy values a reading can take. */
  predicate HasReading(t: Token) {
    t.reading.Some? && t.reading.value != ""
  }

  /** The conditional expression applied to each token. */
  function AnnotateToken(t: Token): (u: Unit)
    ensures u.base == t.surfaceForm
    ensures u.gloss.Some? <==> HasReading(t) && KataToHira(t.reading.value) != t.surfaceForm
    ensures u.gloss.Some? ==> u.gloss.value == KataToHira(t.reading.value)
    ensures u.gloss.Some? ==> u.gloss.value != u.base && NoKatakana(u.gloss.value)
  {
    if HasReading(t) && KataToHira(t.reading.value) != t.surfaceForm then
      Unit(t.surfaceForm, Some(KataToHira(t.reading.value)))
    else
      Unit(t.surfaceForm, None)
  }

  /** `tokens.map(...)`: one unit per token, in token order. */
  function Annotate(ts: seq<Token>): (us: seq<Unit>)
    ensures |us| == |ts|
    ensures forall i :: 0 <= i < |ts| ==> us[i] == AnnotateToken(ts[i])
  {
    if ts == [] then [] else [AnnotateToken(ts[0])] + Annotate(ts[1..])
  }

  /** The text of the tokens laid end to end. */
  function Surfaces(ts: seq<Token>): string {
    if ts == [] then "" else ts[0].surfaceForm + Surfaces(ts[1..])
  }

  /** The text the rendered units show, ignoring their glosses. */
  function Bases(us: seq<Unit>): string {
    if us == [] then "" else us[0].base + Bases(us[1..])
  }

  /** Annotation neither drops, reorders, merges nor alters any text: the
      rendered bases spell out exactly the tokens' surface forms, so whenever
      the analyser segments a string, the rendering reconstructs it. */
  lemma {:induction false} AnnotateKeepsText(ts: seq<Token>)
    ensures Bases(Annotate(ts)) == Surfaces(ts)
  {
    if ts != [] {
      AnnotateKeepsText(ts[1..]);
      assert Annotate(ts)[1..] == Annotate(ts[1..]);
    }
  }

  /** Annotating a concatenation is concatenating the annotations, so no unit
      ever depends on its neighbours. */
  lemma AnnotateAppend(a: seq<Token>, b: seq<Token>)
    ensures Annotate(a + b) == Annotate(a) + Annotate(b)
  {
  }

  /** A reading that only spells the surface form in Katakana is suppressed;
      one that spells a different word is shown in Hiragana. */
  lemma AnnotateExamples()
    ensures AnnotateToken(Token("を", Some("ヲ"))) == Unit("を", None)
    ensures AnnotateToken(Token("日本語", Some("ニホンゴ"))) == Unit("日本語", Some("にほんご"))
    ensures AnnotateToken(Token("。", None)) == Unit("。", None)
    ensures AnnotateToken(Token("猫", Some(""))) == Unit("猫", None)
  {
    KataToHiraExamples();
    assert KataToHira("ニホンゴ") == "にほんご" by {
      assert KataToHira("ニホンゴ")[0] == 'に';
    }
    assert KataToHira("ニホンゴ") != "日本語" by {
      assert KataToHira("ニホンゴ")[0] == 'に';
    }
  }

  /** "日本語を勉強します" as the analyser splits it: only the two content
      words whose reading differs from their spelling get a gloss. */
  lemma AnnotateSentenceExample()
    ensures Annotate([Token("日本語", Some("ニホンゴ")), Token("を", Some("ヲ")),
                      Token("勉強", Some("ベンキョウ")), Token("し", Some("シ")),
                      Token("ます", Some("マス"))])
         == [Unit("日本語", Some("にほんご")), Unit("を", None),
             Unit("勉強", Some("べんきょう")), Unit("し", None), Unit("ます", None)]
  {
    AnnotateExamples();
    assert KataToHira("ベンキョウ") == "べんきょう" by {
      assert KataToHira("ベンキョウ")[0] == 'べ';
    }
    assert KataToHira("ベンキョウ") != "勉強" by {
      assert KataToHira("ベンキョウ")[0] == 'べ';
    }
    assert KataToHira("シ") == "し" by {
      assert KataToHira("シ")[0] == 'し';
    }
    assert KataToHira("マス") == "ます" by {
      assert KataToHira("マス")[0] == 'ま';
    }
  }
}

# Furigator core, modelled in Dafny

Furigator is a small React page. It shows Japanese text with furigana (ruby
readings). The user types into a plain input field or a rich-text editor. The
page runs the kuromoji morphological analyser over that text and renders each
token as a `<ruby>` element. A token gets an `<rt>` reading when it has one
and the reading, rewritten from Katakana to Hiragana, differs from how the
token is written.

This project models the logic of `src/App.js` in three modules:

- `Kana` (`kana.dfy`) is the `kataToHira` normaliser. It is a whole-string
  rewrite that lowers every code point in U+30A1..U+30F6 by 0x60 and leaves
  every other character alone.
- `Annotation` (`annotation.dfy`) is the per-token decision inside
  `renderTokens`, without the markup. `Token(surfaceForm, reading)` becomes
  `Unit(base, gloss)`. `reading` is an `Option<string>`: `None` and
  `Some("")` are both falsy, as in JavaScript.
- `AppState` (`app.dfy`) is the component's state: `text`, `tokens`,
  `previewState`, `tokenizer` and the editor state. It handles three events:
  `handleTextChange`, `onEditorStateChange` and the builder's callback. Each is
  a transition function on a `State` record. The class `App` keeps the same
  fields as mutable variables, and its methods are proved to perform exactly
  those transitions. `Step` and `Run` replay a sequence of events, which lets
  the lemmas talk about whole sessions.

The kuromoji tokenizer is not modelled. `Tokenizer` wraps an arbitrary total
function `tokenize: string -> seq<Token>`. Nothing is assumed about it, except
where a lemma names an explicit hypothesis: that the surface forms spell out
the input.

`Wrappers` (`wrappers.dfy`) holds `Option` and `Result`.

Some behaviour of the code, which the model follows:

- The plain input is never tokenised when it is empty. Its old tokens stay,
  but they are hidden because `text` is empty.
- The editor's plain text is tokenised even when it is empty. An empty token
  array is truthy, so an empty preview is still "shown".
- No text is re-tokenised when the tokenizer arrives. If the user typed before
  the dictionary loaded, the input result shows stale tokens until the next
  keystroke (`LateBuildShowsStaleInput`). Likewise, an editor change before
  the build leaves `previewState` null, so the preview stays hidden until the
  next edit; the preview invariant (`PreviewConsistent`) then holds only
  because there is no preview. If the tokenizer is installed before any
  typing and no later build succeeds, every later state is consistent and
  keeps that tokenizer (`StepKeepsConsistent` and `RunKeepsConsistent`;
  `ReadyBeforeTyping` is the case where the build is the first event).
- The code has no per-leaf walk over the rich-text tree and no pass-through
  rendering of raw text while no tokenizer is loaded. It tokenises the
  editor's whole plain text, and without a tokenizer it re-tokenises nothing
  (`NoTokenizerNoTokenising`).

## Model

| member | source | states |
|---|---|---|
| Kana.HiraChar | src/App.js:9-10 | A character of the class `[\u30a1-\u30f6]` ('ァ'..'ヶ', U+30A1..U+30F6) becomes the character 0x60 lower, which lies in U+3041..U+3096. Any other character is returned unchanged. The result is never in the Katakana range. |
| Kana.KataToHira | src/App.js:8-11 | The result has the input's length. Each output character is the replacement callback applied to the input character at the same position. The output contains no character of U+30A1..U+30F6. |
| Kana.KataToHiraAppend | src/App.js:8-11 | The rewrite distributes over concatenation, as a global per-character replace does. |
| Kana.KataToHiraFixpoint | src/App.js:8-11 | A string is left unchanged if and only if it contains no character of U+30A1..U+30F6. |
| Kana.KataToHiraIdempotent | src/App.js:8-11 | Applying the rewrite twice equals applying it once. |
| Kana.KataToHiraExamples | src/App.js:8-11 | "" stays "". "カタカナ" becomes "かたかな". "ABC123" is unchanged. "ヲ" becomes "を". |
| Annotation.AnnotateToken | src/App.js:25-43 | The base is always the surface form. There is a gloss if and only if the reading is truthy (neither `None` nor `Some("")`) and its Hiragana form differs from the surface form. A gloss equals that Hiragana form, differs from the base and contains no Katakana. |
| Annotation.Annotate | src/App.js:22-45 | One unit per token, in token order. Unit i is the decision applied to token i. |
| Annotation.AnnotateKeepsText | src/App.js:22-43 | The concatenated bases of the units equal the concatenated surface forms of the tokens. Nothing is dropped, merged or reordered, so a segmentation of a string is rendered back as that string. |
| Annotation.AnnotateAppend | src/App.js:23 | Annotating a concatenation gives the concatenation of the annotations, so no unit depends on its neighbours. |
| Annotation.AnnotateExamples | src/App.js:25 | `を` with reading `ヲ` gets no gloss. `日本語` with reading `ニホンゴ` gets `にほんご`. A missing reading and an empty reading give no gloss. |
| Annotation.AnnotateSentenceExample | src/App.js:22-45 | The five tokens of 日本語を勉強します give glosses only on 日本語 (にほんご) and 勉強 (べんきょう). |
| AppState.InputResult | src/App.js:149 | The input result is shown if and only if `text` is non-empty. When shown, unit i is the annotation of stored token i, gloss included, and the bases spell the stored tokens' surface forms. |
| AppState.PreviewResult | src/App.js:189 | The preview is shown if and only if `previewState` is non-null, even when `previewState` is empty. When shown, unit i is the annotation of preview token i, and the bases spell the preview tokens' surface forms. |
| AppState.Initial | src/App.js:14-19 | The state starts with empty text, no tokens, a null preview, no tokenizer and an empty editor, and it is consistent. |
| AppState.AfterTextChange | src/App.js:72-81 | `text` becomes the new value. `tokens` becomes `tokenize(value)` exactly when a tokenizer exists and the value is non-empty, and otherwise keeps its old value. The preview, tokenizer and editor are unchanged. Afterwards the stored tokens are those of the current text whenever a tokenizer exists and the text is non-empty. |
| AppState.AfterEditorChange | src/App.js:83-94 | The editor state is stored. With a tokenizer, the preview becomes `tokenize(plainText)`, even for empty text, and so matches the editor's current text. Without one, the preview is unchanged. `text`, `tokens` and the tokenizer are never touched. |
| AppState.AfterBuild | src/App.js:63-66 | A build error changes nothing. A successful build installs the built tokenizer and changes no other field. |
| AppState.TextChangeEffect | src/App.js:72-81 | After a text change the result is shown exactly when the value is non-empty: the annotation of `tokenize(value)` with a tokenizer, and the annotation of the old tokens without one. |
| AppState.EditorChangeEffect | src/App.js:83-94 | After an editor change with a tokenizer, the preview shown is the annotation of `tokenize(plainText)`, even for empty text. Without a tokenizer, what is shown does not change. |
| AppState.NoTokenizerNoTokenising | src/App.js:77-92 | Without a successful build, no sequence of events changes `tokens` or `previewState`, and the tokenizer stays absent. |
| AppState.StepKeepsConsistent | src/App.js:63-92 | Each event keeps two properties: the stored tokens are those of the current text, and the preview is that of the current editor text. The one exception is a successful build that arrives while the input text is non-empty, or when a tokenizer is already installed. |
| AppState.RunKeepsConsistent | src/App.js:63-92 | Any sequence of events without a successful build keeps both properties and leaves the tokenizer as it was. |
| AppState.ReadyBeforeTyping | src/App.js:63-92 | When the first event installs the tokenizer and no later build succeeds, every later state is consistent and keeps that tokenizer. |
| AppState.LateBuildShowsStaleInput | src/App.js:65 | Type "猫" and then install a tokenizer: the text is "猫", but the shown result still has no units, so the state is not consistent. |
| AppState.ShownResultsReconstruct | src/App.js:149 | In a consistent state with a tokenizer that segments the current text, the shown input result's bases spell `text`. Likewise, the preview's bases spell the editor's plain text. |
| AppState.App.constructor | src/App.js:14-19 | Every field starts at the initial value its hook is given: `""`, `[]`, `null`, `null` and an empty editor. |
| AppState.App.HandleTextChange | src/App.js:72-81 | Sets `text := value`. Sets `tokens := tokenize(value)` only when a tokenizer exists and `value` is non-empty. Leaves every other field unchanged. |
| AppState.App.OnEditorStateChange | src/App.js:83-94 | Stores the editor state. When a tokenizer exists, sets `previewState := tokenize(plainText)`. Leaves `text`, `tokens` and `tokenizer` unchanged. |
| AppState.App.OnTokenizerBuilt | src/App.js:63-66 | On success, installs the tokenizer. On error, leaves the tokenizer and every other field unchanged. |

## Left out

- Rendering: JSX, `<ruby>`/`<rt>` markup, styles, layout, React keys and re-render timing. These are presentation, not logic.
- The hover state (`hovered` and the mouse handlers), which only toggles the visibility of `<rt>`. This is UI interaction.
- Loading the kuromoji script and dictionary, which is asynchronous I/O. Only the outcome of the build callback is kept. Logging the error (`console.error`) is left out.
- The kuromoji tokenizer itself, which is an external library. It is any total function. The property that surface forms concatenate to the input belongs to kuromoji, so it appears only as an explicit hypothesis.
- draft-js `EditorState`, which is a foreign object model. It is reduced to the plain text of its current content.
- The commented-out `handleSave`. It is dead code.
- React's asynchronous batching of state setters. Each handler is modelled as one synchronous update that reads the current `tokenizer`, the value the handler's closure sees.
- JavaScript strings are UTF-16 code units, and Dafny `char` is a Unicode scalar value. The rewritten range lies in the Basic Multilingual Plane, so its results agree. Lone surrogate code units cannot be expressed.

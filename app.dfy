/** The state of the `App` component and its three event handlers: the plain
    input's `handleTextChange`, the rich-text editor's `onEditorStateChange`,
    and the callback of the kuromoji builder that installs the tokenizer.

    The state is given twice, by design: `State` is the record the handlers are
    specified against (transition functions and the lemmas about them), and the
    class `App` holds the same fields as mutable variables, the way the
    component keeps them in `useState` hooks. */
module AppState {
  import opened Wrappers
  import opened Annotation

  /** The built kuromoji tokenizer. Its analysis is not modelled: it is any
      total function from text to tokens. */
  datatype Tokenizer = Tokenizer(tokenize: string -> seq<Token>)

  /** The `err` argument of the build callback. */
  datatype BuildError = BuildError(message: string)

  /** The draft-js editor state, reduced to the plain text of its content. */
  datatype EditorState = EditorState(plainText: string)

  /** The content of `EditorState.createEmpty()`. */
  const EmptyEditor: EditorState := EditorState("")

  /** The component's state hooks that the core reads or writes.
      `previewState` is `None` while it is still `null`. */
  datatype State = State(
    text: string,
    tokens: seq<Token>,
    previewState: Option<seq<Token>>,
    tokenizer: Option<Tokenizer>,
    editor: EditorState)

  /** The initial values passed to `useState`. */
  function Initial(): (st: State)
    ensures st.text == "" && st.tokens == [] && st.previewState.None?
    ensures st.tokenizer.None? && st.editor == EmptyEditor
    ensures Consistent(st)
  {
    State("", [], None, None, EmptyEditor)
  }

  /** `handleTextChange`: store the new value, and re-tokenise it only when a
      tokenizer is installed and the value is not empty. */
  function AfterTextChange(st: State, value: string): (r: State)
    ensures r.text == value
    ensures r.tokens == if st.tokenizer.Some? && value != "" then st.tokenizer.value.tokenize(value) else st.tokens
    ensures r.previewState == st.previewState && r.tokenizer == st.tokenizer && r.editor == st.editor
    ensures InputConsistent(r)
  {
    var tokens := if st.tokenizer.Some? && value != "" then st.tokenizer.value.tokenize(value) else st.tokens;
    st.(text := value, tokens := tokens)
  }

  /** `onEditorStateChange`: store the editor state, and, when a tokenizer is
      installed, tokenise its whole plain text (the empty text included). */
  function AfterEditorChange(st: State, editor: EditorState): (r: State)
    ensures r.editor == editor
    ensures r.previewState ==
              if st.tokenizer.Some? then Some(st.tokenizer.value.tokenize(editor.plainText)) else st.previewState
    ensures r.text == st.text && r.tokens == st.tokens && r.tokenizer == st.tokenizer
    ensures st.tokenizer.Some? ==> PreviewConsistent(r)
  {
    var preview := if st.tokenizer.Some? then Some(st.tokenizer.value.tokenize(editor.plainText)) else st.previewState;
    st.(editor := editor, previewState := preview)
  }

  /** The builder's `(err, tokenizer)` callback: install the tokenizer on
      success; on an error only log it. */
  function AfterBuild(st: State, outcome: Result<Tokenizer, BuildError>): (r: State)
    ensures outcome.Failure? ==> r == st
    ensures outcome.Success? ==> r.tokenizer == Some(outcome.value)
    ensures r.text == st.text && r.tokens == st.tokens && r.previewState == st.previewState
    ensures r.editor == st.editor
  {
    match outcome
    case Success(tk) => st.(tokenizer := Some(tk))
    case Failure(_) => st
  }

  /** What the first "Result:" area shows: `text && renderTokens(tokens)`
      renders nothing for an empty text. */
  function InputResult(st: State): (r: Option<seq<Unit>>)
    ensures r.Some? <==> st.text != ""
    ensures r.Some? ==> |r.value| == |st.tokens|
    ensures r.Some? ==> forall i :: 0 <= i < |r.value| ==> r.value[i] == AnnotateToken(st.tokens[i])
    ensures r.Some? ==> Bases(r.value) == Surfaces(st.tokens)
  {
    AnnotateKeepsText(st.tokens);
    if st.text != "" then Some(Annotate(st.tokens)) else None
  }

  /** What the second "Result:" area shows: `previewState && renderTokens(...)`.
      A JavaScript array is truthy even when empty, so only `null` hides it. */
  function PreviewResult(st: State): (r: Option<seq<Unit>>)
    ensures r.Some? <==> st.previewState.Some?
    ensures r.Some? ==> |r.value| == |st.previewState.value|
    ensures r.Some? ==> forall i :: 0 <= i < |r.value| ==> r.value[i] == AnnotateToken(st.previewState.value[i])
    ensures r.Some? ==> Bases(r.value) == Surfaces(st.previewState.value)
  {
    match st.previewState
    case None => None
    case Some(ts) => AnnotateKeepsText(ts); Some(Annotate(ts))
  }

  /** One event the component reacts to. */
  datatype Event =
    | Typed(value: string)
    | Edited(editor: EditorState)
    | Built(outcome: Result<Tokenizer, BuildError>)

  predicate IsSuccessfulBuild(e: Event) {
    e.Built? && e.outcome.Success?
  }

  function Step(st: State, e: Event): State {
    match e
    case Typed(v) => AfterTextChange(st, v)
    case Edited(ed) => AfterEditorChange(st, ed)
    case Built(o) => AfterBuild(st, o)
  }

  /** The state after handling `es` in order. */
  function Run(st: State, es: seq<Event>): State
    decreases |es|
  {
    if es == [] then st else Run(Step(st, es[0]), es[1..])
  }

  predicate NoSuccessfulBuild(es: seq<Event>) {
    forall i :: 0 <= i < |es| ==> !IsSuccessfulBuild(es[i])
  }

  /** The tokens behind the input result are those of the current text,
      whenever a tokenizer is installed and there is text to show. */
  ghost predicate InputConsistent(st: State) {
    st.tokenizer.Some? && st.text != "" ==> st.tokens == st.tokenizer.value.tokenize(st.text)
  }

  /** A preview, once there is one, is the tokenisation of the editor's
      current plain text by the installed tokenizer. */
  ghost predicate PreviewConsistent(st: State) {
    st.previewState.Some? ==>
      st.tokenizer.Some? && st.previewState.value == st.tokenizer.value.tokenize(st.editor.plainText)
  }

  ghost predicate Consistent(st: State) {
    InputConsistent(st) && PreviewConsistent(st)
  }

  /** After a text change a result is shown exactly when the text is not
      empty: the annotation of the new tokens when a tokenizer is installed,
      and otherwise that of the tokens left over from before. */
  lemma TextChangeEffect(st: State, value: string)
    ensures InputResult(AfterTextChange(st, value)).Some? <==> value != ""
    ensures st.tokenizer.Some? && value != "" ==>
              InputResult(AfterTextChange(st, value)) == Some(Annotate(st.tokenizer.value.tokenize(value)))
    ensures st.tokenizer.None? && value != "" ==>
              InputResult(AfterTextChange(st, value)) == Some(Annotate(st.tokens))
  {
  }

  /** After an editor change with a tokenizer installed, the preview is shown
      and is the annotation of the editor's whole plain text, empty included. */
  lemma EditorChangeEffect(st: State, editor: EditorState)
    ensures st.tokenizer.Some? ==>
              PreviewResult(AfterEditorChange(st, editor)) == Some(Annotate(st.tokenizer.value.tokenize(editor.plainText)))
    ensures st.tokenizer.None? ==> PreviewResult(AfterEditorChange(st, editor)) == PreviewResult(st)
  {
  }

  /** Without a successful build nothing is ever re-tokenised: the tokens and
      the preview keep their values and the tokenizer stays absent. */
  lemma {:induction false} NoTokenizerNoTokenising(st: State, es: seq<Event>)
    requires st.tokenizer.None?
    requires NoSuccessfulBuild(es)
    ensures Run(st, es).tokenizer.None?
    ensures Run(st, es).tokens == st.tokens
    ensures Run(st, es).previewState == st.previewState
    decreases |es|
  {
    if es != [] {
      assert !IsSuccessfulBuild(es[0]);
      NoTokenizerNoTokenising(Step(st, es[0]), es[1..]);
    }
  }

  /** Every event keeps the component consistent, except a successful build
      that arrives while a tokenizer is already installed or while the input
      text is non-empty. */
  lemma StepKeepsConsistent(st: State, e: Event)
    requires Consistent(st)
    requires IsSuccessfulBuild(e) ==> st.tokenizer.None? && st.text == ""
    ensures Consistent(Step(st, e))
  {
  }

  /** Events other than a successful build keep the component consistent. */
  lemma {:induction false} RunKeepsConsistent(st: State, es: seq<Event>)
    requires Consistent(st)
    requires NoSuccessfulBuild(es)
    ensures Consistent(Run(st, es))
    ensures Run(st, es).tokenizer == st.tokenizer
    decreases |es|
  {
    if es != [] {
      assert !IsSuccessfulBuild(es[0]);
      StepKeepsConsistent(st, es[0]);
      RunKeepsConsistent(Step(st, es[0]), es[1..]);
    }
  }

  /** When the first event installs the tokenizer and no later build
      succeeds, every later state is consistent. */
  lemma ReadyBeforeTyping(tk: Tokenizer, es: seq<Event>)
    requires NoSuccessfulBuild(es)
    ensures Consistent(Run(Initial(), [Built(Success(tk))] + es))
    ensures Run(Initial(), [Built(Success(tk))] + es).tokenizer == Some(tk)
  {
    var s1 := Step(Initial(), Built(Success(tk)));
    assert ([Built(Success(tk))] + es)[1..] == es;
    StepKeepsConsistent(Initial(), Built(Success(tk)));
    RunKeepsConsistent(s1, es);
  }

  /** A tokenizer that arrives after the user typed does not refresh the
      input result: it goes on showing the tokens of an earlier text. */
  lemma LateBuildShowsStaleInput()
    ensures var tk := Tokenizer(s => [Token(s, None)]);
            var st := Run(Initial(), [Typed("猫"), Built(Success(tk))]);
            st.text == "猫" && st.tokenizer == Some(tk) && InputResult(st) == Some([])
            && !InputConsistent(st)
  {
    var tk := Tokenizer(s => [Token(s, None)]);
    var es := [Typed("猫"), Built(Success(tk))];
    var s1 := Step(Initial(), es[0]);
    assert s1 == State("猫", [], None, None, EmptyEditor);
    var s2 := Step(s1, es[1]);
    assert s2 == State("猫", [], None, Some(tk), EmptyEditor);
    assert es[1..] == [Built(Success(tk))];
    assert [Built(Success(tk))][1..] == [];
    assert Run(s2, []) == s2;
    assert Run(s1, es[1..]) == s2;
    assert Run(Initial(), es) == s2;
    assert tk.tokenize("猫") == [Token("猫", None)];
  }

  /** In a consistent state, whenever the tokenizer segments the current text
      (its surface forms spell it out), the shown result reconstructs it. */
  lemma ShownResultsReconstruct(st: State)
    requires Consistent(st)
    requires st.tokenizer.Some?
    ensures st.text != "" && Surfaces(st.tokenizer.value.tokenize(st.text)) == st.text ==>
              InputResult(st).Some? && Bases(InputResult(st).value) == st.text
    ensures st.previewState.Some? && Surfaces(st.tokenizer.value.tokenize(st.editor.plainText)) == st.editor.plainText ==>
              PreviewResult(st).Some? && Bases(PreviewResult(st).value) == st.editor.plainText
  {
  }

  /** The component, with its state hooks as mutable fields. */
  class App {
    var text: string
    var tokens: seq<Token>
    var previewState: Option<seq<Token>>
    var tokenizer: Option<Tokenizer>
    var editorState: EditorState

    /** The record of the current field values. */
    function Snapshot(): State
      reads this
    {
      State(text, tokens, previewState, tokenizer, editorState)
    }

    constructor ()
      ensures text == "" && tokens == [] && previewState.None? && tokenizer.None?
      ensures editorState == EmptyEditor
      ensures Snapshot() == Initial()
    {
      text := "";
      tokens := [];
      previewState := None;
      tokenizer := None;
      editorState := EmptyEditor;
    }

    method HandleTextChange(value: string)
      modifies this
      ensures text == value
      ensures tokens == if old(tokenizer).Some? && value != "" then old(tokenizer).value.tokenize(value) else old(tokens)
      ensures previewState == old(previewState) && tokenizer == old(tokenizer) && editorState == old(editorState)
      ensures Snapshot() == AfterTextChange(old(Snapshot()), value)
    {
      text := value;
      if tokenizer.Some? && value != "" {
        var result := tokenizer.value.tokenize(value);
        tokens := result;
      }
    }

    method OnEditorStateChange(state: EditorState)
      modifies this
      ensures editorState == state
      ensures previewState == if old(tokenizer).Some? then Some(old(tokenizer).value.tokenize(state.plainText)) else old(previewState)
      ensures text == old(text) && tokens == old(tokens) && tokenizer == old(tokenizer)
      ensures Snapshot() == AfterEditorChange(old(Snapshot()), state)
    {
      editorState := state;
      if tokenizer.Some? {
        var plainText := state.plainText;
        var result := tokenizer.value.tokenize(plainText);
        previewState := Some(result);
      }
    }

    method OnTokenizerBuilt(outcome: Result<Tokenizer, BuildError>)
      modifies this
      ensures tokenizer == if outcome.Success? then Some(outcome.value) else old(tokenizer)
      ensures text == old(text) && tokens == old(tokens) && previewState == old(previewState)
      ensures editorState == old(editorState)
      ensures Snapshot() == AfterBuild(old(Snapshot()), outcome)
    {
      if outcome.Success? {
        tokenizer := Some(outcome.value);
      }
    }
  }
}

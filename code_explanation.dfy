/**
 * CodeExplanationAssistant: sends the code, with the selected fragment
 * highlighted, to the LLM together with the DSL's name, description and grammar.
 */
module CodeExplanation {
  import opened Wrappers
  import opened JavaText

  /** The selection wrapped in the markers the prompt refers to. */
  function Highlighted(selection: string): string {
    " [[START]] " + selection + " [[END]] "
  }

  /** Only a selection that is present and not blank is highlighted. */
  predicate Marks(selection: Option<string>) {
    selection.Some? && !IsBlank(selection.value)
  }

  /** The code sent to the LLM: every occurrence of a non-blank selection highlighted. */
  function MarkedCode(fullCode: string, selection: Option<string>): string {
    if Marks(selection) then
      assert selection.value != [];
      ReplaceAll(fullCode, selection.value, Highlighted(selection.value))
    else fullCode
  }

  /** Each highlighted occurrence adds the twenty characters of the two markers. */
  lemma MarkedCodeLength(fullCode: string, selection: Option<string>)
    requires Marks(selection)
    ensures selection.value != []
    ensures |MarkedCode(fullCode, selection)| == |fullCode| + 20 * Occurrences(fullCode, selection.value)
  {
    ReplaceAllLength(fullCode, selection.value, Highlighted(selection.value));
  }

  /** The code is sent unchanged exactly when there is nothing to highlight: no usable selection, or one that does not occur. */
  lemma UnmarkedIffNothingToHighlight(fullCode: string, selection: Option<string>)
    ensures MarkedCode(fullCode, selection) == fullCode <==> !Marks(selection) || !Contains(fullCode, selection.value)
  {
    if Marks(selection) {
      var sel := selection.value;
      assert sel != [];
      OccurrencesIffContains(fullCode, sel);
      MarkedCodeLength(fullCode, selection);
      if !Contains(fullCode, sel) {
        ReplaceAllAbsent(fullCode, sel, Highlighted(sel));
      }
    }
  }

  /** A selection found in the code comes back highlighted. */
  lemma SelectionIsHighlighted(fullCode: string, selection: Option<string>)
    requires Marks(selection) && Contains(fullCode, selection.value)
    ensures Contains(MarkedCode(fullCode, selection), Highlighted(selection.value))
  {
    assert selection.value != [];
    ReplaceAllShowsReplacement(fullCode, selection.value, Highlighted(selection.value));
  }

  /** What `explain` passes to the LLM. */
  datatype ExplainRequest = ExplainRequest(markedCode: string, name: Option<string>, description: Option<string>, grammar: string)

  /**
   * `explain(fullCode, selection)`: null when reading the grammar failed
   * (`grammar` is that read's result), otherwise the LLM's answer.
   */
  function Explain(chat: ExplainRequest -> string, name: Option<string>, description: Option<string>,
                   grammar: Option<string>, fullCode: string, selection: Option<string>): (answer: Option<string>)
    ensures answer.None? <==> grammar.None?
    ensures grammar.Some? ==> answer == Some(chat(ExplainRequest(MarkedCode(fullCode, selection), name, description, grammar.value)))
  {
    if grammar.None? then None
    else Some(chat(ExplainRequest(MarkedCode(fullCode, selection), name, description, grammar.value)))
  }

  /** `explain(code)`: the same with no selection. */
  function ExplainWhole(chat: ExplainRequest -> string, name: Option<string>, description: Option<string>,
                        grammar: Option<string>, code: string): (answer: Option<string>)
    ensures answer.None? <==> grammar.None?
    ensures grammar.Some? ==> answer == Some(chat(ExplainRequest(code, name, description, grammar.value)))
  {
    Explain(chat, name, description, grammar, code, None)
  }

  /** Explaining the whole code, or a blank selection, sends the code exactly as it is. */
  lemma WholeCodeSentAsIs(chat: ExplainRequest -> string, name: Option<string>, description: Option<string>,
                          grammar: Option<string>, code: string, selection: Option<string>)
    requires selection.None? || IsBlank(selection.value)
    ensures ExplainWhole(chat, name, description, grammar, code) == Explain(chat, name, description, grammar, code, selection)
    ensures ExplainWhole(chat, name, description, grammar, code).None? <==> grammar.None?
    ensures grammar.Some? ==>
              ExplainWhole(chat, name, description, grammar, code) == Some(chat(ExplainRequest(code, name, description, grammar.value)))
  {
  }

  /**
   * Explaining a non-blank selection: no answer exactly when the grammar could
   * not be read; otherwise the LLM sees the code with the selection highlighted,
   * which differs from the code as soon as the selection occurs in it.
   */
  lemma ExplainHighlightsSelection(chat: ExplainRequest -> string, name: Option<string>, description: Option<string>,
                                   grammar: Option<string>, fullCode: string, selection: Option<string>)
    requires Marks(selection)
    ensures Explain(chat, name, description, grammar, fullCode, selection).None? <==> grammar.None?
    ensures grammar.Some? ==>
              Explain(chat, name, description, grammar, fullCode, selection)
              == Some(chat(ExplainRequest(ReplaceAll(fullCode, selection.value, Highlighted(selection.value)),
                                          name, description, grammar.value)))
    ensures Contains(fullCode, selection.value) ==>
              Contains(MarkedCode(fullCode, selection), Highlighted(selection.value))
              && MarkedCode(fullCode, selection) != fullCode
  {
    if Contains(fullCode, selection.value) {
      SelectionIsHighlighted(fullCode, selection);
      UnmarkedIffNothingToHighlight(fullCode, selection);
    }
  }
}

/**
 * ContextAwareCompletionConfig: the few-shot prompt and the attempt limits of
 * the context-aware completion assistant, with the checks its setters make.
 */
module CompletionConfig {
  import opened Wrappers
  import opened JavaText

  const CODE_TAG := "{{code}}"
  const INSTRUCTION_TAG := "{{instruction}}"

  /** The two worked examples and the heading that open the default prompt. */
  const DEFAULT_EXAMPLES: string :=
    "MARKED CODE:\ntoken a = Foo;\n[[CURSOR]]\ntoken b = Bar;\n"
    + "INSTRUCTION: Complete the fragment so that tokens a and b work together.\n"
    + "OUTPUT: token a.setNext(token b)\n"
    + "MARKED CODE:\nfunc compute(x) {\n    [[CURSOR]]\n    y = y + 3\n    return y;\n}\n"
    + "INSTRUCTION: Complete the missing piece to double the value of x and store it in y.\n"
    + "OUTPUT: let y = x * 2;\n"
    + "MARKED CODE:\n"

  /** The prompt a new configuration starts with (the text block with its indentation removed). */
  const DEFAULT_FEW_SHOT_PROMPT: string :=
    DEFAULT_EXAMPLES + CODE_TAG + "\nINSTRUCTION: " + INSTRUCTION_TAG + "\nOUTPUT:\n"

  /** Why `setFewShotPrompt` throws. */
  datatype PromptError = NullOrBlank | MissingCodeTag | MissingInstructionTag

  /** Why the three-argument constructor throws. */
  datatype ConfigError = PromptRejected(reason: PromptError) | NegativeFixAttempts | TooFewGenerationAttempts

  /** A prompt `setFewShotPrompt` accepts. */
  predicate IsValidPrompt(prompt: string) {
    !IsBlank(prompt) && Contains(prompt, CODE_TAG) && Contains(prompt, INSTRUCTION_TAG)
  }

  /** The exception `setFewShotPrompt` throws, checks made in the source's order; None when it accepts. */
  function PromptCheck(prompt: Option<string>): Option<PromptError> {
    if prompt.None? || IsBlank(prompt.value) then Some(NullOrBlank)
    else if !Contains(prompt.value, CODE_TAG) then Some(MissingCodeTag)
    else if !Contains(prompt.value, INSTRUCTION_TAG) then Some(MissingInstructionTag)
    else None
  }

  /** The exception the three-argument constructor throws: the prompt is checked first, then the two limits. */
  function ConfigCheck(prompt: Option<string>, maxFixAttempts: int, maxGenerationAttempts: int): Option<ConfigError> {
    if PromptCheck(prompt).Some? then Some(PromptRejected(PromptCheck(prompt).value))
    else if maxFixAttempts < 0 then Some(NegativeFixAttempts)
    else if maxGenerationAttempts < 1 then Some(TooFewGenerationAttempts)
    else None
  }

  /** `setFewShotPrompt` accepts exactly the valid prompts, and a prompt holding the code tag is never blank. */
  lemma PromptCheckAcceptsValid(prompt: Option<string>)
    ensures PromptCheck(prompt).None? <==> prompt.Some? && IsValidPrompt(prompt.value)
    ensures prompt.Some? && Contains(prompt.value, CODE_TAG) ==> PromptCheck(prompt) != Some(NullOrBlank)
  {
    if prompt.Some? && Contains(prompt.value, CODE_TAG) {
      NotBlankAt(CODE_TAG, 0);
      ContainsNonBlankIsNotBlank(prompt.value, CODE_TAG);
    }
  }

  /** The constructor succeeds exactly when all three values are acceptable. */
  lemma ConfigCheckAcceptsValid(prompt: Option<string>, maxFixAttempts: int, maxGenerationAttempts: int)
    ensures ConfigCheck(prompt, maxFixAttempts, maxGenerationAttempts).None?
            <==> prompt.Some? && IsValidPrompt(prompt.value) && maxFixAttempts >= 0 && maxGenerationAttempts >= 1
    ensures ConfigCheck(prompt, maxFixAttempts, maxGenerationAttempts) == Some(NegativeFixAttempts)
            ==> prompt.Some? && IsValidPrompt(prompt.value)
    ensures ConfigCheck(prompt, maxFixAttempts, maxGenerationAttempts) == Some(TooFewGenerationAttempts)
            ==> prompt.Some? && IsValidPrompt(prompt.value) && maxFixAttempts >= 0
  {
    PromptCheckAcceptsValid(prompt);
  }

  /** The default prompt passes the setter's own checks. */
  lemma DefaultPromptValid()
    ensures IsValidPrompt(DEFAULT_FEW_SHOT_PROMPT)
  {
    var p := DEFAULT_FEW_SHOT_PROMPT;
    var head, tail := DEFAULT_EXAMPLES + CODE_TAG + "\nINSTRUCTION: ", "\nINSTRUCTION: " + INSTRUCTION_TAG + "\nOUTPUT:\n";
    assert p == DEFAULT_EXAMPLES + CODE_TAG + tail;
    ContainsMiddle(DEFAULT_EXAMPLES, CODE_TAG, tail);
    ContainsMiddle(head, INSTRUCTION_TAG, "\nOUTPUT:\n");
    NotBlankAt(CODE_TAG, 0);
    ContainsNonBlankIsNotBlank(p, CODE_TAG);
  }

  class ContextAwareCompletionConfig {
    var fewShotPrompt: string
    var maxFixAttempts: int
    var maxGenerationAttempts: int

    /** What every setter keeps true. */
    ghost predicate Valid()
      reads this
    {
      IsValidPrompt(fewShotPrompt) && maxFixAttempts >= 0 && maxGenerationAttempts >= 1
    }

    /** The default configuration: the default prompt, two fix attempts, one generation attempt. */
    constructor()
      ensures fewShotPrompt == DEFAULT_FEW_SHOT_PROMPT && maxFixAttempts == 2 && maxGenerationAttempts == 1
      ensures Valid()
    {
      fewShotPrompt := DEFAULT_FEW_SHOT_PROMPT;
      maxFixAttempts := 2;
      maxGenerationAttempts := 1;
      DefaultPromptValid();
    }

    /** The three-argument constructor: null and the exception where Java throws. */
    static method Create(prompt: Option<string>, maxFixAttempts: int, maxGenerationAttempts: int)
      returns (c: ContextAwareCompletionConfig?, error: Option<ConfigError>)
      ensures error == ConfigCheck(prompt, maxFixAttempts, maxGenerationAttempts)
      ensures c == null <==> error.Some?
      ensures c != null ==> fresh(c) && c.Valid() && c.fewShotPrompt == prompt.value
                            && c.maxFixAttempts == maxFixAttempts && c.maxGenerationAttempts == maxGenerationAttempts
    {
      ConfigCheckAcceptsValid(prompt, maxFixAttempts, maxGenerationAttempts);
      var config := new ContextAwareCompletionConfig();
      var promptError := config.SetFewShotPrompt(prompt);
      if promptError.Some? {
        return null, Some(PromptRejected(promptError.value));
      }
      var ok := config.SetMaxFixAttempts(maxFixAttempts);
      if !ok {
        return null, Some(NegativeFixAttempts);
      }
      ok := config.SetMaxGenerationAttempts(maxGenerationAttempts);
      if !ok {
        return null, Some(TooFewGenerationAttempts);
      }
      return config, None;
    }

    /** `setFewShotPrompt`: takes the prompt, or reports why it throws and changes nothing. */
    method SetFewShotPrompt(prompt: Option<string>) returns (error: Option<PromptError>)
      modifies this`fewShotPrompt
      ensures error == PromptCheck(prompt)
      ensures error.None? ==> fewShotPrompt == prompt.value
      ensures error.Some? ==> fewShotPrompt == old(fewShotPrompt)
      ensures old(Valid()) ==> Valid()
    {
      PromptCheckAcceptsValid(prompt);
      error := PromptCheck(prompt);
      if error.None? {
        fewShotPrompt := prompt.value;
      }
    }

    /** `setMaxFixAttempts`: refuses a negative value and then changes nothing. */
    method SetMaxFixAttempts(value: int) returns (ok: bool)
      modifies this`maxFixAttempts
      ensures ok <==> value >= 0
      ensures maxFixAttempts == if ok then value else old(maxFixAttempts)
      ensures old(Valid()) ==> Valid()
    {
      ok := value >= 0;
      if ok {
        maxFixAttempts := value;
      }
    }

    /** `setMaxGenerationAttempts`: refuses a value below one and then changes nothing. */
    method SetMaxGenerationAttempts(value: int) returns (ok: bool)
      modifies this`maxGenerationAttempts
      ensures ok <==> value >= 1
      ensures maxGenerationAttempts == if ok then value else old(maxGenerationAttempts)
      ensures old(Valid()) ==> Valid()
    {
      ok := value >= 1;
      if ok {
        maxGenerationAttempts := value;
      }
    }
  }
}

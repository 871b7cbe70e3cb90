/**
 * IdentifierSuggestionConfig: the few-shot prompt and the generation attempt
 * limit of the identifier suggestion assistant, with the checks its setters make.
 */
module SuggestionConfig {
  import opened Wrappers
  import opened JavaText

  const CODE_TAG := "{{code}}"

  /** The two worked examples and the heading that open the default prompt. */
  const DEFAULT_EXAMPLES: string :=
    "CONTEXT:\ntype [[CURSOR]] {\n\tid: Int!\n\tshape_id: String!\n\tgeometry: LineString!\n\tgenerated: Boolean!\n}\n"
    + "IDENTIFIERS:\nShapePoint\nRouteSegment\nPathStep\nLinePath\nRoutePoint\n"
    + "CONTEXT:\ntype Frequency {\n\tid: Int!\n\tstart_time: [[CURSOR]]\n\tend_time: Seconds!\n\theadway_secs: Int!\n\texact_times: Int!\n}\n"
    + "IDENTIFIERS:\nSeconds!\nSeconds\nInt!\nInt\nTimestamp!\n"
    + "CONTEXT:\n"

  /** The prompt a new configuration starts with (the text block with its indentation removed). */
  const DEFAULT_FEW_SHOT_PROMPT: string := DEFAULT_EXAMPLES + CODE_TAG + "\nIDENTIFIERS:\n"

  /** Why `setFewShotPrompt` throws. */
  datatype PromptError = NullOrBlank | MissingCodeTag

  /** Why the two-argument constructor throws. */
  datatype ConfigError = PromptRejected(reason: PromptError) | TooFewGenerationAttempts

  /** A prompt `setFewShotPrompt` accepts. */
  predicate IsValidPrompt(prompt: string) {
    !IsBlank(prompt) && Contains(prompt, CODE_TAG)
  }

  /** The exception `setFewShotPrompt` throws, checks made in the source's order; None when it accepts. */
  function PromptCheck(prompt: Option<string>): Option<PromptError> {
    if prompt.None? || IsBlank(prompt.value) then Some(NullOrBlank)
    else if !Contains(prompt.value, CODE_TAG) then Some(MissingCodeTag)
    else None
  }

  /** The exception the two-argument constructor throws: the prompt is checked before the limit. */
  function ConfigCheck(prompt: Option<string>, maxGenerationAttempts: int): Option<ConfigError> {
    if PromptCheck(prompt).Some? then Some(PromptRejected(PromptCheck(prompt).value))
    else if maxGenerationAttempts < 1 then Some(TooFewGenerationAttempts)
    else None
  }

  /** `setFewShotPrompt` accepts exactly the valid prompts, and a prompt holding the code tag is never blank. */
  lemma PromptCheckAcceptsValid(prompt: Option<string>)
    ensures PromptCheck(prompt).None? <==> prompt.Some? && IsValidPrompt(prompt.value)
    ensures prompt.Some? && Contains(prompt.value, CODE_TAG) ==> PromptCheck(prompt).None?
  {
    if prompt.Some? && Contains(prompt.value, CODE_TAG) {
      NotBlankAt(CODE_TAG, 0);
      ContainsNonBlankIsNotBlank(prompt.value, CODE_TAG);
    }
  }

  /** The constructor succeeds exactly when both values are acceptable. */
  lemma ConfigCheckAcceptsValid(prompt: Option<string>, maxGenerationAttempts: int)
    ensures ConfigCheck(prompt, maxGenerationAttempts).None?
            <==> prompt.Some? && IsValidPrompt(prompt.value) && maxGenerationAttempts >= 1
    ensures ConfigCheck(prompt, maxGenerationAttempts) == Some(TooFewGenerationAttempts)
            ==> prompt.Some? && IsValidPrompt(prompt.value)
  {
    PromptCheckAcceptsValid(prompt);
  }

  /** The default prompt passes the setter's own checks. */
  lemma DefaultPromptValid()
    ensures IsValidPrompt(DEFAULT_FEW_SHOT_PROMPT)
  {
    ContainsMiddle(DEFAULT_EXAMPLES, CODE_TAG, "\nIDENTIFIERS:\n");
    NotBlankAt(CODE_TAG, 0);
    ContainsNonBlankIsNotBlank(DEFAULT_FEW_SHOT_PROMPT, CODE_TAG);
  }

  class IdentifierSuggestionConfig {
    var fewShotPrompt: string
    var maxGenerationAttempts: int

    /** What every setter keeps true. */
    ghost predicate Valid()
      reads this
    {
      IsValidPrompt(fewShotPrompt) && maxGenerationAttempts >= 1
    }

    /** The default configuration: the default prompt and one generation attempt. */
    constructor()
      ensures fewShotPrompt == DEFAULT_FEW_SHOT_PROMPT && maxGenerationAttempts == 1
      ensures Valid()
    {
      fewShotPrompt := DEFAULT_FEW_SHOT_PROMPT;
      maxGenerationAttempts := 1;
      DefaultPromptValid();
    }

    /** The two-argument constructor: null and the exception where Java throws. */
    static method Create(prompt: Option<string>, maxGenerationAttempts: int)
      returns (c: IdentifierSuggestionConfig?, error: Option<ConfigError>)
      ensures error == ConfigCheck(prompt, maxGenerationAttempts)
      ensures c == null <==> error.Some?
      ensures c != null ==> fresh(c) && c.Valid() && c.fewShotPrompt == prompt.value
                            && c.maxGenerationAttempts == maxGenerationAttempts
    {
      ConfigCheckAcceptsValid(prompt, maxGenerationAttempts);
      var config := new IdentifierSuggestionConfig();
      var promptError := config.SetFewShotPrompt(prompt);
      if promptError.Some? {
        return null, Some(PromptRejected(promptError.value));
      }
      var ok := config.SetMaxGenerationAttempts(maxGenerationAttempts);
      if !ok {
        return null, Some(TooFewGenerationAttempts);
      }
      return config, None;
    }

    /** `setFewShotPrompt`: takes the prompt, or reports why it throws and changes nothing. */
    method SetFewShotPrompt(prompt: Option<string>) returns (error: Option<PromptError>)
      modifies this`fewShotPrompt
      ensures error == PromptCheck(prompt)
      ensures error.None? ==> fewShotPrompt == prompt.value
      ensures error.Some? ==> fewShotPrompt == old(fewShotPrompt)
      ensures old(Valid()) ==> Valid()
    {
      PromptCheckAcceptsValid(prompt);
      error := PromptCheck(prompt);
      if error.None? {
        fewShotPrompt := prompt.value;
      }
    }

    /** `setMaxGenerationAttempts`: refuses a value below one and then changes nothing. */
    method SetMaxGenerationAttempts(value: int) returns (ok: bool)
      modifies this`maxGenerationAttempts
      ensures ok <==> value >= 1
      ensures maxGenerationAttempts == if ok then value else old(maxGenerationAttempts)
      ensures old(Valid()) ==> Valid()
    {
      ok := value >= 1;
      if ok {
        maxGenerationAttempts := value;
      }
    }
  }
}

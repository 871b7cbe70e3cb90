/**
 * DslProfile: everything the plugin knows about one DSL — its name, file
 * extension, grammar file, example scripts, documentation embeddings and the
 * settings of the two generation tasks. The guarded setters refuse empty
 * values; the others replace null with an empty or default value.
 */
module Profile {
  import opened Wrappers
  import opened JavaText
  import opened Files
  import opened Embeddings
  import opened CompletionConfig
  import opened SuggestionConfig

  /** A non-null, non-blank string: what `setName`, `setFileExtension` and `setStandaloneSetupClass` accept. */
  predicate IsPresent(s: Option<string>) {
    s.Some? && !IsBlank(s.value)
  }

  /** `setDescription`: null becomes the empty string. */
  function DescriptionOf(description: Option<string>): (r: string)
    ensures description.Some? ==> r == description.value
    ensures description.None? ==> r == ""
  {
    if description.Some? then description.value else ""
  }

  /** Why the three-argument constructor throws. */
  datatype ProfileError = InvalidName | InvalidExtension | InvalidXtextFile

  /** The exception the three-argument constructor throws, its setters called in the source's order; None when it succeeds. */
  function ProfileCheck(name: Option<string>, extension: Option<string>, xtextFile: ExternalFile?): Option<ProfileError>
    reads xtextFile
  {
    if !IsPresent(name) then Some(InvalidName)
    else if !IsPresent(extension) then Some(InvalidExtension)
    else if !HasUsableSource(xtextFile) then Some(InvalidXtextFile)
    else None
  }

  /** The constructor succeeds exactly when all three values are acceptable, and each error names the first bad one. */
  lemma ProfileCheckFirstFailure(name: Option<string>, extension: Option<string>, xtextFile: ExternalFile?)
    ensures ProfileCheck(name, extension, xtextFile).None?
            <==> IsPresent(name) && IsPresent(extension) && HasUsableSource(xtextFile)
    ensures ProfileCheck(name, extension, xtextFile) == Some(InvalidName) <==> !IsPresent(name)
    ensures ProfileCheck(name, extension, xtextFile) == Some(InvalidExtension)
            <==> IsPresent(name) && !IsPresent(extension)
    ensures ProfileCheck(name, extension, xtextFile) == Some(InvalidXtextFile)
            <==> IsPresent(name) && IsPresent(extension) && !HasUsableSource(xtextFile)
  {
  }

  class DslProfile {
    var name: Option<string>
    var description: Option<string>
    var xtextFile: ExternalFile?
    var fileExtension: Option<string>
    var standaloneSetupClass: Option<string>
    var scriptExamples: seq<ExternalFile>
    var embeddingManager: EmbeddingManager
    var codeCompletionConfig: ContextAwareCompletionConfig
    var identifierSuggestionConfig: IdentifierSuggestionConfig

    /** What the guarded setters keep true: each guarded field is unset or holds an accepted value. */
    ghost predicate Valid()
      reads this, xtextFile
    {
      (name.None? || IsPresent(name))
      && (fileExtension.None? || IsPresent(fileExtension))
      && (standaloneSetupClass.None? || IsPresent(standaloneSetupClass))
      && (xtextFile == null || HasUsableSource(xtextFile))
    }

    /** The no-argument constructor: nothing named yet, no examples, an empty manager and default task settings. */
    constructor ()
      ensures name == None && description == None && xtextFile == null
      ensures fileExtension == None && standaloneSetupClass == None && scriptExamples == []
      ensures fresh(embeddingManager) && embeddingManager.embeddingIds == []
      ensures embeddingManager.embeddedFiles == [] && embeddingManager.pendingEmbeddingFiles == []
      ensures fresh(codeCompletionConfig) && codeCompletionConfig.fewShotPrompt == CompletionConfig.DEFAULT_FEW_SHOT_PROMPT
      ensures codeCompletionConfig.maxFixAttempts == 2 && codeCompletionConfig.maxGenerationAttempts == 1
      ensures fresh(identifierSuggestionConfig)
      ensures identifierSuggestionConfig.fewShotPrompt == SuggestionConfig.DEFAULT_FEW_SHOT_PROMPT
      ensures identifierSuggestionConfig.maxGenerationAttempts == 1
      ensures codeCompletionConfig.Valid() && identifierSuggestionConfig.Valid()
      ensures Valid()
    {
      name, description, xtextFile := None, None, null;
      fileExtension, standaloneSetupClass := None, None;
      scriptExamples := [];
      embeddingManager := new EmbeddingManager();
      codeCompletionConfig := new ContextAwareCompletionConfig();
      identifierSuggestionConfig := new IdentifierSuggestionConfig();
    }

    /**
     * The three-argument constructor: sets the name, the extension and the xtext
     * file in that order. Returns null and the exception where Java throws.
     */
    static method Create(name: Option<string>, extension: Option<string>, xtextFile: ExternalFile?)
      returns (p: DslProfile?, error: Option<ProfileError>)
      ensures error == ProfileCheck(name, extension, xtextFile)
      ensures p == null <==> error.Some?
      ensures p != null ==> fresh(p) && p.Valid() && p.name == name && p.fileExtension == extension
                            && p.xtextFile == xtextFile && p.description == None
                            && p.standaloneSetupClass == None && p.scriptExamples == []
      ensures p != null ==> fresh(p.embeddingManager) && p.embeddingManager.embeddingIds == []
                            && p.embeddingManager.embeddedFiles == [] && p.embeddingManager.pendingEmbeddingFiles == []
      ensures p != null ==> fresh(p.codeCompletionConfig) && p.codeCompletionConfig.Valid()
                            && fresh(p.identifierSuggestionConfig) && p.identifierSuggestionConfig.Valid()
      ensures p != null ==> p.codeCompletionConfig.fewShotPrompt == CompletionConfig.DEFAULT_FEW_SHOT_PROMPT
                            && p.codeCompletionConfig.maxFixAttempts == 2
                            && p.codeCompletionConfig.maxGenerationAttempts == 1
      ensures p != null ==> p.identifierSuggestionConfig.fewShotPrompt == SuggestionConfig.DEFAULT_FEW_SHOT_PROMPT
                            && p.identifierSuggestionConfig.maxGenerationAttempts == 1
    {
      var profile := new DslProfile();
      var ok := profile.SetName(name);
      if !ok {
        return null, Some(InvalidName);
      }
      ok := profile.SetFileExtension(extension);
      if !ok {
        return null, Some(InvalidExtension);
      }
      ok := profile.SetXtextFile(xtextFile);
      if !ok {
        return null, Some(InvalidXtextFile);
      }
      return profile, None;
    }

    /** `setName`: refuses a null or blank name (the exception) and then changes nothing. */
    method SetName(value: Option<string>) returns (ok: bool)
      modifies this`name
      ensures ok <==> IsPresent(value)
      ensures name == if ok then value else old(name)
      ensures old(Valid()) ==> Valid()
    {
      ok := IsPresent(value);
      if ok {
        name := value;
      }
    }

    /** `setDescription`: null is stored as the empty string. */
    method SetDescription(value: Option<string>)
      modifies this`description
      ensures description == Some(DescriptionOf(value))
      ensures old(Valid()) ==> Valid()
    {
      description := Some(DescriptionOf(value));
    }

    /** `setXtextFile`: refuses a null file or one without a usable source path, and then changes nothing. */
    method SetXtextFile(file: ExternalFile?) returns (ok: bool)
      modifies this`xtextFile
      ensures ok <==> HasUsableSource(file)
      ensures xtextFile == if ok then file else old(xtextFile)
      ensures old(Valid()) ==> Valid()
    {
      ok := HasUsableSource(file);
      if ok {
        xtextFile := file;
      }
    }

    /** `setFileExtension`: refuses a null or blank extension and then changes nothing. */
    method SetFileExtension(value: Option<string>) returns (ok: bool)
      modifies this`fileExtension
      ensures ok <==> IsPresent(value)
      ensures fileExtension == if ok then value else old(fileExtension)
      ensures old(Valid()) ==> Valid()
    {
      ok := IsPresent(value);
      if ok {
        fileExtension := value;
      }
    }

    /** `setStandaloneSetupClass`: refuses a null or blank class name and then changes nothing. */
    method SetStandaloneSetupClass(value: Option<string>) returns (ok: bool)
      modifies this`standaloneSetupClass
      ensures ok <==> IsPresent(value)
      ensures standaloneSetupClass == if ok then value else old(standaloneSetupClass)
      ensures old(Valid()) ==> Valid()
    {
      ok := IsPresent(value);
      if ok {
        standaloneSetupClass := value;
      }
    }

    /** `setScriptExamples`: null becomes a new empty list. */
    method SetScriptExamples(examples: Option<seq<ExternalFile>>)
      modifies this`scriptExamples
      ensures scriptExamples == if examples.Some? then examples.value else []
      ensures old(Valid()) ==> Valid()
    {
      scriptExamples := if examples.Some? then examples.value else [];
    }

    /** `setEmbeddingManager`: null becomes a new, empty manager. */
    method SetEmbeddingManager(manager: EmbeddingManager?)
      modifies this`embeddingManager
      ensures manager != null ==> embeddingManager == manager
      ensures manager == null ==> fresh(embeddingManager) && embeddingManager.embeddingIds == []
                                  && embeddingManager.embeddedFiles == [] && embeddingManager.pendingEmbeddingFiles == []
      ensures old(Valid()) ==> Valid()
    {
      if manager != null {
        embeddingManager := manager;
      } else {
        embeddingManager := new EmbeddingManager();
      }
    }

    /** `setCodeCompletionConfig`: null becomes a new default configuration. */
    method SetCodeCompletionConfig(config: ContextAwareCompletionConfig?)
      modifies this`codeCompletionConfig
      ensures config != null ==> codeCompletionConfig == config
      ensures config == null ==> fresh(codeCompletionConfig) && codeCompletionConfig.Valid()
                                 && codeCompletionConfig.fewShotPrompt == CompletionConfig.DEFAULT_FEW_SHOT_PROMPT
                                 && codeCompletionConfig.maxFixAttempts == 2
                                 && codeCompletionConfig.maxGenerationAttempts == 1
      ensures old(Valid()) ==> Valid()
    {
      if config != null {
        codeCompletionConfig := config;
      } else {
        codeCompletionConfig := new ContextAwareCompletionConfig();
      }
    }

    /** `setIdentifierSuggestionConfig`: null becomes a new default configuration. */
    method SetIdentifierSuggestionConfig(config: IdentifierSuggestionConfig?)
      modifies this`identifierSuggestionConfig
      ensures config != null ==> identifierSuggestionConfig == config
      ensures config == null ==> fresh(identifierSuggestionConfig) && identifierSuggestionConfig.Valid()
                                 && identifierSuggestionConfig.fewShotPrompt == SuggestionConfig.DEFAULT_FEW_SHOT_PROMPT
                                 && identifierSuggestionConfig.maxGenerationAttempts == 1
      ensures old(Valid()) ==> Valid()
    {
      if config != null {
        identifierSuggestionConfig := config;
      } else {
        identifierSuggestionConfig := new IdentifierSuggestionConfig();
      }
    }
  }
}

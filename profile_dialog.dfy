/**
 * The profile edit dialog's OK button: checks the field values in a fixed
 * order, reporting the first problem and staying open, and otherwise builds
 * the resulting DslProfile through its setters.
 */
module ProfileDialog {
  import opened Wrappers
  import opened JavaText
  import opened Files
  import opened EmbeddableFiles
  import opened Embeddings
  import CompletionConfig
  import SuggestionConfig
  import opened Profile

  /** The texts of the dialog's fields and the selections of its three spinners, as `okPressed` reads them. */
  datatype Form = Form(name: string, description: string, xtextFilePath: string, fileExtension: string,
                       standaloneSetup: string, completionPrompt: string, identifierPrompt: string,
                       fixAttempts: int, completionGenerationAttempts: int, identifierGenerationAttempts: int)

  /** The error messages of `okPressed`, one per check. */
  datatype FormError =
    | BlankName | DuplicateName | EmptyXtextPath | BlankExtension | DottedExtension | DuplicateExtension
    | BlankSetupClass | CompletionPromptTags | IdentifierPromptTag

  /** The position of each check in `okPressed`. */
  function Rank(e: FormError): nat {
    match e
    case BlankName => 0
    case DuplicateName => 1
    case EmptyXtextPath => 2
    case BlankExtension => 3
    case DottedExtension => 4
    case DuplicateExtension => 5
    case BlankSetupClass => 6
    case CompletionPromptTags => 7
    case IdentifierPromptTag => 8
  }

  /** Whether the form fails the check behind `e`, taken on its own. */
  predicate Fails(form: Form, names: seq<string>, extensions: seq<string>, e: FormError) {
    match e
    case BlankName => IsBlank(Trim(form.name))
    case DuplicateName => Trim(form.name) in names
    case EmptyXtextPath => form.xtextFilePath == ""
    case BlankExtension => IsBlank(form.fileExtension)
    case DottedExtension => Contains(form.fileExtension, ".")
    case DuplicateExtension => form.fileExtension in extensions
    case BlankSetupClass => IsBlank(form.standaloneSetup)
    case CompletionPromptTags =>
      !Contains(form.completionPrompt, CompletionConfig.CODE_TAG)
      || !Contains(form.completionPrompt, CompletionConfig.INSTRUCTION_TAG)
    case IdentifierPromptTag => !Contains(form.identifierPrompt, SuggestionConfig.CODE_TAG)
  }

  /**
   * The validation part of `okPressed`, given the names and extensions of the
   * other profiles: the error it shows, or None when every check passes.
   */
  function FormCheck(form: Form, names: seq<string>, extensions: seq<string>): Option<FormError> {
    if Fails(form, names, extensions, BlankName) then Some(BlankName)
    else if Fails(form, names, extensions, DuplicateName) then Some(DuplicateName)
    else if Fails(form, names, extensions, EmptyXtextPath) then Some(EmptyXtextPath)
    else if Fails(form, names, extensions, BlankExtension) then Some(BlankExtension)
    else if Fails(form, names, extensions, DottedExtension) then Some(DottedExtension)
    else if Fails(form, names, extensions, DuplicateExtension) then Some(DuplicateExtension)
    else if Fails(form, names, extensions, BlankSetupClass) then Some(BlankSetupClass)
    else if Fails(form, names, extensions, CompletionPromptTags) then Some(CompletionPromptTags)
    else if Fails(form, names, extensions, IdentifierPromptTag) then Some(IdentifierPromptTag)
    else None
  }

  /** The first check, in the source's order, that `fails` marks as failing. */
  function FirstFailure(fails: FormError -> bool): Option<FormError> {
    if fails(BlankName) then Some(BlankName)
    else if fails(DuplicateName) then Some(DuplicateName)
    else if fails(EmptyXtextPath) then Some(EmptyXtextPath)
    else if fails(BlankExtension) then Some(BlankExtension)
    else if fails(DottedExtension) then Some(DottedExtension)
    else if fails(DuplicateExtension) then Some(DuplicateExtension)
    else if fails(BlankSetupClass) then Some(BlankSetupClass)
    else if fails(CompletionPromptTags) then Some(CompletionPromptTags)
    else if fails(IdentifierPromptTag) then Some(IdentifierPromptTag)
    else None
  }

  /** Every error has its own position. */
  lemma RankInjective(e: FormError, e': FormError)
    ensures Rank(e) == Rank(e') ==> e == e'
  {
  }

  /** `FirstFailure` picks a failing check before which every check passes, and nothing else. */
  lemma FirstFailureIsFirst(fails: FormError -> bool, e: FormError)
    ensures FirstFailure(fails) == Some(e) <==> fails(e) && forall e' :: Rank(e') < Rank(e) ==> !fails(e')
  {
    if FirstFailure(fails) == Some(e) {
      forall e' | Rank(e') < Rank(e)
        ensures !fails(e')
      {
      }
    }
    if fails(e) && forall e' :: Rank(e') < Rank(e) ==> !fails(e') {
      var f := FirstFailure(fails);
      assert f.Some?;
      assert Rank(f.value) <= Rank(e);
      assert fails(f.value);
      RankInjective(e, f.value);
    }
  }

  /** The validation chain of `okPressed` is the first failing check. */
  lemma FormCheckIsFirstFailure(form: Form, names: seq<string>, extensions: seq<string>)
    ensures FormCheck(form, names, extensions) == FirstFailure(e => Fails(form, names, extensions, e))
  {
  }

  /**
   * The error shown is the first failing check in the source's order: it fails,
   * and every check before it passes.
   */
  lemma FormCheckReportsFirstFailure(form: Form, names: seq<string>, extensions: seq<string>, e: FormError)
    ensures FormCheck(form, names, extensions) == Some(e)
            <==> Fails(form, names, extensions, e)
                 && forall e' :: Rank(e') < Rank(e) ==> !Fails(form, names, extensions, e')
  {
    var fails := e => Fails(form, names, extensions, e);
    FormCheckIsFirstFailure(form, names, extensions);
    FirstFailureIsFirst(fails, e);
    assert forall e' :: fails(e') == Fails(form, names, extensions, e');
  }

  /** The dialog closes with a result exactly when no check fails. */
  lemma FormCheckAcceptsIffAllPass(form: Form, names: seq<string>, extensions: seq<string>)
    ensures FormCheck(form, names, extensions).None? <==> forall e :: !Fails(form, names, extensions, e)
  {
    if FormCheck(form, names, extensions).None? {
      forall e
        ensures !Fails(form, names, extensions, e)
      {
        FormCheckReportsFirstFailure(form, names, extensions, e);
      }
    } else {
      FormCheckReportsFirstFailure(form, names, extensions, FormCheck(form, names, extensions).value);
    }
  }

  /**
   * A form that passes every check satisfies every setter the saving part calls
   * with it: a non-blank name, extension and class name, and prompts both
   * configurations accept.
   */
  lemma AcceptedFormFitsSetters(form: Form, names: seq<string>, extensions: seq<string>)
    requires FormCheck(form, names, extensions).None?
    ensures IsPresent(Some(Trim(form.name))) && IsPresent(Some(form.fileExtension))
    ensures IsPresent(Some(form.standaloneSetup)) && form.xtextFilePath != ""
    ensures Trim(form.name) !in names && form.fileExtension !in extensions
    ensures !Contains(form.fileExtension, ".")
    ensures CompletionConfig.PromptCheck(Some(form.completionPrompt)).None?
    ensures SuggestionConfig.PromptCheck(Some(form.identifierPrompt)).None?
  {
    CompletionConfig.PromptCheckAcceptsValid(Some(form.completionPrompt));
    SuggestionConfig.PromptCheckAcceptsValid(Some(form.identifierPrompt));
  }

  /**
   * Only emptiness of the xtext path is checked: in a form that passes, the path
   * may be replaced by any non-empty string, blank ones included, and the form
   * still passes.
   */
  lemma OnlyEmptyXtextPathFails(form: Form, names: seq<string>, extensions: seq<string>, path: string)
    requires FormCheck(form, names, extensions).None?
    ensures FormCheck(form.(xtextFilePath := path), names, extensions).None? <==> path != ""
  {
  }

  /** The path without the separators at its end. */
  function DropTrailingSlashes(p: string): (r: string)
    ensures |r| <= |p| && r == p[..|r|]
    ensures r == [] || r[|r| - 1] != '/'
    ensures forall i :: |r| <= i < |p| ==> p[i] == '/'
  {
    if p != [] && p[|p| - 1] == '/' then DropTrailingSlashes(p[..|p| - 1]) else p
  }

  /** The characters after the last separator. */
  function AfterLastSlash(p: string): (r: string)
    ensures |r| <= |p| && r == p[|p| - |r|..]
    ensures forall i :: 0 <= i < |r| ==> r[i] != '/'
    ensures |r| < |p| ==> p[|p| - |r| - 1] == '/'
  {
    if p == [] || p[|p| - 1] == '/' then [] else AfterLastSlash(p[..|p| - 1]) + [p[|p| - 1]]
  }

  /**
   * `Path.of(p).getFileName()` on a Unix file system: the last name element,
   * ignoring trailing separators; null for a path made of separators only.
   */
  function FileNameOf(p: string): Option<string> {
    var q := DropTrailingSlashes(p);
    if q == [] && p != [] then None else Some(AfterLastSlash(q))
  }

  /**
   * The file name is the last separator-free part of the path: for a non-empty
   * path it exists exactly when the path holds something besides separators,
   * and it is then non-empty, holds no separator and ends the path, trailing
   * separators aside.
   */
  lemma FileNameIsLastElement(p: string)
    requires p != []
    ensures FileNameOf(p).Some? <==> exists i :: 0 <= i < |p| && p[i] != '/'
    ensures FileNameOf(p).Some? ==>
              var n := FileNameOf(p).value;
              n != [] && (forall i :: 0 <= i < |n| ==> n[i] != '/')
              && n == p[|DropTrailingSlashes(p)| - |n|..|DropTrailingSlashes(p)|]
  {
    var q := DropTrailingSlashes(p);
    if q != [] {
      assert p[|q| - 1] == q[|q| - 1] != '/';
      var n := AfterLastSlash(q);
      assert n != [];
      assert n == q[|q| - |n|..];
    } else {
      forall i | 0 <= i < |p|
        ensures p[i] == '/'
      {
      }
    }
  }

  /**
   * The text `loadContents` puts in the xtext field for a file: its relative
   * path when that is non-null, and its source path otherwise.
   */
  function ShownPath(sourcePath: Option<string>, relativePath: Option<string>): Option<string> {
    if relativePath.Some? then relativePath else sourcePath
  }

  /** What `okPressed` saves as the xtext file when editing: the original file, or a new one built from a path. */
  datatype XtextChoice = KeepOriginal | BuildFrom(path: string)

  /** The source path of the saved xtext file, given the original's source path. */
  function SavedSource(choice: XtextChoice, sourcePath: string): string {
    match choice
    case KeepOriginal => sourcePath
    case BuildFrom(p) => p
  }

  /** The text the field shows for the saved xtext file the next time the dialog opens. */
  function ShownAfterSave(choice: XtextChoice, sourcePath: string, relativePath: Option<string>): Option<string> {
    match choice
    case KeepOriginal => ShownPath(Some(sourcePath), relativePath)
    case BuildFrom(p) => ShownPath(Some(p), None)
  }

  /**
   * The choice as written: the original file is kept when its source path
   * differs from the field, and a new file is built from the field when they
   * are equal.
   */
  function XtextChoiceAsWritten(sourcePath: string, fieldPath: string): XtextChoice {
    if sourcePath != fieldPath then KeepOriginal else BuildFrom(fieldPath)
  }

  /**
   * As written, editing a profile can never change its xtext file: the saved
   * source path is always the original one, and a browsed path that differs
   * from it is dropped.
   */
  lemma XtextPathNeverChangesAsWritten(sourcePath: string, relativePath: Option<string>, fieldPath: string)
    ensures SavedSource(XtextChoiceAsWritten(sourcePath, fieldPath), sourcePath) == sourcePath
    ensures fieldPath != sourcePath && relativePath == None ==>
              ShownAfterSave(XtextChoiceAsWritten(sourcePath, fieldPath), sourcePath, relativePath) != Some(fieldPath)
  {
  }

  /** The same, on an instance: browsing "b.xtext" for a profile built on "a.xtext" keeps "a.xtext". */
  lemma XtextPathNeverChangesExample()
    ensures XtextChoiceAsWritten("a.xtext", "b.xtext") == KeepOriginal
    ensures ShownAfterSave(XtextChoiceAsWritten("a.xtext", "b.xtext"), "a.xtext", None) == Some("a.xtext")
  {
  }

  /**
   * The evident intent: keep the original file while the field still shows it,
   * and build a new one from any other path.
   */
  function XtextChoiceIntended(sourcePath: string, relativePath: Option<string>, fieldPath: string): XtextChoice {
    if ShownPath(Some(sourcePath), relativePath) == Some(fieldPath) then KeepOriginal else BuildFrom(fieldPath)
  }

  /**
   * With the intended choice, the saved xtext file shows exactly the text of
   * the field, and the original is kept exactly when the field was left as shown.
   */
  lemma XtextPathFollowsField(sourcePath: string, relativePath: Option<string>, fieldPath: string)
    ensures ShownAfterSave(XtextChoiceIntended(sourcePath, relativePath, fieldPath), sourcePath, relativePath)
            == Some(fieldPath)
    ensures XtextChoiceIntended(sourcePath, relativePath, fieldPath) == KeepOriginal
            <==> ShownPath(Some(sourcePath), relativePath) == Some(fieldPath)
  {
  }

  /**
   * For a saved profile, whose xtext file has been given a relative path other
   * than its source path, a field left as shown keeps the original file both as
   * written and as intended; the two differ only once another path is chosen.
   */
  lemma ChoicesAgreeOnUnchangedField(sourcePath: string, relativePath: string)
    requires relativePath != sourcePath
    ensures XtextChoiceAsWritten(sourcePath, relativePath) == KeepOriginal
    ensures XtextChoiceIntended(sourcePath, Some(relativePath), relativePath) == KeepOriginal
  {
  }

  /** Editing a profile whose xtext file has a source path, with the field showing that file. */
  predicate ShowsOriginalXtext(original: DslProfile?, fieldPath: string)
    reads original, if original != null then {original.xtextFile} else {}
  {
    original != null && original.xtextFile != null && original.xtextFile.sourcePath.Some?
    && XtextChoiceIntended(original.xtextFile.sourcePath.value, original.xtextFile.relativePath, fieldPath)
       == KeepOriginal
  }

  /**
   * The saved xtext file shows the text of the field: it is the original file
   * when the field still showed that one, and otherwise a new file whose source
   * path is the field and which has no relative path yet.
   */
  predicate XtextFollowsField(original: DslProfile?, file: ExternalFile?, fieldPath: string)
    reads original, if original != null then {original.xtextFile} else {}, file
  {
    file != null && ShownPath(file.sourcePath, file.relativePath) == Some(fieldPath)
    && if ShowsOriginalXtext(original, fieldPath) then file == original.xtextFile
       else file.sourcePath == Some(fieldPath) && file.relativePath == None
  }

  /** The names of the profiles, in order. */
  function NamesOf(profiles: seq<DslProfile>): (names: seq<string>)
    reads set p | p in profiles
    requires forall i :: 0 <= i < |profiles| ==> profiles[i].name.Some?
    ensures |names| == |profiles|
    ensures forall i :: 0 <= i < |profiles| ==> names[i] == profiles[i].name.value
  {
    if profiles == [] then []
    else NamesOf(profiles[..|profiles| - 1]) + [profiles[|profiles| - 1].name.value]
  }

  /** The file extensions of the profiles, in order. */
  function ExtensionsOf(profiles: seq<DslProfile>): (extensions: seq<string>)
    reads set p | p in profiles
    requires forall i :: 0 <= i < |profiles| ==> profiles[i].fileExtension.Some?
    ensures |extensions| == |profiles|
    ensures forall i :: 0 <= i < |profiles| ==> extensions[i] == profiles[i].fileExtension.value
  {
    if profiles == [] then []
    else ExtensionsOf(profiles[..|profiles| - 1]) + [profiles[|profiles| - 1].fileExtension.value]
  }

  /** The plain fields `okPressed` sets on the new profile hold the form's values and the dialog's examples. */
  predicate FieldsFollowForm(profile: DslProfile, form: Form, examples: seq<ExternalFile>)
    reads profile
  {
    profile.description == Some(form.description) && profile.standaloneSetupClass == Some(form.standaloneSetup)
    && profile.scriptExamples == examples
  }

  /** The profile's two configurations hold the form's prompts and spinner selections. */
  predicate ConfigsFollowForm(profile: DslProfile, form: Form)
    reads profile, profile.codeCompletionConfig, profile.identifierSuggestionConfig
  {
    var completion := profile.codeCompletionConfig;
    var suggestion := profile.identifierSuggestionConfig;
    completion.fewShotPrompt == form.completionPrompt && completion.maxFixAttempts == form.fixAttempts
    && completion.maxGenerationAttempts == form.completionGenerationAttempts
    && suggestion.fewShotPrompt == form.identifierPrompt
    && suggestion.maxGenerationAttempts == form.identifierGenerationAttempts
  }

  /** The three setters `okPressed` calls on the code completion configuration, with values the form checks passed. */
  method ConfigureCompletion(config: CompletionConfig.ContextAwareCompletionConfig, form: Form)
    requires CompletionConfig.PromptCheck(Some(form.completionPrompt)).None?
    requires form.fixAttempts >= 0 && form.completionGenerationAttempts >= 1
    modifies config
    ensures config.fewShotPrompt == form.completionPrompt && config.maxFixAttempts == form.fixAttempts
    ensures config.maxGenerationAttempts == form.completionGenerationAttempts
    ensures old(config.Valid()) ==> config.Valid()
  {
    var error := config.SetFewShotPrompt(Some(form.completionPrompt));
    var ok := config.SetMaxFixAttempts(form.fixAttempts);
    ok := config.SetMaxGenerationAttempts(form.completionGenerationAttempts);
  }

  /** The two setters `okPressed` calls on the identifier suggestion configuration. */
  method ConfigureSuggestion(config: SuggestionConfig.IdentifierSuggestionConfig, form: Form)
    requires SuggestionConfig.PromptCheck(Some(form.identifierPrompt)).None?
    requires form.identifierGenerationAttempts >= 1
    modifies config
    ensures config.fewShotPrompt == form.identifierPrompt
    ensures config.maxGenerationAttempts == form.identifierGenerationAttempts
    ensures old(config.Valid()) ==> config.Valid()
  {
    var error := config.SetFewShotPrompt(Some(form.identifierPrompt));
    var ok := config.SetMaxGenerationAttempts(form.identifierGenerationAttempts);
  }

  /** What pressing OK did. */
  datatype Outcome =
    | Rejected(error: FormError)  // an error message was shown; the dialog stays open
    | Failed                      // an exception escaped from the saving part
    | Saved                       // the result was built and the dialog closes

  class DslProfileDialog {
    const original: DslProfile?
    const existingProfiles: seq<DslProfile>
    var examples: seq<ExternalFile>
    var documentation: seq<EmbeddableExternalFile?>
    var result: DslProfile?

    /** A dialog editing `original` (null for a new profile) beside the other profiles. */
    constructor (original: DslProfile?, existingProfiles: seq<DslProfile>)
      ensures this.original == original && this.existingProfiles == existingProfiles
      ensures examples == [] && documentation == [] && result == null
    {
      this.original := original;
      this.existingProfiles := existingProfiles;
      examples, documentation, result := [], [], null;
    }

    /**
     * The xtext file to save: when editing and the field still shows the
     * original file, the original file; otherwise a new file from the path,
     * named after its last element. Null where Java throws: the original has no
     * xtext file or source path, the path has no file name, or the new file
     * refuses it.
     */
    method ChooseXtextFile(path: string) returns (file: ExternalFile?)
      ensures ShowsOriginalXtext(original, path) ==> file == original.xtextFile
      ensures original != null && (original.xtextFile == null || original.xtextFile.sourcePath.None?) ==> file == null
      ensures (original == null || (original.xtextFile != null && original.xtextFile.sourcePath.Some?
                                    && !ShowsOriginalXtext(original, path)))
              ==> (file == null <==> !(IsAcceptedSource(Some(path)) && IsAcceptedName(FileNameOf(path))))
                  && (file != null ==> fresh(file) && file.sourcePath == Some(path)
                                       && file.originalFileName == FileNameOf(path) && file.relativePath == None)
    {
      if original != null {
        var current := original.xtextFile;
        if current == null || current.sourcePath.None? {
          return null;
        }
        if XtextChoiceIntended(current.sourcePath.value, current.relativePath, path) == KeepOriginal {
          return current;
        }
      }
      var fileName := FileNameOf(path);
      if fileName.None? {
        return null;
      }
      file := ExternalFile.Create(Some(path), fileName);
    }

    /**
     * `okPressed`. The spinners keep their selections at or above their minimums
     * (0 fix attempts, 1 generation attempt), and the other profiles all have a
     * name and an extension.
     */
    method OkPressed(form: Form) returns (outcome: Outcome)
      requires form.fixAttempts >= 0 && form.completionGenerationAttempts >= 1 && form.identifierGenerationAttempts >= 1
      requires forall i :: 0 <= i < |existingProfiles| ==> existingProfiles[i].name.Some?
      requires forall i :: 0 <= i < |existingProfiles| ==> existingProfiles[i].fileExtension.Some?
      modifies this`result, if original != null then {original.embeddingManager} else {}
      ensures outcome.Rejected? <==> old(FormCheck(form, NamesOf(existingProfiles), ExtensionsOf(existingProfiles))).Some?
      ensures outcome.Rejected? ==>
                outcome.error == old(FormCheck(form, NamesOf(existingProfiles), ExtensionsOf(existingProfiles))).value
                && result == old(result)
      ensures outcome.Saved? ==> result != null && fresh(result) && result.Valid()
      ensures outcome.Saved? ==> result.name == Some(Trim(form.name)) && result.fileExtension == Some(form.fileExtension)
      ensures outcome.Saved? ==> FieldsFollowForm(result, form, examples) && ConfigsFollowForm(result, form)
      ensures outcome.Saved? ==> XtextFollowsField(original, result.xtextFile, form.xtextFilePath)
      ensures outcome.Saved? && !ShowsOriginalXtext(original, form.xtextFilePath) ==> fresh(result.xtextFile)
      ensures outcome.Saved? ==> (if original != null then result.embeddingManager == original.embeddingManager
                                  else fresh(result.embeddingManager))
                                 && multiset(result.embeddingManager.GetFiles()) == multiset(documentation)
      ensures outcome.Saved? ==> old(AcceptedCount(Placements(documentation))) == |documentation|
    {
      var names := NamesOf(existingProfiles);
      var extensions := ExtensionsOf(existingProfiles);
      var error := FormCheck(form, names, extensions);
      if error.Some? {
        return Rejected(error.value);
      }
      AcceptedFormFitsSetters(form, names, extensions);
      outcome := Commit(form);
    }

    /** What `okPressed` does once every check passed: saves, and keeps the profile built in `result`. */
    method Commit(form: Form) returns (outcome: Outcome)
      requires IsPresent(Some(Trim(form.name))) && IsPresent(Some(form.fileExtension))
      requires IsPresent(Some(form.standaloneSetup))
      requires CompletionConfig.PromptCheck(Some(form.completionPrompt)).None?
      requires SuggestionConfig.PromptCheck(Some(form.identifierPrompt)).None?
      requires form.fixAttempts >= 0 && form.completionGenerationAttempts >= 1 && form.identifierGenerationAttempts >= 1
      modifies this`result, if original != null then {original.embeddingManager} else {}
      ensures outcome == Saved || outcome == Failed
      ensures outcome.Saved? ==> result != null && fresh(result) && result.Valid()
      ensures outcome.Saved? ==> result.name == Some(Trim(form.name)) && result.fileExtension == Some(form.fileExtension)
      ensures outcome.Saved? ==> FieldsFollowForm(result, form, examples) && ConfigsFollowForm(result, form)
      ensures outcome.Saved? ==> XtextFollowsField(original, result.xtextFile, form.xtextFilePath)
      ensures outcome.Saved? && !ShowsOriginalXtext(original, form.xtextFilePath) ==> fresh(result.xtextFile)
      ensures outcome.Saved? ==> (if original != null then result.embeddingManager == original.embeddingManager
                                  else fresh(result.embeddingManager))
                                 && multiset(result.embeddingManager.GetFiles()) == multiset(documentation)
      ensures outcome.Saved? ==> old(AcceptedCount(Placements(documentation))) == |documentation|
    {
      var profile;
      outcome, profile := Save(form);
      result := if profile != null then profile else result;
    }

    /**
     * The saving part of `okPressed`, reached once every check passed: the
     * xtext file, the new profile, and the setters on it. Failed where Java
     * throws.
     */
    method Save(form: Form) returns (outcome: Outcome, profile: DslProfile?)
      requires IsPresent(Some(Trim(form.name))) && IsPresent(Some(form.fileExtension))
      requires IsPresent(Some(form.standaloneSetup))
      requires CompletionConfig.PromptCheck(Some(form.completionPrompt)).None?
      requires SuggestionConfig.PromptCheck(Some(form.identifierPrompt)).None?
      requires form.fixAttempts >= 0 && form.completionGenerationAttempts >= 1 && form.identifierGenerationAttempts >= 1
      modifies if original != null then {original.embeddingManager} else {}
      ensures outcome == Saved || outcome == Failed
      ensures outcome.Saved? ==> profile != null && fresh(profile) && profile.Valid()
      ensures outcome.Saved? ==> profile.name == Some(Trim(form.name)) && profile.fileExtension == Some(form.fileExtension)
      ensures outcome.Saved? ==> FieldsFollowForm(profile, form, examples) && ConfigsFollowForm(profile, form)
      ensures outcome.Saved? ==> XtextFollowsField(original, profile.xtextFile, form.xtextFilePath)
      ensures outcome.Saved? && !ShowsOriginalXtext(original, form.xtextFilePath) ==> fresh(profile.xtextFile)
      ensures outcome.Saved? ==> (if original != null then profile.embeddingManager == original.embeddingManager
                                  else fresh(profile.embeddingManager))
                                 && multiset(profile.embeddingManager.GetFiles()) == multiset(documentation)
      ensures outcome.Saved? ==> old(AcceptedCount(Placements(documentation))) == |documentation|
    {
      profile := BuildProfile(form);
      if profile == null {
        return Failed, null;
      }
      outcome := FillResult(profile, form);
    }

    /**
     * The xtext file and `new DslProfile(name, fileExtension, xtextFile)`; null
     * where either throws.
     */
    method BuildProfile(form: Form) returns (profile: DslProfile?)
      requires IsPresent(Some(Trim(form.name))) && IsPresent(Some(form.fileExtension))
      ensures profile != null ==> fresh(profile) && fresh(profile.embeddingManager)
      ensures profile != null ==> fresh(profile.codeCompletionConfig) && fresh(profile.identifierSuggestionConfig)
      ensures profile != null ==> profile.Valid() && profile.name == Some(Trim(form.name))
      ensures profile != null ==> profile.fileExtension == Some(form.fileExtension)
      ensures profile != null ==> XtextFollowsField(original, profile.xtextFile, form.xtextFilePath)
      ensures profile != null ==> profile.codeCompletionConfig.Valid() && profile.identifierSuggestionConfig.Valid()
      ensures original != null && (original.xtextFile == null || original.xtextFile.sourcePath.None?) ==> profile == null
      ensures ShowsOriginalXtext(original, form.xtextFilePath)
              ==> (profile != null <==> HasUsableSource(original.xtextFile))
                  && (profile != null ==> profile.xtextFile == original.xtextFile)
      ensures original == null || (original.xtextFile != null && original.xtextFile.sourcePath.Some?
                                   && !ShowsOriginalXtext(original, form.xtextFilePath))
              ==> (profile != null <==> IsAcceptedSource(Some(form.xtextFilePath))
                                        && IsAcceptedName(FileNameOf(form.xtextFilePath)))
                  && (profile != null ==> fresh(profile.xtextFile) && profile.xtextFile.sourcePath == Some(form.xtextFilePath)
                                          && profile.xtextFile.relativePath == None)
      ensures AcceptedCount(Placements(documentation)) == old(AcceptedCount(Placements(documentation)))
    {
      var xtextFile := ChooseXtextFile(form.xtextFilePath);
      var error;
      profile, error := DslProfile.Create(Some(Trim(form.name)), Some(form.fileExtension), xtextFile);
    }

    /**
     * The setters `okPressed` calls on the new profile, in order: description,
     * setup class, examples, the original's embedding manager when editing, the
     * documentation files and the two configurations. Failed when `setFiles`
     * throws; the settings after it are then not made.
     */
    method FillResult(profile: DslProfile, form: Form) returns (outcome: Outcome)
      requires profile != original
      requires IsPresent(Some(form.standaloneSetup))
      requires CompletionConfig.PromptCheck(Some(form.completionPrompt)).None?
      requires SuggestionConfig.PromptCheck(Some(form.identifierPrompt)).None?
      requires form.fixAttempts >= 0 && form.completionGenerationAttempts >= 1 && form.identifierGenerationAttempts >= 1
      modifies profile`description, profile`standaloneSetupClass, profile`scriptExamples, profile`embeddingManager
      modifies profile.codeCompletionConfig, profile.identifierSuggestionConfig, profile.embeddingManager
      modifies if original != null then {original.embeddingManager} else {}
      ensures outcome == Saved || outcome == Failed
      ensures outcome.Saved? <==> old(AcceptedCount(Placements(documentation))) == |documentation|
      ensures FieldsFollowForm(profile, form, examples)
      ensures profile.embeddingManager == if original != null then original.embeddingManager else old(profile.embeddingManager)
      ensures outcome.Saved? ==> multiset(profile.embeddingManager.GetFiles()) == multiset(documentation)
      ensures outcome.Saved? ==> ConfigsFollowForm(profile, form)
      ensures old(profile.Valid()) ==> profile.Valid()
      ensures profile.name == old(profile.name) && profile.fileExtension == old(profile.fileExtension)
      ensures profile.xtextFile == old(profile.xtextFile)
      ensures profile.xtextFile != null ==> profile.xtextFile.sourcePath == old(profile.xtextFile.sourcePath)
      ensures profile.xtextFile != null ==> profile.xtextFile.relativePath == old(profile.xtextFile.relativePath)
    {
      var manager := if original != null then original.embeddingManager else profile.embeddingManager;
      FillFields(profile, form);
      var ok := manager.SetFiles(documentation);
      if !ok {
        return Failed;
      }
      ghost var filed := manager.GetFiles();
      ConfigureCompletion(profile.codeCompletionConfig, form);
      ConfigureSuggestion(profile.identifierSuggestionConfig, form);
      assert manager.GetFiles() == filed;
      outcome := Saved;
    }

    /** The setters before `setFiles`: description, setup class, examples, and the original's embedding manager when editing. */
    method FillFields(profile: DslProfile, form: Form)
      requires profile != original
      requires IsPresent(Some(form.standaloneSetup))
      modifies profile`description, profile`standaloneSetupClass, profile`scriptExamples, profile`embeddingManager
      ensures FieldsFollowForm(profile, form, examples)
      ensures profile.embeddingManager == if original != null then original.embeddingManager else old(profile.embeddingManager)
      ensures old(profile.Valid()) ==> profile.Valid()
      ensures AcceptedCount(Placements(documentation)) == old(AcceptedCount(Placements(documentation)))
    {
      profile.SetDescription(Some(form.description));
      var ok := profile.SetStandaloneSetupClass(Some(form.standaloneSetup));
      profile.SetScriptExamples(Some(examples));
      if original != null {
        profile.SetEmbeddingManager(original.embeddingManager);
      }
    }
  }
}

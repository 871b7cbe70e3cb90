# HintForge core in Dafny

HintForge is an Eclipse plug-in that uses an LLM to help with Xtext-based
domain-specific languages. It keeps one profile per DSL. A profile holds the DSL's
name, file extension and grammar file, its example scripts, and documentation files
whose embeddings feed retrieval. It also holds the settings of two generation tasks:
context-aware code completion and identifier suggestion.

This project models the deterministic core of the plug-in:

- **Profile data** (`Files`, `EmbeddableFiles`, `CompletionConfig`, `SuggestionConfig`,
  `Profile`): classes whose setters validate their argument. A setter that would
  throw `IllegalArgumentException` reports the failure and leaves the object
  unchanged; a constructor that would throw returns null together with the reason.
- **The embedding manager** (`Embeddings`): splits documentation files into
  embedded and pending lists. `sync` drops the ids that no embedded file owns
  anymore, then embeds the pending files in order.
- **The shared assistant helpers** (`Assistant`):
  - trimming the part of an LLM suggestion that repeats the code around the cursor;
  - building the numbered examples text.
- **Identifier suggestion** (`IdentifierSuggestion`): marks the cursor, then runs
  the generation loop with trimming, de-duplication and verification.
- **The syntax verifier's report** (`SyntaxVerifier`): the rendering and filtering
  of validator issues.
- **Code explanation** (`CodeExplanation`): highlighting the selected fragment.
- **The profile dialog's OK button** (`ProfileDialog`): the ordered validation,
  then the construction of the resulting profile.

`JavaText` gives the parts of `java.lang.String` these rely on, and `Wrappers` gives
`Option`/`Result`. Java `null` is modelled as `None` or a nullable reference, and
thrown exceptions as error values.

The LLM, the line splitter, the file system and the Xtext validator are passed in
as function-valued parameters. So are the ids the embedding store assigns.

## Model

| member | source | states |
|---|---|---|
| JavaText.Trim | dev.aleiis.hintforge/src/dev/aleiis/hintforge/preference/DslProfileDialog.java:412 | `trim` keeps one contiguous slice of the name: everything dropped before and after it is at most U+0020, and the slice itself starts and ends above U+0020 |
| JavaText.ReplaceAllLength | dev.aleiis.hintforge/src/dev/aleiis/hintforge/assistant/CodeExplanationAssistant.java:81 | `replace` changes the length by the occurrence count times the difference between the replacement's and the target's lengths |
| JavaText.OccurrencesIffContains | dev.aleiis.hintforge/src/dev/aleiis/hintforge/assistant/CodeExplanationAssistant.java:80-81 | `replace` finds something to replace exactly when `contains` holds |
| JavaText.ReplaceAllShowsReplacement | dev.aleiis.hintforge/src/dev/aleiis/hintforge/assistant/CodeExplanationAssistant.java:81 | when the target occurs, the replacement occurs in the result |
| JavaText.ReplaceAllAbsent | dev.aleiis.hintforge/src/dev/aleiis/hintforge/assistant/CodeExplanationAssistant.java:81 | without an occurrence of the target, `replace` returns the string unchanged |
| JavaText.NatToString | dev.aleiis.hintforge/src/dev/aleiis/hintforge/assistant/Assistant.java:112 | `%d` of a natural number is a non-empty string of decimal digits |
| JavaText.NatToStringRoundTrip | dev.aleiis.hintforge/src/dev/aleiis/hintforge/assistant/Assistant.java:112 | reading the decimal rendering back gives the number, so example numbers are rendered without loss |
| JavaText.NatToStringInjective | dev.aleiis.hintforge/src/dev/aleiis/hintforge/assistant/Assistant.java:112 | different example numbers get different renderings |
| JavaText.IntToStringInjective | dev.aleiis.hintforge/src/dev/aleiis/hintforge/assistant/SyntaxVerifier.java:79 | different line or column numbers render differently, the minus sign included |
| Files.ExternalFile.constructor | dev.aleiis.hintforge/src/dev/aleiis/hintforge/model/ExternalFile.java:14 | the no-argument constructor leaves the name, the source path and the relative path null |
| Files.ExternalFile.Create | dev.aleiis.hintforge/src/dev/aleiis/hintforge/model/ExternalFile.java:16-20 | the two-argument constructor fails exactly when the source path is null, blank or invalid, or the name is null or blank; otherwise it stores both and no relative path |
| Files.ExternalFile.SetOriginalFileName | dev.aleiis.hintforge/src/dev/aleiis/hintforge/model/ExternalFile.java:26-31 | accepts exactly a non-null, non-blank name; on refusal the field is unchanged |
| Files.ExternalFile.SetSourcePath | dev.aleiis.hintforge/src/dev/aleiis/hintforge/model/ExternalFile.java:37-47 | accepts exactly a non-null, non-blank path that `Path.of` accepts; on refusal the field is unchanged |
| Files.ExternalFile.SetRelativePath | dev.aleiis.hintforge/src/dev/aleiis/hintforge/model/ExternalFile.java:53-55 | stores any value, null included |
| Files.ExternalFile.Target | dev.aleiis.hintforge/src/dev/aleiis/hintforge/model/ExternalFile.java:67-73 | `readContent` reads under the home folder exactly when the relative path is non-null and non-blank, and otherwise at the source path |
| Files.ExternalFile.ReadContent | dev.aleiis.hintforge/src/dev/aleiis/hintforge/model/ExternalFile.java:67-76 | reads the file under the home folder when the relative path is non-null and non-blank, and otherwise at the source path; a failed read gives no content |
| EmbeddableFiles.EmbeddableExternalFile.constructor | dev.aleiis.hintforge/src/dev/aleiis/hintforge/model/EmbeddableExternalFile.java:20-21 | a new file has every ExternalFile field null, no ids, and is not embedded |
| EmbeddableFiles.EmbeddableExternalFile.Create | dev.aleiis.hintforge/src/dev/aleiis/hintforge/model/EmbeddableExternalFile.java:23-25 | fails exactly where the ExternalFile constructor fails; otherwise a fresh file with that source and no ids |
| EmbeddableFiles.EmbeddableExternalFile.IsEmbedded | dev.aleiis.hintforge/src/dev/aleiis/hintforge/model/EmbeddableExternalFile.java:31-33 | a file is embedded exactly when it holds at least one embedding id |
| EmbeddableFiles.EmbeddableExternalFile.CalculateAndStoreEmbedding | dev.aleiis.hintforge/src/dev/aleiis/hintforge/model/EmbeddableExternalFile.java:35-44 | fails exactly when the content cannot be read, leaving the ids unchanged; otherwise the file's ids become the store's ids and are returned, and the file counts as embedded exactly when that list is non-empty |
| CompletionConfig.PromptCheckAcceptsValid | dev.aleiis.hintforge/src/dev/aleiis/hintforge/model/ContextAwareCompletionConfig.java:46-57 | `setFewShotPrompt` accepts exactly the non-blank prompts that contain both `{{code}}` and `{{instruction}}`, and never calls blank a prompt that contains the code tag |
| CompletionConfig.ConfigCheckAcceptsValid | dev.aleiis.hintforge/src/dev/aleiis/hintforge/model/ContextAwareCompletionConfig.java:36-40 | the three-argument constructor succeeds exactly for a valid prompt, at least 0 fix attempts and at least 1 generation attempt; each error names the first bad value |
| CompletionConfig.DefaultPromptValid | dev.aleiis.hintforge/src/dev/aleiis/hintforge/model/ContextAwareCompletionConfig.java:5-24 | the default prompt passes the setter's own checks |
| CompletionConfig.ContextAwareCompletionConfig.constructor | dev.aleiis.hintforge/src/dev/aleiis/hintforge/model/ContextAwareCompletionConfig.java:30-34 | the default prompt, 2 fix attempts and 1 generation attempt, which is a valid configuration |
| CompletionConfig.ContextAwareCompletionConfig.Create | dev.aleiis.hintforge/src/dev/aleiis/hintforge/model/ContextAwareCompletionConfig.java:36-40 | null with the first failing check, or a fresh valid configuration holding the three values |
| CompletionConfig.ContextAwareCompletionConfig.SetFewShotPrompt | dev.aleiis.hintforge/src/dev/aleiis/hintforge/model/ContextAwareCompletionConfig.java:46-57 | reports the first failing check in the source's order and changes nothing, or stores the prompt; validity is preserved |
| CompletionConfig.ContextAwareCompletionConfig.SetMaxFixAttempts | dev.aleiis.hintforge/src/dev/aleiis/hintforge/model/ContextAwareCompletionConfig.java:63-68 | accepts exactly values of at least 0; a refused value leaves the field unchanged |
| CompletionConfig.ContextAwareCompletionConfig.SetMaxGenerationAttempts | dev.aleiis.hintforge/src/dev/aleiis/hintforge/model/ContextAwareCompletionConfig.java:74-79 | accepts exactly values of at least 1; a refused value leaves the field unchanged |
| SuggestionConfig.PromptCheckAcceptsValid | dev.aleiis.hintforge/src/dev/aleiis/hintforge/model/IdentifierSuggestionConfig.java:55-63 | `setFewShotPrompt` accepts exactly the non-blank prompts that contain `{{code}}`, and every prompt containing the tag is accepted |
| SuggestionConfig.ConfigCheckAcceptsValid | dev.aleiis.hintforge/src/dev/aleiis/hintforge/model/IdentifierSuggestionConfig.java:46-49 | the two-argument constructor succeeds exactly for a valid prompt and at least 1 generation attempt; the prompt is checked first |
| SuggestionConfig.DefaultPromptValid | dev.aleiis.hintforge/src/dev/aleiis/hintforge/model/IdentifierSuggestionConfig.java:5-36 | the default prompt passes the setter's own checks |
| SuggestionConfig.IdentifierSuggestionConfig.constructor | dev.aleiis.hintforge/src/dev/aleiis/hintforge/model/IdentifierSuggestionConfig.java:41-44 | the default prompt and 1 generation attempt, which is a valid configuration |
| SuggestionConfig.IdentifierSuggestionConfig.Create | dev.aleiis.hintforge/src/dev/aleiis/hintforge/model/IdentifierSuggestionConfig.java:46-49 | null with the first failing check, or a fresh valid configuration holding both values |
| SuggestionConfig.IdentifierSuggestionConfig.SetFewShotPrompt | dev.aleiis.hintforge/src/dev/aleiis/hintforge/model/IdentifierSuggestionConfig.java:55-63 | reports the first failing check and changes nothing, or stores the prompt; validity is preserved |
| SuggestionConfig.IdentifierSuggestionConfig.SetMaxGenerationAttempts | dev.aleiis.hintforge/src/dev/aleiis/hintforge/model/IdentifierSuggestionConfig.java:69-74 | accepts exactly values of at least 1; a refused value leaves the field unchanged |
| Profile.DescriptionOf | dev.aleiis.hintforge/src/dev/aleiis/hintforge/model/DslProfile.java:43-45 | a present description is kept as it is, and null becomes "" |
| Profile.ProfileCheckFirstFailure | dev.aleiis.hintforge/src/dev/aleiis/hintforge/model/DslProfile.java:22-26 | the three-argument constructor succeeds exactly when the name, the extension and the xtext file are all acceptable; each error names the first bad one, in the order name, extension, file |
| Profile.DslProfile.constructor | dev.aleiis.hintforge/src/dev/aleiis/hintforge/model/DslProfile.java:10-20 | a new profile has no name, extension, xtext file or examples, a fresh empty embedding manager, and fresh default configurations of both tasks |
| Profile.DslProfile.Create | dev.aleiis.hintforge/src/dev/aleiis/hintforge/model/DslProfile.java:22-26 | null with the first failing check, or a fresh valid profile holding the name and extension, with a fresh empty manager and fresh default configurations: the default completion prompt with 2 fix attempts and 1 generation attempt, and the default identifier prompt with 1 generation attempt |
| Profile.DslProfile.SetName | dev.aleiis.hintforge/src/dev/aleiis/hintforge/model/DslProfile.java:32-37 | accepts exactly a non-null, non-blank name; a refused name leaves the field unchanged |
| Profile.DslProfile.SetDescription | dev.aleiis.hintforge/src/dev/aleiis/hintforge/model/DslProfile.java:43-45 | the stored description is the argument, with null replaced by "" |
| Profile.DslProfile.SetXtextFile | dev.aleiis.hintforge/src/dev/aleiis/hintforge/model/DslProfile.java:51-56 | accepts exactly a non-null file whose source path is non-null and non-blank; a refused file leaves the field unchanged |
| Profile.DslProfile.SetFileExtension | dev.aleiis.hintforge/src/dev/aleiis/hintforge/model/DslProfile.java:62-67 | accepts exactly a non-null, non-blank extension; a refused extension leaves the field unchanged |
| Profile.DslProfile.SetStandaloneSetupClass | dev.aleiis.hintforge/src/dev/aleiis/hintforge/model/DslProfile.java:73-78 | accepts exactly a non-null, non-blank class name; a refused name leaves the field unchanged |
| Profile.DslProfile.SetScriptExamples | dev.aleiis.hintforge/src/dev/aleiis/hintforge/model/DslProfile.java:84-86 | null becomes the empty list |
| Profile.DslProfile.SetEmbeddingManager | dev.aleiis.hintforge/src/dev/aleiis/hintforge/model/DslProfile.java:92-94 | null becomes a fresh manager with no ids |
| Profile.DslProfile.SetCodeCompletionConfig | dev.aleiis.hintforge/src/dev/aleiis/hintforge/model/DslProfile.java:100-102 | a non-null configuration is stored as given; null becomes a fresh default configuration with the default prompt, 2 fix attempts and 1 generation attempt |
| Profile.DslProfile.SetIdentifierSuggestionConfig | dev.aleiis.hintforge/src/dev/aleiis/hintforge/model/DslProfile.java:108-110 | a non-null configuration is stored as given; null becomes a fresh default configuration with the default prompt and 1 generation attempt |
| Embeddings.WithoutMembers | dev.aleiis.hintforge/src/dev/aleiis/hintforge/model/EmbeddingManager.java:64 | the `!contains` filter keeps an id exactly when it was tracked and is not excluded |
| Embeddings.KeptInMembers | dev.aleiis.hintforge/src/dev/aleiis/hintforge/model/EmbeddingManager.java:68 | an id survives `removeAll` of the stale ids exactly when it was tracked and is owned |
| Embeddings.RemovingStaleKeepsOwned | dev.aleiis.hintforge/src/dev/aleiis/hintforge/model/EmbeddingManager.java:63-69 | removing the stale ids keeps exactly the owned ones, in order; the removed ids and the kept ids together are the old ids, duplicates included |
| Embeddings.NoStaleKeepsAll | dev.aleiis.hintforge/src/dev/aleiis/hintforge/model/EmbeddingManager.java:66-69 | when nothing is stale, every tracked id is kept |
| Embeddings.OwnedIdsMembers | dev.aleiis.hintforge/src/dev/aleiis/hintforge/model/EmbeddingManager.java:63 | an id is owned exactly when some embedded file holds it |
| Embeddings.NewIdsFromStore | dev.aleiis.hintforge/src/dev/aleiis/hintforge/model/EmbeddingManager.java:75-78 | an id is collected by the ingest loop exactly when the store assigned it to one of the files processed |
| Embeddings.PlacementOf | dev.aleiis.hintforge/src/dev/aleiis/hintforge/model/EmbeddingManager.java:28-37 | `addFile` refuses a file exactly when it is null or has no usable source path |
| Embeddings.Placements | dev.aleiis.hintforge/src/dev/aleiis/hintforge/model/EmbeddingManager.java:42 | one placement per file, and no accepted file is null |
| Embeddings.AcceptedCount | dev.aleiis.hintforge/src/dev/aleiis/hintforge/model/EmbeddingManager.java:39-43 | the number of files `setFiles` adds is at most the number of files |
| Embeddings.AcceptedCountStops | dev.aleiis.hintforge/src/dev/aleiis/hintforge/model/EmbeddingManager.java:39-43 | every file before the count is accepted, and the file at the count is the first refused one |
| Embeddings.SplitIsPermutation | dev.aleiis.hintforge/src/dev/aleiis/hintforge/model/EmbeddingManager.java:28-50 | splitting accepted files into embedded and pending lists loses none and adds none: the two lists together are a permutation of the input |
| Embeddings.PlacedOneMore | dev.aleiis.hintforge/src/dev/aleiis/hintforge/model/EmbeddingManager.java:32-36 | an accepted file lands on exactly one of the two lists |
| Embeddings.ReadablePrefix | dev.aleiis.hintforge/src/dev/aleiis/hintforge/model/EmbeddingManager.java:75-78 | the number of pending files the loop gets through is at most the number of pending files |
| Embeddings.ReadablePrefixStops | dev.aleiis.hintforge/src/dev/aleiis/hintforge/model/EmbeddingManager.java:75-78 | every file before the count can be read, and the one at the count is the first that cannot |
| Embeddings.EmbedNext | dev.aleiis.hintforge/src/dev/aleiis/hintforge/model/EmbeddingManager.java:76-77 | one turn of the loop fails exactly when the file cannot be read; otherwise it returns the store's ids for that file, and earlier files keep theirs when the files are distinct |
| Embeddings.OwnedAfterIngest | dev.aleiis.hintforge/src/dev/aleiis/hintforge/model/EmbeddingManager.java:60-82 | after a successful sync every tracked id is owned by some embedded file |
| Embeddings.EmbeddingManager.constructor | dev.aleiis.hintforge/src/dev/aleiis/hintforge/model/EmbeddingManager.java:17-22 | a new manager tracks no ids and no files, so no id is orphaned |
| Embeddings.EmbeddingManager.ClearPendingEmbeddings | dev.aleiis.hintforge/src/dev/aleiis/hintforge/model/EmbeddingManager.java:56-58 | the pending list is emptied, so `hasPendingEmbeddings` becomes false; the embedded files and ids are kept |
| Embeddings.EmbeddingManager.GetFiles | dev.aleiis.hintforge/src/dev/aleiis/hintforge/model/EmbeddingManager.java:45-50 | the embedded files followed by the pending ones: exactly those files, each list in its order, nothing added or lost |
| Embeddings.EmbeddingManager.HasPendingEmbeddings | dev.aleiis.hintforge/src/dev/aleiis/hintforge/model/EmbeddingManager.java:52-54 | true exactly when `getFiles` holds more than the embedded files; when false, `getFiles` is the embedded files alone |
| Embeddings.EmbeddingManager.AddFile | dev.aleiis.hintforge/src/dev/aleiis/hintforge/model/EmbeddingManager.java:28-37 | a refused file changes nothing; otherwise the file is appended to the embedded list when it has ids, and to the pending list when it has none |
| Embeddings.EmbeddingManager.SetFiles | dev.aleiis.hintforge/src/dev/aleiis/hintforge/model/EmbeddingManager.java:39-43 | succeeds exactly when no file is refused; the lists then hold exactly the given files, as a multiset, split by embedding state; after a refusal, the files before it stay added |
| Embeddings.EmbeddingManager.AddEach | dev.aleiis.hintforge/src/dev/aleiis/hintforge/model/EmbeddingManager.java:42 | from empty lists, `addFile` on each file in order: succeeds exactly when none is refused, and the lists hold the embedded and the pending files up to the first refusal |
| Embeddings.EmbeddingManager.Sync | dev.aleiis.hintforge/src/dev/aleiis/hintforge/model/EmbeddingManager.java:60-82 | returns the ids no embedded file owns, sent for removal, and keeps the owned ones. Succeeds exactly when every pending file can be read; then the pending files join the embedded ones and each gets the store's ids. A failed read leaves both lists as they were |
| Embeddings.EmbeddingManager.DropStaleIds | dev.aleiis.hintforge/src/dev/aleiis/hintforge/model/EmbeddingManager.java:63-69 | removes and returns the ids not owned by an embedded file; afterwards no tracked id is orphaned |
| Embeddings.EmbeddingManager.IngestAndPromote | dev.aleiis.hintforge/src/dev/aleiis/hintforge/model/EmbeddingManager.java:71-81 | appends the ids of the files read before the first failure. Promotes the pending files only when all were read, and then keeps "no orphan ids" |
| Embeddings.EmbeddingManager.IngestPending | dev.aleiis.hintforge/src/dev/aleiis/hintforge/model/EmbeddingManager.java:75-78 | the loop succeeds exactly when every pending file can be read; the tracked ids grow by the store's ids for each file read, in order |
| Assistant.LongestPrefixOverlap | dev.aleiis.hintforge/src/dev/aleiis/hintforge/assistant/Assistant.java:77-83 | the largest length up to the bound at which the code before the offset ends with the suggestion's head |
| Assistant.LongestSuffixOverlap | dev.aleiis.hintforge/src/dev/aleiis/hintforge/assistant/Assistant.java:87-93 | the largest length up to the bound at which the code after the offset starts with the suggestion's tail |
| Assistant.PrefixCut | dev.aleiis.hintforge/src/dev/aleiis/hintforge/assistant/Assistant.java:77-83 | the front cut is a part of the suggestion that repeats the code right before the offset |
| Assistant.EndOverlap | dev.aleiis.hintforge/src/dev/aleiis/hintforge/assistant/Assistant.java:87-93 | the back cut is a part of the remaining suggestion that repeats the code right after the offset |
| Assistant.SuffixCut | dev.aleiis.hintforge/src/dev/aleiis/hintforge/assistant/Assistant.java:85-93 | the back cut of the prefix-trimmed suggestion repeats the code after the offset |
| Assistant.PrefixCutIsLargest | dev.aleiis.hintforge/src/dev/aleiis/hintforge/assistant/Assistant.java:77-83 | no longer head of the suggestion, up to `min(len, offset)`, repeats the code before the offset |
| Assistant.SuffixCutIsLargest | dev.aleiis.hintforge/src/dev/aleiis/hintforge/assistant/Assistant.java:87-93 | no longer tail of the prefix-trimmed suggestion repeats the code after the offset |
| Assistant.TrimmedOverlap | dev.aleiis.hintforge/src/dev/aleiis/hintforge/assistant/Assistant.java:73-96 | the result is the slice of the suggestion between the two cuts, and the cuts and the result add up to the suggestion's length |
| Assistant.TrimmedDecomposition | dev.aleiis.hintforge/src/dev/aleiis/hintforge/assistant/Assistant.java:73-96 | the suggestion is the repeated end of the preceding code, then the result, then the repeated start of the following code |
| Assistant.FrontCut | dev.aleiis.hintforge/src/dev/aleiis/hintforge/assistant/Assistant.java:85 | the front cut splits the suggestion into the repeated code and the rest |
| Assistant.BackCut | dev.aleiis.hintforge/src/dev/aleiis/hintforge/assistant/Assistant.java:95 | the back cut splits the rest into the result and the repeated code |
| Assistant.TrimContextOverlap | dev.aleiis.hintforge/src/dev/aleiis/hintforge/assistant/Assistant.java:73-96 | the method, with its two loops, computes exactly the trimmed slice characterised above |
| Assistant.CountPrefixOverlap | dev.aleiis.hintforge/src/dev/aleiis/hintforge/assistant/Assistant.java:77-83 | the first loop's last match is the longest head overlap |
| Assistant.CountSuffixOverlap | dev.aleiis.hintforge/src/dev/aleiis/hintforge/assistant/Assistant.java:87-93 | the second loop's last match is the longest tail overlap |
| Assistant.UnchangedWithoutOverlap | dev.aleiis.hintforge/src/dev/aleiis/hintforge/assistant/Assistant.java:73-96 | a suggestion that overlaps neither side comes back unchanged |
| Assistant.PrefixOfCodeTrimsToEmpty | dev.aleiis.hintforge/src/dev/aleiis/hintforge/assistant/Assistant.java:73-96 | at offset 0, a suggestion that the code starts with trims to "" |
| Assistant.TrimNotIdempotent | dev.aleiis.hintforge/src/dev/aleiis/hintforge/assistant/Assistant.java:73-96 | trimming is not idempotent: "bab" before "ab" trims to "ab", which trims again to "" |
| Assistant.ExamplesAllOrNothing | dev.aleiis.hintforge/src/dev/aleiis/hintforge/assistant/Assistant.java:106-119 | there is no examples text exactly when some example cannot be read |
| Assistant.ExamplesInOrder | dev.aleiis.hintforge/src/dev/aleiis/hintforge/assistant/Assistant.java:109-112 | the text is built in list order; the k-th example is the block numbered k + 1, and each partial text is a prefix of the whole |
| Assistant.ReadAll | dev.aleiis.hintforge/src/dev/aleiis/hintforge/assistant/Assistant.java:111 | the i-th read result is the i-th example's content |
| Assistant.BuildExamplesString | dev.aleiis.hintforge/src/dev/aleiis/hintforge/assistant/Assistant.java:106-119 | the loop returns null at the first unreadable example, and otherwise the concatenated numbered blocks |
| IdentifierSuggestion.CursorRoundTrip | dev.aleiis.hintforge/src/dev/aleiis/hintforge/assistant/IdentifierSuggestionAssistant.java:76 | the marked code is 10 characters longer, holds the marker at the offset, and removing the marker gives back the code |
| IdentifierSuggestion.FirstIndex | dev.aleiis.hintforge/src/dev/aleiis/hintforge/assistant/IdentifierSuggestionAssistant.java:100-104 | the index at which an element first occurs |
| IdentifierSuggestion.DedupElements | dev.aleiis.hintforge/src/dev/aleiis/hintforge/assistant/IdentifierSuggestionAssistant.java:100-104 | de-duplication keeps exactly the same elements, each once |
| IdentifierSuggestion.DedupFirstOccurrenceOrder | dev.aleiis.hintforge/src/dev/aleiis/hintforge/assistant/IdentifierSuggestionAssistant.java:100-104 | kept elements appear in the order of their first occurrences, as a `LinkedHashSet` orders them |
| IdentifierSuggestion.DedupExample | dev.aleiis.hintforge/src/dev/aleiis/hintforge/assistant/IdentifierSuggestionAssistant.java:100-104 | ["a","b","a","c"] becomes ["a","b","c"] |
| IdentifierSuggestion.RemoveDuplicates | dev.aleiis.hintforge/src/dev/aleiis/hintforge/assistant/IdentifierSuggestionAssistant.java:100-104 | the method computes the insertion-ordered de-duplication |
| IdentifierSuggestion.TrimLines | dev.aleiis.hintforge/src/dev/aleiis/hintforge/assistant/IdentifierSuggestionAssistant.java:89 | each line is trimmed against the code around the cursor, in order |
| IdentifierSuggestion.VerifiedIsFilter | dev.aleiis.hintforge/src/dev/aleiis/hintforge/assistant/IdentifierSuggestionAssistant.java:106-116 | verification fails only when the verifier is unconfigured and there is something to check; otherwise the result is a subsequence holding exactly the identifiers that pass, in order |
| IdentifierSuggestion.VerifyIdentifiers | dev.aleiis.hintforge/src/dev/aleiis/hintforge/assistant/IdentifierSuggestionAssistant.java:106-116 | the loop computes the verified list, or the verifier's exception |
| IdentifierSuggestion.VerifiedPrefixFailure | dev.aleiis.hintforge/src/dev/aleiis/hintforge/assistant/IdentifierSuggestionAssistant.java:109-114 | once validation throws on a prefix, the whole call throws the same way |
| IdentifierSuggestion.Suggest | dev.aleiis.hintforge/src/dev/aleiis/hintforge/assistant/IdentifierSuggestionAssistant.java:64-98 | computes the outcome and the number of LLM calls; null exactly when the grammar cannot be read, with no LLM call then |
| IdentifierSuggestion.RunFromCalls | dev.aleiis.hintforge/src/dev/aleiis/hintforge/assistant/IdentifierSuggestionAssistant.java:83-84 | the loop makes at least the attempt it starts with and never goes beyond the limit |
| IdentifierSuggestion.RunFromStopsAtFirstNonEmpty | dev.aleiis.hintforge/src/dev/aleiis/hintforge/assistant/IdentifierSuggestionAssistant.java:83-95 | every attempt before the last one made left an empty list |
| IdentifierSuggestion.RunFromLastAttemptDecides | dev.aleiis.hintforge/src/dev/aleiis/hintforge/assistant/IdentifierSuggestionAssistant.java:83-97 | the last attempt decides the outcome; its list is non-empty unless the attempts ran out |
| IdentifierSuggestion.CallBound | dev.aleiis.hintforge/src/dev/aleiis/hintforge/assistant/IdentifierSuggestionAssistant.java:83-95 | the LLM is called at most `maxGenerationAttempts` times, and at least once when the grammar was read |
| IdentifierSuggestion.EmptyBeforeLastCall | dev.aleiis.hintforge/src/dev/aleiis/hintforge/assistant/IdentifierSuggestionAssistant.java:83-95 | each attempt before the last call left an empty list |
| IdentifierSuggestion.EarlyStopIsValidated | dev.aleiis.hintforge/src/dev/aleiis/hintforge/assistant/IdentifierSuggestionAssistant.java:92-94 | stopping before the last attempt yields a non-empty list of identifiers that all passed validation |
| IdentifierSuggestion.LastAttemptUnfiltered | dev.aleiis.hintforge/src/dev/aleiis/hintforge/assistant/IdentifierSuggestionAssistant.java:88-94 | on the last attempt the de-duplicated candidates are returned unverified |
| IdentifierSuggestion.VerifierFailureMeansUnconfigured | dev.aleiis.hintforge/src/dev/aleiis/hintforge/assistant/IdentifierSuggestionAssistant.java:92-93 | the verifier's exception escapes only when no file extension is configured, and never on the last attempt |
| IdentifierSuggestion.SingleAttemptUnfiltered | dev.aleiis.hintforge/src/dev/aleiis/hintforge/assistant/IdentifierSuggestionAssistant.java:83-97 | with one attempt allowed, one LLM call is made and its candidates are returned unverified |
| SyntaxVerifier.IssueToString | dev.aleiis.hintforge/src/dev/aleiis/hintforge/assistant/SyntaxVerifier.java:75-81 | the rendering starts with the severity and ": ", and ends with "; column : " plus the column and ")" |
| SyntaxVerifier.Validate | dev.aleiis.hintforge/src/dev/aleiis/hintforge/assistant/SyntaxVerifier.java:42-73 | throws when unconfigured; gives an empty list when loading fails; otherwise renders every issue that is not suppressed, in order |
| SyntaxVerifier.ReportAppend | dev.aleiis.hintforge/src/dev/aleiis/hintforge/assistant/SyntaxVerifier.java:59-66 | the report follows the validator's order: the report of a concatenation is the concatenation of the reports |
| SyntaxVerifier.ReportShorter | dev.aleiis.hintforge/src/dev/aleiis/hintforge/assistant/SyntaxVerifier.java:59-66 | at most one string per issue |
| SyntaxVerifier.ReportWithoutExclusion | dev.aleiis.hintforge/src/dev/aleiis/hintforge/assistant/SyntaxVerifier.java:59-66 | without exclusion, the i-th string renders the i-th issue |
| SyntaxVerifier.ReportSingle | dev.aleiis.hintforge/src/dev/aleiis/hintforge/assistant/SyntaxVerifier.java:60-65 | an issue is reported exactly when it is not suppressed |
| SyntaxVerifier.UnresolvedLinkingExample | dev.aleiis.hintforge/src/dev/aleiis/hintforge/assistant/SyntaxVerifier.java:57-63 | the usual unresolved-reference linking error is dropped with exclusion on and kept with it off |
| SyntaxVerifier.NumberTextInjective | dev.aleiis.hintforge/src/dev/aleiis/hintforge/assistant/SyntaxVerifier.java:79 | line and column numbers (or null) render without loss |
| SyntaxVerifier.RenderedSplit | dev.aleiis.hintforge/src/dev/aleiis/hintforge/assistant/SyntaxVerifier.java:79 | the rendering ends with a space and the column text, which holds no space |
| SyntaxVerifier.IssueToStringInjective | dev.aleiis.hintforge/src/dev/aleiis/hintforge/assistant/SyntaxVerifier.java:75-81 | equal renderings come from issues with the same severity, message text, line and column |
| CodeExplanation.MarkedCodeLength | dev.aleiis.hintforge/src/dev/aleiis/hintforge/assistant/CodeExplanationAssistant.java:79-84 | each highlighted occurrence adds the 20 characters of the two markers |
| CodeExplanation.UnmarkedIffNothingToHighlight | dev.aleiis.hintforge/src/dev/aleiis/hintforge/assistant/CodeExplanationAssistant.java:79-84 | the code is sent unchanged exactly when the selection is null, blank or absent from the code |
| CodeExplanation.SelectionIsHighlighted | dev.aleiis.hintforge/src/dev/aleiis/hintforge/assistant/CodeExplanationAssistant.java:80-81 | a selection that occurs comes back surrounded by the markers |
| CodeExplanation.WholeCodeSentAsIs | dev.aleiis.hintforge/src/dev/aleiis/hintforge/assistant/CodeExplanationAssistant.java:56-58 | explaining the whole code sends it unmarked, and gives null exactly when the grammar cannot be read |
| CodeExplanation.Explain | dev.aleiis.hintforge/src/dev/aleiis/hintforge/assistant/CodeExplanationAssistant.java:68-88 | null exactly when the grammar cannot be read; otherwise the LLM's answer for the marked code, the name, the description and the grammar |
| CodeExplanation.ExplainWhole | dev.aleiis.hintforge/src/dev/aleiis/hintforge/assistant/CodeExplanationAssistant.java:56-58 | null exactly when the grammar cannot be read; otherwise the LLM's answer for the code sent unmarked |
| CodeExplanation.ExplainHighlightsSelection | dev.aleiis.hintforge/src/dev/aleiis/hintforge/assistant/CodeExplanationAssistant.java:68-88 | for a non-blank selection: null exactly when the grammar cannot be read, otherwise the LLM sees every occurrence of the selection wrapped in the markers, so a selection that occurs changes the code sent |
| ProfileDialog.FirstFailureIsFirst | dev.aleiis.hintforge/src/dev/aleiis/hintforge/preference/DslProfileDialog.java:420-463 | the chain reports a check exactly when it fails and every earlier check passes |
| ProfileDialog.FormCheckIsFirstFailure | dev.aleiis.hintforge/src/dev/aleiis/hintforge/preference/DslProfileDialog.java:420-463 | the validation of `okPressed` is that chain over the nine checks, in the source's order |
| ProfileDialog.FormCheckReportsFirstFailure | dev.aleiis.hintforge/src/dev/aleiis/hintforge/preference/DslProfileDialog.java:420-463 | the error shown is the first failing check |
| ProfileDialog.FormCheckAcceptsIffAllPass | dev.aleiis.hintforge/src/dev/aleiis/hintforge/preference/DslProfileDialog.java:420-463 | no error is shown exactly when every check passes |
| ProfileDialog.AcceptedFormFitsSetters | dev.aleiis.hintforge/src/dev/aleiis/hintforge/preference/DslProfileDialog.java:420-486 | a form that passes satisfies every setter the saving part calls: a non-blank name, extension and class name, and prompts both configurations accept |
| ProfileDialog.OnlyEmptyXtextPathFails | dev.aleiis.hintforge/src/dev/aleiis/hintforge/preference/DslProfileDialog.java:430-433 | only emptiness of the xtext path is checked: any non-empty path, blank ones included, still passes |
| ProfileDialog.DropTrailingSlashes | dev.aleiis.hintforge/src/dev/aleiis/hintforge/preference/DslProfileDialog.java:470 | removes exactly the trailing separators |
| ProfileDialog.AfterLastSlash | dev.aleiis.hintforge/src/dev/aleiis/hintforge/preference/DslProfileDialog.java:470 | the separator-free tail of the path |
| ProfileDialog.FileNameIsLastElement | dev.aleiis.hintforge/src/dev/aleiis/hintforge/preference/DslProfileDialog.java:470 | `getFileName` exists exactly when the path holds something besides separators; it is then the last non-empty name element |
| ProfileDialog.XtextPathNeverChangesAsWritten | dev.aleiis.hintforge/src/dev/aleiis/hintforge/preference/DslProfileDialog.java:467-471 | as written, an edited profile always keeps its original source path whatever the field holds; for a file without a relative path, a field that differs from the source path is never what the dialog shows after saving |
| ProfileDialog.XtextPathNeverChangesExample | dev.aleiis.hintforge/src/dev/aleiis/hintforge/preference/DslProfileDialog.java:467-471 | as written, choosing "b.xtext" for a profile built on "a.xtext" keeps the original file, which still shows "a.xtext" |
| ProfileDialog.XtextPathFollowsField | dev.aleiis.hintforge/src/dev/aleiis/hintforge/preference/DslProfileDialog.java:355-357 | with the corrected condition, the path shown after saving is always the field; the original file is kept exactly when the field still holds what the dialog showed for it (its relative path when set, else its source path) |
| ProfileDialog.ChoicesAgreeOnUnchangedField | dev.aleiis.hintforge/src/dev/aleiis/hintforge/preference/DslProfileDialog.java:355-357 | for a saved profile left untouched (the field shows its relative path, which differs from its source path), both the as-written and the corrected test keep the original file |
| ProfileDialog.NamesOf | dev.aleiis.hintforge/src/dev/aleiis/hintforge/preference/DslProfileDialog.java:425 | the other profiles' names, in order |
| ProfileDialog.ExtensionsOf | dev.aleiis.hintforge/src/dev/aleiis/hintforge/preference/DslProfileDialog.java:443 | the other profiles' extensions, in order |
| ProfileDialog.ConfigureCompletion | dev.aleiis.hintforge/src/dev/aleiis/hintforge/preference/DslProfileDialog.java:480-483 | the completion configuration holds the form's prompt and spinner values, and stays valid |
| ProfileDialog.ConfigureSuggestion | dev.aleiis.hintforge/src/dev/aleiis/hintforge/preference/DslProfileDialog.java:484-486 | the suggestion configuration holds the form's prompt and spinner value, and stays valid |
| ProfileDialog.DslProfileDialog.constructor | dev.aleiis.hintforge/src/dev/aleiis/hintforge/preference/DslProfileDialog.java:47-68 | a dialog for the given original and other profiles, with no examples, no documentation and no result |
| ProfileDialog.DslProfileDialog.ChooseXtextFile | dev.aleiis.hintforge/src/dev/aleiis/hintforge/preference/DslProfileDialog.java:466-471 | reuses the original file exactly when the field still holds the path the dialog showed for it. Otherwise builds a new file from the path, with no relative path and named after its last element, and fails exactly where the Java constructor or `getFileName` would; fails when the original has no xtext file or no source path, where Java throws (xtext reuse by the corrected test of the Findings row, not line 467 as written) |
| ProfileDialog.DslProfileDialog.OkPressed | dev.aleiis.hintforge/src/dev/aleiis/hintforge/preference/DslProfileDialog.java:410-489 | rejects with the first failing check, leaving the result unchanged. When saved, the result is a fresh valid profile holding every form value, whose xtext file shows the field (the original file when the field is unchanged, else a fresh one), the original's manager when editing, and exactly the documentation files (xtext reuse by the corrected test of the Findings row, not line 467 as written) |
| ProfileDialog.DslProfileDialog.Commit | dev.aleiis.hintforge/src/dev/aleiis/hintforge/preference/DslProfileDialog.java:465-486 | after the checks, ends Saved or Failed; when saved, `result` is the fresh valid profile holding every form value, whose xtext file shows the field, with the documentation files (xtext reuse by the corrected test of the Findings row, not line 467 as written) |
| ProfileDialog.DslProfileDialog.Save | dev.aleiis.hintforge/src/dev/aleiis/hintforge/preference/DslProfileDialog.java:465-486 | after the checks, saving ends Saved or Failed; a saved profile holds every form value and the documentation files, and its xtext file shows the field: the original file when the field is unchanged, else a fresh file built from the field (xtext reuse by the corrected test of the Findings row, not line 467 as written) |
| ProfileDialog.DslProfileDialog.BuildProfile | dev.aleiis.hintforge/src/dev/aleiis/hintforge/preference/DslProfileDialog.java:466-473 | builds a fresh valid profile with the trimmed name and the extension, whose xtext file shows the field. With the field unchanged it keeps the original file and succeeds exactly when that file has a usable source path; otherwise it succeeds exactly when the path and its file name are acceptable, with a fresh file. Editing a profile without an xtext file or source path fails (xtext reuse by the corrected test of the Findings row, not line 467 as written) |
| ProfileDialog.DslProfileDialog.FillResult | dev.aleiis.hintforge/src/dev/aleiis/hintforge/preference/DslProfileDialog.java:474-486 | sets the plain fields, then the documentation; saves exactly when no documentation file is refused, and then also sets both configurations |
| ProfileDialog.DslProfileDialog.FillFields | dev.aleiis.hintforge/src/dev/aleiis/hintforge/preference/DslProfileDialog.java:474-478 | description, setup class and examples follow the form; the original's manager is installed when editing |

## Left out

- The LLM services, LangChain4j's embedding model and store, and the document
  splitter are not modelled. They appear as function-valued parameters: the chat
  answer, the `split("\\R")` result, and the ids the store assigns to each file.
  The store's random UUIDs are such a parameter.
- The file system and Xtext are parameters too. `Files.readString` and the
  validator become functions. `IOException` becomes `None`. The validator's issue
  list is taken as given.
- SWT widgets, dialogs and error boxes are left out. This covers `createDialogArea`,
  the list editors for examples and documentation, `loadContents`, the browse
  buttons and `showError`. The form values reach `okPressed` as a `Form` value.
- Gson serialisation (`DslProfile.fromJson`/`toJson`) is left out, and so are the
  preference store, the handlers and the views.
- Files.ExternalFile.Target: when the relative path is null or blank and the
  source path is null, Java's `Path.of(null)` throws `NullPointerException`. It
  escapes the `IOException` handling of `buildExamplesString`, `suggest`,
  `explain` and `sync`. The model instead hands `AtSource(None)` to the file
  system, which may answer either way, so that crash is not captured.
- Files.ExternalFile.ReadContent: has the same gap as `Target`. With a null or
  blank relative path and a null source path it reads `AtSource(None)` from the
  file system, where Java's `Path.of(null)` throws `NullPointerException`.
- ProfileDialog.DslProfileDialog.ChooseXtextFile: follows the corrected reuse
  test of the Findings row, and so do BuildProfile, Save, Commit and OkPressed,
  which rely on it. The original xtext file is kept exactly when the field still
  shows it. The test as written at `DslProfileDialog.java:467` keeps the original
  whenever its source path differs from the field. That test exists only as
  `XtextChoiceAsWritten`, with `XtextPathNeverChangesAsWritten` and
  `XtextPathNeverChangesExample` about it.
- `Path.of` is modelled for Unix file systems: a path is invalid exactly when it
  holds a NUL character, and `/` is the only separator. `Path.resolve` is kept
  symbolic.
- Strings are sequences of code points, not UTF-16 units. `isBlank` uses
  `Character.isWhitespace` over a fixed table.
- Java `int` is modelled as unbounded. The spinners limit the attempts to 100, and
  offsets come from the editor, so no overflow is reachable.
- Plain getters are field reads. `getEmbeddingIds` and `getFiles` return sequences,
  so the copies they make cannot be aliased.
- IdentifierSuggestion.Suggest: the `ChatRequest` carries an attempt number so that
  successive LLM calls may answer differently. The real LLM is not a function of
  its input.
- ProfileDialog.DslProfileDialog.OkPressed: requires that the other profiles all
  have a name and an extension. A profile without one makes the Java stream throw
  `NullPointerException`.
- ProfileDialog.DslProfileDialog.OkPressed: requires the spinner selections to be
  at or above their minimums (0 fix attempts, 1 generation attempt). The widgets
  guarantee this.
- ProfileDialog.DslProfileDialog.OkPressed: does not state the result after a
  failed save. The model follows Java: when `setFiles` throws, `result` already
  holds the partly filled profile; when the xtext file or the profile cannot be
  built, `result` is unchanged.
- Embeddings.EmbeddingManager.Sync: when a read fails part-way, the ids already
  added stay tracked while their files stay pending. "No orphan ids" is therefore
  stated only for a complete sync.
- Trimming the context overlap is not idempotent. A second pass can cut more, as
  `Assistant.TrimNotIdempotent` shows. The model follows the code.
- `SyntaxVerifier.Validate`: the injector, resource set and validator are folded
  into one `analyse` parameter. The dummy resource URI built from a random UUID is
  not modelled.
- `Activator`, `FileUtils` (copying files into the home folder) and
  `StandaloneSetupSelectorDialog` are not part of this model.

## Findings

| source | as written | input that shows it | evidently intended | confidence | as-written member | corrected member |
|---|---|---|---|---|---|---|
| dev.aleiis.hintforge/src/dev/aleiis/hintforge/preference/DslProfileDialog.java:467 | when editing, the original xtext file is reused when its source path differs from the path in the field, and a new file is built when they are equal | editing a profile built on "a.xtext" and choosing "b.xtext" saves "a.xtext" | reuse the original file only while the field still shows it (its relative path when set, else its source path), so that the saved file always shows the field | high; not executed | ProfileDialog.XtextPathNeverChangesAsWritten | ProfileDialog.XtextPathFollowsField, ProfileDialog.DslProfileDialog.ChooseXtextFile |

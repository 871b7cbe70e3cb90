/**
 * EmbeddableExternalFile: an ExternalFile that also remembers the ids under
 * which the embedding store keeps the segments of its content. The Java
 * subclass is modelled by composition: `file` is the ExternalFile part.
 */
module EmbeddableFiles {
  import opened Wrappers
  import opened JavaText
  import opened Files

  class EmbeddableExternalFile {
    const file: ExternalFile
    var embeddingIds: seq<string>

    /** The no-argument constructor: every ExternalFile field null and no ids. */
    constructor ()
      ensures fresh(file)
      ensures file.originalFileName == None && file.sourcePath == None && file.relativePath == None
      ensures embeddingIds == []
      ensures !IsEmbedded()
    {
      file := new ExternalFile();
      embeddingIds := [];
    }

    /** The two-argument constructor: the ExternalFile checks, then no ids; null where Java throws. */
    static method Create(source: Option<string>, originalFileName: Option<string>) returns (f: EmbeddableExternalFile?)
      ensures f == null <==> !(IsAcceptedSource(source) && IsAcceptedName(originalFileName))
      ensures f != null ==> fresh(f) && fresh(f.file) && f.file.sourcePath == source
                            && f.file.originalFileName == originalFileName && f.file.relativePath == None
                            && f.embeddingIds == [] && !f.IsEmbedded()
    {
      var base := ExternalFile.Create(source, originalFileName);
      if base == null {
        return null;
      }
      f := new EmbeddableExternalFile.Wrap(base);
    }

    /** Wraps an ExternalFile part that has no embedding yet. */
    constructor Wrap(base: ExternalFile)
      ensures file == base && embeddingIds == []
    {
      file := base;
      embeddingIds := [];
    }

    /** `getEmbeddingIds`: a copy of the stored ids (a sequence value cannot be aliased). */
    function GetEmbeddingIds(): seq<string>
      reads this
    {
      embeddingIds
    }

    /** `isEmbedded`: some segment of this file is in the store. */
    predicate IsEmbedded()
      reads this
      ensures IsEmbedded() <==> |GetEmbeddingIds()| > 0
    {
      embeddingIds != []
    }

    /**
     * `calculateAndStoreEmbedding`: reads the content (None where the read throws,
     * and then nothing changes), and otherwise replaces the ids with `storedIds`,
     * the ids the store hands back for this content's segments, and returns them.
     */
    method CalculateAndStoreEmbedding(homeFolder: string, fs: FileSystem, storedIds: seq<string>)
      returns (ids: Option<seq<string>>)
      modifies this`embeddingIds
      ensures ids.None? <==> file.ReadContent(homeFolder, fs).None?
      ensures ids.Some? ==> ids.value == storedIds && embeddingIds == storedIds
      ensures ids.None? ==> embeddingIds == old(embeddingIds)
      ensures ids.Some? ==> (IsEmbedded() <==> storedIds != [])
    {
      var content := file.ReadContent(homeFolder, fs);
      if content.None? {
        return None;
      }
      embeddingIds := storedIds;
      ids := Some(storedIds);
    }
  }
}

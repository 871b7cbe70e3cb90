/**
 * ExternalFile: a file the plugin reads, known by its original source path and,
 * once copied into the plugin's home folder, by a path relative to that folder.
 */
module Files {
  import opened Wrappers
  import opened JavaText

  /** Where `readContent` reads from: `homeFolder.resolve(relativePath)` or `Path.of(sourcePath)`. */
  datatype ReadTarget = UnderHome(homeFolder: string, relativePath: string) | AtSource(sourcePath: Option<string>)

  /** The file system, as seen by `Files.readString`: the content, or None when an IOException is thrown. */
  type FileSystem = ReadTarget -> Option<string>

  /** `Path.of` on a Unix file system rejects exactly the paths holding a NUL character. */
  predicate IsValidPath(p: string) {
    forall i :: 0 <= i < |p| ==> p[i] != '\0'
  }

  /** The values `setSourcePath` accepts: non-null, non-blank and a valid path. */
  predicate IsAcceptedSource(p: Option<string>) {
    p.Some? && !IsBlank(p.value) && IsValidPath(p.value)
  }

  /** The values `setOriginalFileName` accepts: non-null and non-blank. */
  predicate IsAcceptedName(n: Option<string>) {
    n.Some? && !IsBlank(n.value)
  }

  /** A file with a non-null, non-blank source path: what `addFile` and `setXtextFile` demand. */
  predicate HasUsableSource(p: ExternalFile?)
    reads p
  {
    p != null && p.sourcePath.Some? && !IsBlank(p.sourcePath.value)
  }

  class ExternalFile {
    var originalFileName: Option<string>
    var sourcePath: Option<string>
    var relativePath: Option<string>

    /** The no-argument constructor leaves every field null. */
    constructor ()
      ensures originalFileName == None && sourcePath == None && relativePath == None
    {
      originalFileName, sourcePath, relativePath := None, None, None;
    }

    /**
     * The two-argument constructor: sets and validates the source path, then the
     * original name, and clears the relative path. Returns null where the Java
     * constructor throws IllegalArgumentException.
     */
    static method Create(source: Option<string>, originalFileName: Option<string>) returns (f: ExternalFile?)
      ensures f == null <==> !(IsAcceptedSource(source) && IsAcceptedName(originalFileName))
      ensures f != null ==> fresh(f) && f.sourcePath == source && f.originalFileName == originalFileName
                            && f.relativePath == None
    {
      var file := new ExternalFile();
      var ok := file.SetSourcePath(source);
      if !ok {
        return null;
      }
      ok := file.SetOriginalFileName(originalFileName);
      if !ok {
        return null;
      }
      file.SetRelativePath(None);
      f := file;
    }

    /** Rejects a null or blank name (the exception) and then leaves the field unchanged. */
    method SetOriginalFileName(name: Option<string>) returns (ok: bool)
      modifies this`originalFileName
      ensures ok <==> IsAcceptedName(name)
      ensures originalFileName == if ok then name else old(originalFileName)
    {
      ok := IsAcceptedName(name);
      if ok {
        originalFileName := name;
      }
    }

    /** Rejects a null, blank or invalid path (the exception) and then leaves the field unchanged. */
    method SetSourcePath(path: Option<string>) returns (ok: bool)
      modifies this`sourcePath
      ensures ok <==> IsAcceptedSource(path)
      ensures sourcePath == if ok then path else old(sourcePath)
    {
      ok := IsAcceptedSource(path);
      if ok {
        sourcePath := path;
      }
    }

    /** Accepts any value, null included. */
    method SetRelativePath(path: Option<string>)
      modifies this`relativePath
      ensures relativePath == path
    {
      relativePath := path;
    }

    /** The relative path is used exactly when it is non-null and non-blank; otherwise the source path is. */
    function Target(homeFolder: string): (t: ReadTarget)
      reads this
      ensures t.UnderHome? <==> relativePath.Some? && !IsBlank(relativePath.value)
      ensures t.UnderHome? ==> t == UnderHome(homeFolder, relativePath.value)
      ensures t.AtSource? ==> t.sourcePath == sourcePath
    {
      if relativePath.Some? && !IsBlank(relativePath.value) then UnderHome(homeFolder, relativePath.value)
      else AtSource(sourcePath)
    }

    /** `readContent`: the content at the chosen target, or None where an IOException is thrown. */
    function ReadContent(homeFolder: string, fs: FileSystem): (content: Option<string>)
      reads this
      ensures relativePath.Some? && !IsBlank(relativePath.value) ==> content == fs(UnderHome(homeFolder, relativePath.value))
      ensures relativePath.None? || IsBlank(relativePath.value) ==> content == fs(AtSource(sourcePath))
    {
      fs(Target(homeFolder))
    }
  }
}

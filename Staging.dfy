/**
  The composing entry point (`prepareRenderingDir`): stage the input into the
  output directory, resolve the entry file at the staged top level, and return
  the output directory joined with that file's name.

  The file system is abstract here. An input designation carries the tree it
  stands for (the designated file's directory, the directory itself, or the
  archive's unpacked entries), and staging yields the tree the output
  directory then holds; the resolver sees that tree's top level.
 */
module Staging {
  import opened Strings
  import opened Paths
  import opened Resolver

  /** What unpacking an archive gives: its entries, or a decompression failure. */
  datatype Extraction = Extracted(entries: Tree) | Corrupt

  /** The three shapes of input, as classified when staging starts. */
  datatype Designation =
    | SingleFile(sourceDir: Tree, name: string)
    | Directory(tree: Tree)
    | Archive(extraction: Extraction)

  datatype StageError = IOError | Unresolved(reason: PickError)

  datatype Result<T> = Ok(value: T) | Err(error: StageError)

  /**
    The tree the output directory holds once the input is staged. A single
    file is copied together with every file beside it, flattened to the top
    level; a directory is copied whole; an archive is unpacked with its
    relative paths. A missing source file or a corrupt archive is an I/O error.
   */
  function Stage(d: Designation): (r: Result<Tree>)
    ensures r.Err? ==> r.error == IOError
    ensures d.SingleFile? ==>
      && (r.Ok? <==> d.name in d.sourceDir && IsPlainName(d.name))
      && (r.Ok? ==> r.value == TopLevel(d.sourceDir))
    ensures d.Directory? ==> r.Ok? && r.value == d.tree
    ensures d.Archive? ==> (r.Ok? <==> d.extraction.Extracted?)
    ensures d.Archive? && r.Ok? ==> r.value == d.extraction.entries
  {
    match d
    case SingleFile(sourceDir, name) =>
      if name in sourceDir && IsPlainName(name) then Ok(TopLevel(sourceDir)) else Err(IOError)
    case Directory(tree) => Ok(tree)
    case Archive(Extracted(entries)) => Ok(entries)
    case Archive(Corrupt) => Err(IOError)
  }

  /**
    Stage, resolve, and return the path of the entry file inside `outputDir`.
    A successful result lies in `outputDir` and names a `.tex` file at the
    staged top level.
   */
  function PrepareRenderingDir(d: Designation, outputDir: string): (r: Result<string>)
    ensures r.Ok? ==>
      && Stage(d).Ok?
      && StartsWith(r.value, outputDir)
      && BaseName(r.value) in TopLevel(Stage(d).value)
      && IsTex(BaseName(r.value))
    ensures Stage(d).Err? ==> r == Err(IOError)
  {
    match Stage(d)
    case Err(e) => Err(e)
    case Ok(tree) =>
      match PickLatexFile(TopLevel(tree))
      case Picked(name) =>
        JoinBaseName(outputDir, name);
        Ok(Join(outputDir, name))
      case Failed(e) => Err(Unresolved(e))
  }

  /**
    Once staging succeeds, the returned path is the output directory joined
    with exactly the name the resolver picks, and a resolver failure is
    passed on unchanged.
   */
  lemma PrepareReturnsResolvedEntry(d: Designation, outputDir: string, name: string, e: PickError)
    requires Stage(d).Ok?
    ensures PrepareRenderingDir(d, outputDir) == Ok(Join(outputDir, name))
      <==> PickLatexFile(TopLevel(Stage(d).value)) == Picked(name)
    ensures PrepareRenderingDir(d, outputDir) == Err(Unresolved(e))
      <==> PickLatexFile(TopLevel(Stage(d).value)) == Failed(e)
  {
  }

  // ---------------------------------------------------------------------------
  // The directories of the staging test suite. The output directory is left
  // open: any path works, including one whose directories do not exist yet.

  lemma PlainNames()
    ensures IsPlainName("main.tex") && IsPlainName("nope.tex") && IsPlainName("cool.gif")
  {
  }

  /** A designated `main.tex` next to `cool.gif`: both are staged and `main.tex` is returned. */
  lemma CopiesInputWhenSpecifyingFile(outputDir: string)
    ensures Stage(SingleFile(map["main.tex" := "", "cool.gif" := ""], "main.tex")).Ok?
    ensures "cool.gif" in Stage(SingleFile(map["main.tex" := "", "cool.gif" := ""], "main.tex")).value
    ensures PrepareRenderingDir(SingleFile(map["main.tex" := "", "cool.gif" := ""], "main.tex"), outputDir)
      == Ok(Join(outputDir, "main.tex"))
  {
    var d := SingleFile(map["main.tex" := "", "cool.gif" := ""], "main.tex");
    PlainNames();
    var top := TopLevel(Stage(d).value);
    assert "main.tex" in top;
    ChoosesMainTex(top);
  }

  /**
    A designated file does not override the resolver: `paper.tex` designated
    beside `ms.tex` yields `ms.tex`.
   */
  lemma SiblingConventionalNameWins(outputDir: string)
    ensures PrepareRenderingDir(SingleFile(map["paper.tex" := "", "ms.tex" := ""], "paper.tex"), outputDir)
      == Ok(Join(outputDir, "ms.tex"))
  {
    var d := SingleFile(map["paper.tex" := "", "ms.tex" := ""], "paper.tex");
    assert IsPlainName("paper.tex") && IsPlainName("ms.tex");
    var top := TopLevel(Stage(d).value);
    assert "ms.tex" in top;
    ChoosesMsTex(top);
  }

  /** A directory with `main.tex`, `nope.tex` and `cool.gif`: all are staged and `main.tex` is returned. */
  lemma CopiesDirectoryAndChoosesTex(outputDir: string)
    ensures "cool.gif" in Stage(Directory(map["main.tex" := "", "nope.tex" := "", "cool.gif" := ""])).value
    ensures PrepareRenderingDir(Directory(map["main.tex" := "", "nope.tex" := "", "cool.gif" := ""]), outputDir)
      == Ok(Join(outputDir, "main.tex"))
  {
    var d := Directory(map["main.tex" := "", "nope.tex" := "", "cool.gif" := ""]);
    PlainNames();
    var top := TopLevel(Stage(d).value);
    assert "main.tex" in top;
    ChoosesMainTex(top);
  }

  /** A directory staged into a sub-directory that does not exist yet. */
  lemma StagesIntoMissingOutputDirectory(outputDir: string)
    ensures PrepareRenderingDir(Directory(map["main.tex" := ""]), Join(outputDir, "doesnotexist"))
      == Ok(Join(Join(outputDir, "doesnotexist"), "main.tex"))
  {
    PlainNames();
    var top := TopLevel(map["main.tex" := ""]);
    assert "main.tex" in top;
    ChoosesMainTex(top);
  }

  /** A gzip-compressed tarball holding `main.tex` is unpacked and `main.tex` is returned. */
  lemma ExtractsTarballs(outputDir: string)
    ensures PrepareRenderingDir(Archive(Extracted(map["main.tex" := ""])), outputDir)
      == Ok(Join(outputDir, "main.tex"))
  {
    PlainNames();
    var top := TopLevel(map["main.tex" := ""]);
    assert "main.tex" in top;
    ChoosesMainTex(top);
  }

  /** The same tarball unpacked into `does/not/exist` below the output directory. */
  lemma ExtractsTarballsIntoMissingDirectory(outputDir: string)
    ensures PrepareRenderingDir(Archive(Extracted(map["main.tex" := ""])), Join(outputDir, "does/not/exist"))
      == Ok(Join(Join(outputDir, "does/not/exist"), "main.tex"))
  {
    ExtractsTarballs(Join(outputDir, "does/not/exist"));
  }
}

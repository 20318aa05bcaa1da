# Entry-file resolution for a LaTeX rendering pipeline

This project models the part of engrafo that gets a LaTeX source ready for
rendering: `prepareRenderingDir` and the entry-file resolver `pickLatexFile`.
`prepareRenderingDir` stages an input (a single `.tex` file, a directory, or a
gzip-compressed tarball) into an output directory. `pickLatexFile` then decides
which top-level file of that directory is the document to render.

The behaviour modelled is the one the test suite `tests/input.test.js` pins
down: its staging cases (lines 24-84) and its resolver cases (lines 98-180),
which reach every branch of the resolver. The model states that behaviour for
all inputs, and the suite's directories are instances of it.

The resolver is a pure function over a snapshot of one directory's top level,
a `map<string, string>` from file name to contents. The order in which a
listing returns the names cannot influence the choice. The decision runs
through five gates, and each one either answers or falls through:

1. `ms.tex` is present: choose it.
2. `main.tex` is present: choose it.
3. No name ends in `.tex`: fail with "No .tex files found". Exactly one does: choose it.
4. No `.tex` file contains the raw substring `\documentclass`: fail with
   "No .tex files with \documentclass found". Exactly one does: choose it.
5. Exactly one of those files has a `.bbl` file with the same base name beside
   it: choose it. Otherwise fail with "Ambiguous LaTeX path".

Modules:

- `Strings` (Strings.dfy): suffix test, raw substring search with its
  reference definition, and the extension swap `x.tex` to `x.bbl`.
- `Paths` (Paths.dfy): `path.join` for a plain file name, the last path
  segment, and the top level of a directory tree.
- `Resolver` (Resolver.dfy): `PickLatexFile`, written as the filter-and-count
  pipeline. Beside it is `Resolves`, a declarative reference definition that
  states each gate with "there is exactly one" quantifiers instead of set
  sizes. The lemmas prove that the two agree, and from that each gate and
  each error condition in both directions.
- `ResolverCases` (ResolverCases.dfy): the resolver test suite's directories
  with their expected answers.
- `Staging` (Staging.dfy): staging over an abstract input designation, and
  `PrepareRenderingDir`, which returns `join(outputDir, picked name)`. It
  ends with the staging test suite's cases.

Several `\documentclass` candidates with no `.bbl` companion at all end in
"Ambiguous LaTeX path". The test suite does not cover this case. The model
takes it as the fall-through of gate 5, since no file is singled out
(`Resolver.AmbiguousExactly` states it).

## Model

| member | source | states |
|---|---|---|
| `Resolver.PickLatexFile` | tests/input.test.js:98-180 | the resolver; whatever it picks is a name of the snapshot that ends in `.tex` |
| `Resolver.PickLatexFileResolves` | tests/input.test.js:98-180 | every answer of the resolver is justified by the gate-by-gate reference definition `Resolves` |
| `Resolver.ResolvesOnlyPick` | tests/input.test.js:98-180 | the reference definition admits no answer other than the resolver's: ties are never broken arbitrarily |
| `Resolver.PickLatexFileIsResolution` | tests/input.test.js:98-180 | for every snapshot and every answer, the resolver returns that answer exactly when the gates justify it |
| `Resolver.ChoosesMsTex` | tests/input.test.js:98-107 | with `ms.tex` present the result is `ms.tex`, whatever else is present |
| `Resolver.ChoosesMainTex` | tests/input.test.js:108-117 | without `ms.tex` and with `main.tex` the result is `main.tex`, whatever else is present |
| `Resolver.ChoosesOnlyTexFile` | tests/input.test.js:118-127 | when exactly one name ends in `.tex`, that name is chosen whatever its contents |
| `Resolver.ChoosesOnlyDocumentClass` | tests/input.test.js:128-138 | without `ms.tex`/`main.tex`, the only `.tex` file containing `\documentclass` is chosen |
| `Resolver.ChoosesOnlyCompanion` | tests/input.test.js:139-150 | without `ms.tex`/`main.tex`, the only `\documentclass` file with a same-base-name `.bbl` is chosen |
| `Resolver.NoTexFilesExactly` | tests/input.test.js:151-158 | "No .tex files found" is the answer if and only if no name ends in `.tex` |
| `Resolver.NoDocumentClassExactly` | tests/input.test.js:159-168 | "No .tex files with \documentclass found" if and only if there is no `ms.tex`/`main.tex`, there are at least two `.tex` files, and none contains the marker |
| `Resolver.AmbiguousExactly` | tests/input.test.js:169-180 | "Ambiguous LaTeX path" if and only if there is no `ms.tex`/`main.tex`, at least two files carry the marker, and the `.bbl` tiebreak does not single one out |
| `Resolver.OtherFilesIrrelevant` | tests/input.test.js:118-138 | adding or changing a file that is neither `.tex` nor `.bbl` (an image, say) never changes the answer |
| `Resolver.Companion` | tests/input.test.js:139-150 | the companion of `x.tex` ends in `.bbl` and is never itself a `.tex` candidate |
| `Resolver.CompanionInjective` | tests/input.test.js:169-180 | distinct `.tex` files have distinct companions, and swapping the extension back gives the file |
| `Resolver.Message` | tests/input.test.js:155-177 | the two "no .tex files" errors open with "No .tex files" and the ambiguity error does not; the phrases are the ones lines 155, 165 and 177 look for |
| `Resolver.MessagesDistinguishKinds` | tests/input.test.js:151-180 | an error's message contains the phrase of a kind exactly when it is of that kind, so each failure test recognises only its own error |
| `Resolver.ReportedErrorNamesKind` | tests/input.test.js:155-177 | whatever text precedes it when the error is rendered, the error's classification phrase is found in it |
| `Strings.ContainsIff` | tests/input.test.js:128-138 | the recursive substring search is true exactly when the marker occurs at some index |
| `Strings.ReplaceSuffixRoundTrip` | tests/input.test.js:139-150 | swapping `.tex` for `.bbl` and back gives the original name |
| `Paths.Join` | tests/input.test.js:30 | the joined path starts with the directory, ends with the name, with a `/` before the name |
| `Paths.TopLevel` | tests/input.test.js:24-48 | exactly the entries of a tree with a plain (one-segment) name, each with its contents: what the resolver sees of the staged directory |
| `Paths.JoinBaseName` | tests/input.test.js:24-84 | the last segment of the joined path is the joined file name |
| `Staging.Stage` | tests/input.test.js:24-84 | a single file is staged as exactly the top level of its directory, names and contents; a directory whole; an archive unpacked; a missing file or corrupt archive is an I/O error |
| `Staging.PrepareRenderingDir` | tests/input.test.js:24-84 | a returned path lies inside the output directory and names a `.tex` file at the staged top level; a staging error is passed on |
| `Staging.PrepareReturnsResolvedEntry` | tests/input.test.js:24-84 | once staged, the path is `join(outputDir, name)` exactly when the resolver picks `name`, and a resolver error comes back unchanged |
| `Staging.CopiesInputWhenSpecifyingFile` | tests/input.test.js:24-35 | designating `main.tex` next to `cool.gif` stages both and returns `join(outputDir, "main.tex")` |
| `Staging.SiblingConventionalNameWins` | tests/input.test.js:24-35 | `paper.tex` designated beside `ms.tex` returns `join(outputDir, "ms.tex")`: the resolver decides, not the designation |
| `Staging.CopiesDirectoryAndChoosesTex` | tests/input.test.js:37-48 | a directory with `main.tex`, `nope.tex`, `cool.gif` stages `cool.gif` and returns `join(outputDir, "main.tex")` |
| `Staging.StagesIntoMissingOutputDirectory` | tests/input.test.js:50-59 | staging below `outputDir/doesnotexist` returns `main.tex` joined onto that directory |
| `Staging.ExtractsTarballs` | tests/input.test.js:61-71 | a tarball holding `main.tex` returns `join(outputDir, "main.tex")` |
| `Staging.ExtractsTarballsIntoMissingDirectory` | tests/input.test.js:73-84 | the same tarball unpacked into `does/not/exist` returns `main.tex` joined onto that directory |
| `ResolverCases.ChoosesMsTexIfItExists` | tests/input.test.js:98-107 | `ms.tex`, `nope.tex`, `cool.gif` resolve to `ms.tex` |
| `ResolverCases.ChoosesMainTexIfItExists` | tests/input.test.js:108-117 | `main.tex`, `nope.tex`, `cool.gif` resolve to `main.tex` |
| `ResolverCases.ChoosesTheOnlyTexFile` | tests/input.test.js:118-127 | an empty `wibble.tex` beside two images is chosen |
| `ResolverCases.ChoosesDocumentClassOverMarkerless` | tests/input.test.js:128-138 | `correct.tex` with the marker wins over a `wibble.tex` holding any text without a backslash |
| `ResolverCases.ChoosesTheOnlyDocumentClassFile` | tests/input.test.js:128-138 | the test's own directory resolves to `correct.tex` |
| `ResolverCases.CompanionBreaksTie` | tests/input.test.js:139-150 | for any two distinct `.tex` names sharing a `\documentclass` text, the one whose `.bbl` is present is chosen |
| `ResolverCases.ChoosesTheOnlyFileWithBbl` | tests/input.test.js:139-150 | of two marker files, `correct.tex` with `correct.bbl` is chosen |
| `ResolverCases.FailsWithoutTexFiles` | tests/input.test.js:151-158 | `cool.gif`, `rad.jpg` give "No .tex files found" |
| `ResolverCases.NeitherHasDocumentClass` | tests/input.test.js:159-168 | any two distinct `.tex` names whose texts lack the marker give "No .tex files with \documentclass found" |
| `ResolverCases.FailsWithoutDocumentClass` | tests/input.test.js:159-168 | two empty `.tex` files give "No .tex files with \documentclass found" |
| `ResolverCases.CompanionsTie` | tests/input.test.js:169-180 | any two distinct `\documentclass` files that each have their `.bbl` give "Ambiguous LaTeX path" |
| `ResolverCases.FailsWhenSeveralHaveBbl` | tests/input.test.js:169-180 | two marker files, each with its `.bbl`, give "Ambiguous LaTeX path" |

## Left out

- Copying files, recursive directory copy, and creating a missing output directory with its parents are file-system I/O. The tests check them only through `fs.lstatSync`. `Staging.Stage` gives the resulting tree instead.
- Staging.Stage: assumes the output directory starts empty, as the tests' fresh temporary directories do; what was already there is not merged in.
- Staging.Stage: classifying an input path as file, directory or archive needs `lstat` and the archive name. The model takes the classified designation as its input.
- Gzip decompression and tar extraction are a foreign library. An archive is modelled by the entries it unpacks to, or by a decompression failure.
- Reading file contents from disk: contents arrive in the snapshot already read.
- Temporary directories, their cleanup, the `beforeEach`/`afterEach` fixtures, and the callback style of both operations are test scaffolding and asynchronous plumbing.
- Paths.Join: covers joining a directory with a plain file name. Node's normalisation of `.`, `..` and repeated separators is not modelled.
- Sub-directories at the top level of the staged directory, for example a directory named `x.tex`, are not modelled. The snapshot holds files only, so such a directory is never a candidate.
- Staging.Stage: for a designated single file, the sub-directories beside it are not copied, only the files.
- Staging.PrepareRenderingDir: returning `join(outputDir, designated name)` for a designated single file is not modelled. The model runs the resolver over the designated file and its siblings, so `paper.tex` designated beside `ms.tex` gives `join(outputDir, "ms.tex")` (`Staging.SiblingConventionalNameWins`). The one test of this case designates `main.tex` and cannot tell the two apart.

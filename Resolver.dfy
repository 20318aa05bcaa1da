/**
  The entry-file resolver (`pickLatexFile`): given the top level of a staged
  directory, choose the LaTeX file to render or report why none can be chosen.

  The directory is a map from file name to contents, so the order in which a
  listing returns the names cannot influence the choice. The decision is a
  pipeline of five gates, each either ending with an answer or falling through:
  `ms.tex`, then `main.tex`, then the only `.tex` file, then the only `.tex`
  file containing `\documentclass`, then the only such file with a `.bbl`
  companion of the same base name.
 */
module Resolver {
  import opened Strings

  /** Top level of a directory: file name to file contents. */
  type Snapshot = map<string, string>

  const MsTex := "ms.tex"
  const MainTex := "main.tex"
  const TexExtension := ".tex"
  const BblExtension := ".bbl"
  const DocumentClassMarker := "\\documentclass"

  datatype PickError = NoTexFiles | NoDocumentClassFiles | AmbiguousEntry

  /** The phrase each error carries; callers recognise the kind by it. */
  function Message(e: PickError): (m: string)
    ensures StartsWith(m, "No .tex files") <==> e != AmbiguousEntry
  {
    match e
    case NoTexFiles => "No .tex files found"
    case NoDocumentClassFiles => "No .tex files with \\documentclass found"
    case AmbiguousEntry =>
      assert "Ambiguous LaTeX path"[0] != 'N';
      "Ambiguous LaTeX path"
  }

  /** However the error is rendered ahead of its message, the phrase can be found in it. */
  lemma ReportedErrorNamesKind(front: string, e: PickError)
    ensures Contains(front + Message(e), Message(e))
  {
    ContainsAfter(front, Message(e));
  }

  /**
    Two phrases opening with the same character, which neither repeats, are
    not found in each other unless one begins the other.
   */
  lemma SameOpeningApart(short: string, long: string)
    requires 0 < |short| < |long| && short[0] == long[0]
    requires short[0] !in short[1..] && long[0] !in long[1..]
    requires long[..|short|] != short
    ensures !Contains(short, long) && !Contains(long, short)
  {
    FirstCharOnlyAtStart(short, long);
    FirstCharOnlyAtStart(long, short);
  }

  /** The two "no files" phrases begin alike but neither is found in the other. */
  lemma NoFilesPhrasesApart()
    ensures !Contains(Message(NoTexFiles), Message(NoDocumentClassFiles))
    ensures !Contains(Message(NoDocumentClassFiles), Message(NoTexFiles))
  {
    var short, long := Message(NoTexFiles), Message(NoDocumentClassFiles);
    assert 'N' !in short[1..];
    assert 'N' !in long[1..] by {
      var front, back := "o .tex files with ", "\\documentclass found";
      assert long[1..] == front + back;
      assert 'N' !in front && 'N' !in back;
    }
    assert long[..|short|][14] != short[14];
    SameOpeningApart(short, long);
  }

  /** No kind's phrase is found in another kind's message: the phrase tells the kinds apart. */
  lemma MessagesDistinguishKinds(e: PickError, other: PickError)
    ensures Contains(Message(e), Message(other)) <==> e == other
  {
    var m, p := Message(e), Message(other);
    if e == other {
      ContainsAtStart(p, "");
      assert p + "" == m;
    } else if e == AmbiguousEntry || other == AmbiguousEntry {
      assert p[0] !in m;
      AbsentFirstChar(m, p);
    } else {
      NoFilesPhrasesApart();
    }
  }

  datatype Pick = Picked(name: string) | Failed(error: PickError)

  predicate IsTex(name: string)
  {
    EndsWith(name, TexExtension)
  }

  /** The bibliography companion of a `.tex` file: same base name, `.bbl` extension. */
  function Companion(name: string): (bbl: string)
    requires IsTex(name)
    ensures EndsWith(bbl, BblExtension) && !IsTex(bbl)
  {
    ReplaceSuffix(name, TexExtension, BblExtension)
  }

  /** Distinct `.tex` files have distinct companions, and the companion leads back to its file. */
  lemma CompanionInjective(a: string, b: string)
    requires IsTex(a) && IsTex(b) && Companion(a) == Companion(b)
    ensures a == b && ReplaceSuffix(Companion(a), BblExtension, TexExtension) == a
  {
    ReplaceSuffixInjective(a, b, TexExtension, BblExtension);
    ReplaceSuffixRoundTrip(a, TexExtension, BblExtension);
  }

  /** A `.tex` file of the snapshot whose contents contain `\documentclass`. */
  predicate HasDocumentClass(dir: Snapshot, name: string)
  {
    name in dir && IsTex(name) && Contains(dir[name], DocumentClassMarker)
  }

  /** A `\documentclass` file whose `.bbl` companion is also in the snapshot. */
  predicate HasCompanion(dir: Snapshot, name: string)
  {
    HasDocumentClass(dir, name) && Companion(name) in dir
  }

  function TexFiles(dir: Snapshot): set<string>
  {
    set name | name in dir && IsTex(name)
  }

  function Qualified(dir: Snapshot): set<string>
  {
    set name | name in dir && HasDocumentClass(dir, name)
  }

  function WithCompanion(dir: Snapshot): set<string>
  {
    set name | name in dir && HasCompanion(dir, name)
  }

  /** The one element of a one-element set. */
  function TheOnly(s: set<string>): (x: string)
    requires |s| == 1
    ensures s == {x}
  {
    var x :| x in s;
    assert s == {x} by {
      if y :| y in s && y != x {
        assert {x, y} <= s;
        assert |{x, y}| == 2;
        SubsetSize({x, y}, s);
      }
    }
    x
  }

  lemma {:induction false} SubsetSize(a: set<string>, b: set<string>)
    requires a <= b
    ensures |a| <= |b|
    decreases |a|
  {
    if a != {} {
      var x :| x in a;
      SubsetSize(a - {x}, b - {x});
    }
  }

  /** The resolver: the five gates in order, each ending with an answer or falling through. */
  function PickLatexFile(dir: Snapshot): (r: Pick)
    ensures r.Picked? ==> r.name in dir && IsTex(r.name)
  {
    if MsTex in dir then Picked(MsTex)
    else if MainTex in dir then Picked(MainTex)
    else
      var tex := TexFiles(dir);
      if |tex| == 0 then Failed(NoTexFiles)
      else if |tex| == 1 then Picked(TheOnly(tex))
      else
        var qualified := Qualified(dir);
        if |qualified| == 0 then Failed(NoDocumentClassFiles)
        else if |qualified| == 1 then Picked(TheOnly(qualified))
        else
          var withBbl := WithCompanion(dir);
          if |withBbl| == 1 then Picked(TheOnly(withBbl))
          else Failed(AmbiguousEntry)
  }

  // ---------------------------------------------------------------------------
  // Reference definition: the gates stated with quantifiers instead of counts.

  predicate NoConventionalName(dir: Snapshot)
  {
    MsTex !in dir && MainTex !in dir
  }

  ghost predicate SoleTexFile(dir: Snapshot, name: string)
  {
    name in dir && IsTex(name) && forall other :: other in dir && IsTex(other) ==> other == name
  }

  ghost predicate SoleDocumentClass(dir: Snapshot, name: string)
  {
    HasDocumentClass(dir, name) && forall other :: HasDocumentClass(dir, other) ==> other == name
  }

  ghost predicate SoleCompanion(dir: Snapshot, name: string)
  {
    HasCompanion(dir, name) && forall other :: HasCompanion(dir, other) ==> other == name
  }

  ghost predicate SeveralTexFiles(dir: Snapshot)
  {
    exists a, b :: a in dir && b in dir && a != b && IsTex(a) && IsTex(b)
  }

  ghost predicate SeveralDocumentClass(dir: Snapshot)
  {
    exists a, b :: a != b && HasDocumentClass(dir, a) && HasDocumentClass(dir, b)
  }

  /**
    `r` is an answer the gates justify: a pick that some gate singles out, or
    an error whose condition holds.
   */
  ghost predicate Resolves(dir: Snapshot, r: Pick)
  {
    match r
    case Picked(name) =>
      || (name == MsTex && MsTex in dir)
      || (name == MainTex && MsTex !in dir && MainTex in dir)
      || (NoConventionalName(dir) && SoleTexFile(dir, name))
      || (NoConventionalName(dir) && SeveralTexFiles(dir) && SoleDocumentClass(dir, name))
      || (NoConventionalName(dir) && SeveralDocumentClass(dir) && SoleCompanion(dir, name))
    case Failed(NoTexFiles) =>
      forall name :: name in dir ==> !IsTex(name)
    case Failed(NoDocumentClassFiles) =>
      && NoConventionalName(dir)
      && SeveralTexFiles(dir)
      && forall name :: !HasDocumentClass(dir, name)
    case Failed(AmbiguousEntry) =>
      && NoConventionalName(dir)
      && SeveralDocumentClass(dir)
      && forall name :: !SoleCompanion(dir, name)
  }

  lemma ConventionalNamesAreTex()
    ensures IsTex(MsTex) && IsTex(MainTex)
  {
    assert MsTex[|MsTex| - 4..] == TexExtension;
    assert MainTex[|MainTex| - 4..] == TexExtension;
  }

  /** A set has at least two members exactly when two distinct members can be named. */
  lemma AtLeastTwo(s: set<string>)
    ensures |s| >= 2 <==> exists a, b :: a in s && b in s && a != b
  {
    if |s| >= 2 {
      var a :| a in s;
      assert |s - {a}| >= 1;
      var b :| b in s - {a};
      assert a in s && b in s && a != b;
    }
    if exists a, b :: a in s && b in s && a != b {
      var a, b :| a in s && b in s && a != b;
      assert |{a, b}| == 2;
      SubsetSize({a, b}, s);
    }
  }

  /** The quantified `.tex` conditions are the size conditions on `TexFiles`. */
  lemma TexFilesBridge(dir: Snapshot)
    ensures TexFiles(dir) == {} <==> forall name :: name in dir ==> !IsTex(name)
    ensures SeveralTexFiles(dir) <==> |TexFiles(dir)| >= 2
    ensures forall name :: SoleTexFile(dir, name) <==> TexFiles(dir) == {name}
  {
    var tex := TexFiles(dir);
    AtLeastTwo(tex);
    if SeveralTexFiles(dir) {
      var a, b :| a in dir && b in dir && a != b && IsTex(a) && IsTex(b);
      assert a in tex && b in tex;
    }
    forall name | SoleTexFile(dir, name)
      ensures tex == {name}
    {
    }
    forall name | name in dir && IsTex(name)
      ensures name in tex
    {
    }
  }

  /** The quantified `\documentclass` conditions are the size conditions on `Qualified`. */
  lemma QualifiedBridge(dir: Snapshot)
    ensures Qualified(dir) == {} <==> forall name :: !HasDocumentClass(dir, name)
    ensures SeveralDocumentClass(dir) <==> |Qualified(dir)| >= 2
    ensures SeveralDocumentClass(dir) ==> SeveralTexFiles(dir)
    ensures forall name :: SoleDocumentClass(dir, name) <==> Qualified(dir) == {name}
  {
    var qualified := Qualified(dir);
    AtLeastTwo(qualified);
    if SeveralDocumentClass(dir) {
      var a, b :| a != b && HasDocumentClass(dir, a) && HasDocumentClass(dir, b);
      assert a in qualified && b in qualified;
      assert a in dir && b in dir && IsTex(a) && IsTex(b);
    }
    forall name | SoleDocumentClass(dir, name)
      ensures qualified == {name}
    {
    }
    forall name | HasDocumentClass(dir, name)
      ensures name in qualified
    {
    }
  }

  /** The quantified companion condition is the size condition on `WithCompanion`. */
  lemma WithCompanionBridge(dir: Snapshot)
    ensures forall name :: SoleCompanion(dir, name) <==> WithCompanion(dir) == {name}
    ensures (forall name :: !SoleCompanion(dir, name)) <==> |WithCompanion(dir)| != 1
  {
    var withBbl := WithCompanion(dir);
    forall name | SoleCompanion(dir, name)
      ensures withBbl == {name}
    {
    }
    forall name | HasCompanion(dir, name)
      ensures name in withBbl
    {
    }
    if |withBbl| == 1 {
      var name := TheOnly(withBbl);
      assert SoleCompanion(dir, name);
    }
  }

  /** Every answer of the resolver is justified by the reference definition. */
  lemma PickLatexFileResolves(dir: Snapshot)
    ensures Resolves(dir, PickLatexFile(dir))
  {
    ConventionalNamesAreTex();
    TexFilesBridge(dir);
    QualifiedBridge(dir);
    WithCompanionBridge(dir);
  }

  /** The reference definition admits no answer other than the resolver's. */
  lemma ResolvesOnlyPick(dir: Snapshot, r: Pick)
    requires Resolves(dir, r)
    ensures r == PickLatexFile(dir)
  {
    ConventionalNamesAreTex();
    if NoConventionalName(dir) {
      TexFilesBridge(dir);
      QualifiedBridge(dir);
      match r
      case Picked(name) =>
        if !SoleTexFile(dir, name) && !(SeveralTexFiles(dir) && SoleDocumentClass(dir, name)) {
          WithCompanionBridge(dir);
        }
      case Failed(AmbiguousEntry) =>
        WithCompanionBridge(dir);
      case Failed(_) =>
    }
  }

  /** The resolver's answer is the one and only answer the gates justify. */
  lemma PickLatexFileIsResolution(dir: Snapshot, r: Pick)
    ensures PickLatexFile(dir) == r <==> Resolves(dir, r)
  {
    PickLatexFileResolves(dir);
    if Resolves(dir, r) {
      ResolvesOnlyPick(dir, r);
    }
  }

  // ---------------------------------------------------------------------------
  // The gates one by one, in the terms the test suite uses.

  /** Gate 1: `ms.tex` wins whatever else is present. */
  lemma ChoosesMsTex(dir: Snapshot)
    requires MsTex in dir
    ensures PickLatexFile(dir) == Picked(MsTex)
  {
  }

  /** Gate 2: without `ms.tex`, `main.tex` wins whatever else is present. */
  lemma ChoosesMainTex(dir: Snapshot)
    requires MsTex !in dir && MainTex in dir
    ensures PickLatexFile(dir) == Picked(MainTex)
  {
  }

  /** Gate 3: the only `.tex` file is chosen, whatever its contents. */
  lemma ChoosesOnlyTexFile(dir: Snapshot, name: string)
    requires SoleTexFile(dir, name)
    ensures PickLatexFile(dir) == Picked(name)
  {
    ConventionalNamesAreTex();
    if NoConventionalName(dir) {
      ResolvesOnlyPick(dir, Picked(name));
    }
  }

  /** Gate 4: among several `.tex` files, the only one with `\documentclass` is chosen. */
  lemma ChoosesOnlyDocumentClass(dir: Snapshot, name: string)
    requires NoConventionalName(dir) && SoleDocumentClass(dir, name)
    ensures PickLatexFile(dir) == Picked(name)
  {
    if SeveralTexFiles(dir) {
      ResolvesOnlyPick(dir, Picked(name));
    } else {
      assert SoleTexFile(dir, name);
      ChoosesOnlyTexFile(dir, name);
    }
  }

  /** Gate 5: among several `\documentclass` files, the only one with a `.bbl` companion is chosen. */
  lemma ChoosesOnlyCompanion(dir: Snapshot, name: string)
    requires NoConventionalName(dir) && SoleCompanion(dir, name)
    ensures PickLatexFile(dir) == Picked(name)
  {
    if SeveralDocumentClass(dir) {
      ResolvesOnlyPick(dir, Picked(name));
    } else {
      assert SoleDocumentClass(dir, name);
      ChoosesOnlyDocumentClass(dir, name);
    }
  }

  /** "No .tex files found" is reported exactly when no name ends in `.tex`. */
  lemma NoTexFilesExactly(dir: Snapshot)
    ensures PickLatexFile(dir) == Failed(NoTexFiles) <==> forall name :: name in dir ==> !IsTex(name)
  {
    PickLatexFileIsResolution(dir, Failed(NoTexFiles));
  }

  /** "No .tex files with \documentclass found" is reported exactly when several `.tex` files exist, none by convention, and none has the marker. */
  lemma NoDocumentClassExactly(dir: Snapshot)
    ensures PickLatexFile(dir) == Failed(NoDocumentClassFiles) <==>
      NoConventionalName(dir) && SeveralTexFiles(dir) && forall name :: !HasDocumentClass(dir, name)
  {
    PickLatexFileIsResolution(dir, Failed(NoDocumentClassFiles));
  }

  /**
    "Ambiguous LaTeX path" is reported exactly when several `\documentclass`
    files remain and the `.bbl` tiebreak does not single one out (none or
    several of them have a companion).
   */
  lemma AmbiguousExactly(dir: Snapshot)
    ensures PickLatexFile(dir) == Failed(AmbiguousEntry) <==>
      NoConventionalName(dir) && SeveralDocumentClass(dir) && forall name :: !SoleCompanion(dir, name)
  {
    PickLatexFileIsResolution(dir, Failed(AmbiguousEntry));
  }

  /**
    Files that are neither `.tex` nor `.bbl` (images, say) never influence the
    choice: adding one, or changing its contents, leaves the answer as it was.
   */
  lemma OtherFilesIrrelevant(dir: Snapshot, other: string, contents: string)
    requires !IsTex(other) && !EndsWith(other, BblExtension)
    ensures PickLatexFile(dir[other := contents]) == PickLatexFile(dir)
  {
    ConventionalNamesAreTex();
    var dir' := dir[other := contents];
    assert TexFiles(dir') == TexFiles(dir);
    assert forall n :: HasDocumentClass(dir', n) <==> HasDocumentClass(dir, n);
    assert Qualified(dir') == Qualified(dir);
    assert WithCompanion(dir') == WithCompanion(dir);
  }
}

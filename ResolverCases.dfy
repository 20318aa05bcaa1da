/**
  The directories of the resolver's test suite, each with the answer the suite
  expects, derived from the general lemmas of module Resolver.
 */
module ResolverCases {
  import opened Strings
  import opened Resolver

  const DocumentClassLine := "\\documentclass[12pt, letterpaper]{article}"

  lemma ImagesAreNotTex()
    ensures !IsTex("cool.gif") && !IsTex("rad.jpg")
    ensures !EndsWith("cool.gif", BblExtension) && !EndsWith("rad.jpg", BblExtension)
  {
    assert "cool.gif"[4..][1] != TexExtension[1];
    assert "rad.jpg"[3..][1] != TexExtension[1];
    assert "cool.gif"[4..][1] != BblExtension[1];
    assert "rad.jpg"[3..][1] != BblExtension[1];
  }

  lemma MarkerLineQualifies()
    ensures Contains(DocumentClassLine, DocumentClassMarker)
  {
    ContainsAtStart(DocumentClassMarker, "[12pt, letterpaper]{article}");
    assert DocumentClassMarker + "[12pt, letterpaper]{article}" == DocumentClassLine;
  }

  lemma TexNames()
    ensures IsTex("nope.tex") && IsTex("wibble.tex") && IsTex("correct.tex")
  {
    assert "nope.tex"[4..] == TexExtension;
    assert "wibble.tex"[6..] == TexExtension;
    assert "correct.tex"[7..] == TexExtension;
  }

  lemma CompanionNames()
    ensures IsTex("wibble.tex") && Companion("wibble.tex") == "wibble.bbl"
    ensures IsTex("correct.tex") && Companion("correct.tex") == "correct.bbl"
  {
    TexNames();
    assert "wibble.tex"[..6] + BblExtension == "wibble.bbl";
    assert "correct.tex"[..7] + BblExtension == "correct.bbl";
  }

  /** `ms.tex` is chosen beside `nope.tex` and `cool.gif`. */
  lemma ChoosesMsTexIfItExists()
    ensures PickLatexFile(map["ms.tex" := "", "nope.tex" := "", "cool.gif" := ""]) == Picked("ms.tex")
  {
    ChoosesMsTex(map["ms.tex" := "", "nope.tex" := "", "cool.gif" := ""]);
  }

  /** `main.tex` is chosen beside `nope.tex` and `cool.gif`. */
  lemma ChoosesMainTexIfItExists()
    ensures PickLatexFile(map["main.tex" := "", "nope.tex" := "", "cool.gif" := ""]) == Picked("main.tex")
  {
    ChoosesMainTex(map["main.tex" := "", "nope.tex" := "", "cool.gif" := ""]);
  }

  /** The only `.tex` file is chosen beside two images, though it is empty. */
  lemma ChoosesTheOnlyTexFile()
    ensures PickLatexFile(map["wibble.tex" := "", "cool.gif" := "", "rad.jpg" := ""]) == Picked("wibble.tex")
  {
    var dir := map["wibble.tex" := "", "cool.gif" := "", "rad.jpg" := ""];
    ImagesAreNotTex();
    TexNames();
    assert SoleTexFile(dir, "wibble.tex");
    ChoosesOnlyTexFile(dir, "wibble.tex");
  }

  /**
    Of two `.tex` files the one containing `\documentclass` is chosen; the
    other holds text without a backslash ("not the tex you are looking for").
   */
  lemma ChoosesDocumentClassOverMarkerless(otherText: string)
    requires DocumentClassMarker[0] !in otherText
    ensures PickLatexFile(map[
      "wibble.tex" := otherText,
      "correct.tex" := DocumentClassLine,
      "cool.gif" := "",
      "rad.jpg" := ""]) == Picked("correct.tex")
  {
    var dir := map[
      "wibble.tex" := otherText,
      "correct.tex" := DocumentClassLine,
      "cool.gif" := "",
      "rad.jpg" := ""];
    ImagesAreNotTex();
    TexNames();
    MarkerLineQualifies();
    AbsentFirstChar(otherText, DocumentClassMarker);
    forall other | HasDocumentClass(dir, other)
      ensures other == "correct.tex"
    {
      assert other in dir && IsTex(other);
    }
    assert HasDocumentClass(dir, "correct.tex");
    ChoosesOnlyDocumentClass(dir, "correct.tex");
  }

  /** The test's directory itself: `wibble.tex` says "not the tex you are looking for". */
  lemma ChoosesTheOnlyDocumentClassFile()
    ensures PickLatexFile(map[
      "wibble.tex" := "not the tex you are looking for",
      "correct.tex" := DocumentClassLine,
      "cool.gif" := "",
      "rad.jpg" := ""]) == Picked("correct.tex")
  {
    ChoosesDocumentClassOverMarkerless("not the tex you are looking for");
  }

  /** The companion of `loser` is neither of the two `.tex` files nor the companion of `winner`. */
  lemma LoserCompanionAbsent(loser: string, winner: string, text: string)
    requires IsTex(loser) && IsTex(winner) && loser != winner
    ensures Companion(loser) !in map[loser := text, winner := text, Companion(winner) := ""]
  {
    var lost := Companion(loser);
    assert lost != Companion(winner) by {
      if lost == Companion(winner) {
        CompanionInjective(loser, winner);
      }
    }
    assert !IsTex(lost);
  }

  /** Beside two distinct `.tex` files, only the companion of `winner` is present. */
  lemma OnlyWinnerHasCompanion(loser: string, winner: string, text: string)
    requires IsTex(loser) && IsTex(winner) && loser != winner
    requires Contains(text, DocumentClassMarker)
    ensures SoleCompanion(map[loser := text, winner := text, Companion(winner) := ""], winner)
  {
    var dir := map[loser := text, winner := text, Companion(winner) := ""];
    LoserCompanionAbsent(loser, winner, text);
    assert !IsTex(Companion(winner));
    assert HasCompanion(dir, winner);
  }

  /**
    Two `\documentclass` files, only `winner` with its `.bbl` companion:
    `winner` is chosen.
   */
  lemma CompanionBreaksTie(loser: string, winner: string, text: string)
    requires IsTex(loser) && IsTex(winner) && loser != winner
    requires NoConventionalName(map[loser := text, winner := text])
    requires Contains(text, DocumentClassMarker)
    ensures PickLatexFile(map[loser := text, winner := text, Companion(winner) := ""]) == Picked(winner)
  {
    var dir := map[loser := text, winner := text, Companion(winner) := ""];
    assert Companion(winner) != MsTex && Companion(winner) != MainTex by {
      ConventionalNamesAreTex();
    }
    OnlyWinnerHasCompanion(loser, winner, text);
    ChoosesOnlyCompanion(dir, winner);
  }

  /** Of two `\documentclass` files the one with a `.bbl` companion is chosen. */
  lemma ChoosesTheOnlyFileWithBbl()
    ensures PickLatexFile(map[
      "wibble.tex" := DocumentClassLine,
      "correct.tex" := DocumentClassLine,
      "correct.bbl" := "",
      "cool.gif" := "",
      "rad.jpg" := ""]) == Picked("correct.tex")
  {
    var text := DocumentClassLine;
    var core := map["wibble.tex" := text, "correct.tex" := text, "correct.bbl" := ""];
    ImagesAreNotTex();
    CompanionNames();
    MarkerLineQualifies();
    CompanionBreaksTie("wibble.tex", "correct.tex", text);
    OtherFilesIrrelevant(core, "cool.gif", "");
    OtherFilesIrrelevant(core["cool.gif" := ""], "rad.jpg", "");
  }

  /** Two `\documentclass` files, each with its own `.bbl` companion: no choice is made. */
  lemma CompanionsTie(a: string, b: string, text: string)
    requires IsTex(a) && IsTex(b) && a != b
    requires NoConventionalName(map[a := text, b := text])
    requires Contains(text, DocumentClassMarker)
    ensures PickLatexFile(map[a := text, Companion(a) := "", b := text, Companion(b) := ""])
      == Failed(AmbiguousEntry)
  {
    var dir := map[a := text, Companion(a) := "", b := text, Companion(b) := ""];
    ConventionalNamesAreTex();
    assert HasCompanion(dir, a) && HasCompanion(dir, b);
    assert SeveralDocumentClass(dir);
    AmbiguousExactly(dir);
  }

  /** Two images and no `.tex` file: "No .tex files found". */
  lemma FailsWithoutTexFiles()
    ensures PickLatexFile(map["cool.gif" := "", "rad.jpg" := ""]) == Failed(NoTexFiles)
  {
    ImagesAreNotTex();
    NoTexFilesExactly(map["cool.gif" := "", "rad.jpg" := ""]);
  }

  /** Two `.tex` files, neither with the marker: no choice is made. */
  lemma NeitherHasDocumentClass(a: string, b: string, textA: string, textB: string)
    requires IsTex(a) && IsTex(b) && a != b
    requires NoConventionalName(map[a := textA, b := textB])
    requires !Contains(textA, DocumentClassMarker) && !Contains(textB, DocumentClassMarker)
    ensures PickLatexFile(map[a := textA, b := textB]) == Failed(NoDocumentClassFiles)
  {
    var dir := map[a := textA, b := textB];
    assert a in dir && b in dir;
    assert SeveralTexFiles(dir);
    NoDocumentClassExactly(dir);
  }

  /** Two empty `.tex` files: "No .tex files with \documentclass found". */
  lemma FailsWithoutDocumentClass()
    ensures PickLatexFile(map["wibble.tex" := "", "nope.tex" := "", "cool.gif" := "", "rad.jpg" := ""])
      == Failed(NoDocumentClassFiles)
  {
    var core := map["wibble.tex" := "", "nope.tex" := ""];
    TexNames();
    ImagesAreNotTex();
    NeitherHasDocumentClass("wibble.tex", "nope.tex", "", "");
    OtherFilesIrrelevant(core, "cool.gif", "");
    OtherFilesIrrelevant(core["cool.gif" := ""], "rad.jpg", "");
  }

  /** Two `\documentclass` files, each with its `.bbl` companion: "Ambiguous LaTeX path". */
  lemma FailsWhenSeveralHaveBbl()
    ensures PickLatexFile(map[
      "wibble.tex" := DocumentClassLine,
      "wibble.bbl" := "",
      "correct.tex" := DocumentClassLine,
      "correct.bbl" := "",
      "cool.gif" := "",
      "rad.jpg" := ""]) == Failed(AmbiguousEntry)
  {
    var text := DocumentClassLine;
    var core := map["wibble.tex" := text, "wibble.bbl" := "", "correct.tex" := text, "correct.bbl" := ""];
    ImagesAreNotTex();
    CompanionNames();
    MarkerLineQualifies();
    CompanionsTie("wibble.tex", "correct.tex", text);
    OtherFilesIrrelevant(core, "cool.gif", "");
    OtherFilesIrrelevant(core["cool.gif" := ""], "rad.jpg", "");
  }
}

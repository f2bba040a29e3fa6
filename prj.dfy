/**
 * The ISE project lists `project.prj` and `project_isim.prj`
 * (`createPrjFile` in src/platforms/fitkit2/build-files/prj.ts and its
 * legacy twin `CreatePrj` in src/project/buildfiles/Prj.ts): one
 * `vhdl <library> "<path>"` line per FPGA source file taking part.
 */
module PrjFiles {
  import opened Wrappers
  import opened JsText
  import opened ProjectModel

  /** A file takes part unless it is simulation-only and the list is not for simulation. */
  predicate Takes(f: SourceFile, sim: bool)
  {
    sim || !f.simOnly
  }

  /** The files that take part, in their order. */
  function Included(files: seq<SourceFile>, sim: bool): (r: seq<SourceFile>)
    ensures |r| <= |files|
  {
    if files == [] then []
    else
      var last := files[|files| - 1];
      Included(files[..|files| - 1], sim) + (if Takes(last, sim) then [last] else [])
  }

  /** The line of one file: its own library, or the FPGA default library when it names none. */
  function PrjLine(defaultLibrary: string, prefix: string, f: SourceFile): (r: string)
    ensures |r| == |f.library.GetOr(defaultLibrary)| + |PathJoin(prefix, f.path)| + 8
    ensures r[|r| - 1] == '"'
  {
    "vhdl " + f.library.GetOr(defaultLibrary) + " \"" + PathJoin(prefix, f.path) + "\""
  }

  /** The line reads back as the keyword, the library and the quoted path. */
  lemma PrjLineFields(defaultLibrary: string, prefix: string, f: SourceFile)
    ensures var r := PrjLine(defaultLibrary, prefix, f);
            var lib := f.library.GetOr(defaultLibrary);
            var path := PathJoin(prefix, f.path);
            r[..5] == "vhdl " && r[5..5 + |lib|] == lib && r[5 + |lib|..7 + |lib|] == " \"" &&
            r[7 + |lib|..|r| - 1] == path
  {
  }

  /** One line per file that takes part, in input order. */
  function PrjLines(fpga: FpgaData, prefix: string, sim: bool): (r: seq<string>)
  {
    LinesOf(fpga.library, prefix, Included(fpga.files, sim))
  }

  /** `files.join(EOL) + EOL`. */
  function PrjContent(fpga: FpgaData, prefix: string, sim: bool): (r: string)
    ensures |r| >= 1 && r[|r| - 1] == '\n'
    ensures PrjLines(fpga, prefix, sim) == [] ==> r == "\n"
  {
    Join(PrjLines(fpga, prefix, sim), "\n") + "\n"
  }

  /** The `forEach` that pushes the lines, then the join. */
  method CreatePrjFile(fpga: FpgaData, prefix: string, sim: bool) returns (content: string)
    ensures content == PrjContent(fpga, prefix, sim)
  {
    var lines: seq<string> := [];
    for i := 0 to |fpga.files|
      invariant lines == LinesOf(fpga.library, prefix, Included(fpga.files[..i], sim))
    {
      var f := fpga.files[i];
      assert fpga.files[..i + 1][..i] == fpga.files[..i];
      if !sim && f.simOnly {
        continue;
      }
      var library := if f.library.Some? then f.library.value else fpga.library;
      lines := lines + ["vhdl " + library + " \"" + PathJoin(prefix, f.path) + "\""];
    }
    assert fpga.files[..|fpga.files|] == fpga.files;
    content := Join(lines, "\n") + "\n";
  }

  /** The lines of a list of files, one each, in order. */
  function LinesOf(defaultLibrary: string, prefix: string, files: seq<SourceFile>): seq<string>
  {
    seq(|files|, i requires 0 <= i < |files| => PrjLine(defaultLibrary, prefix, files[i]))
  }

  /** A file is in the list exactly when it is one of the FPGA files and takes part. */
  lemma {:induction false} IncludedMembers(files: seq<SourceFile>, sim: bool, f: SourceFile)
    ensures f in Included(files, sim) <==> f in files && Takes(f, sim)
  {
    if files != [] {
      var init := files[..|files| - 1];
      IncludedMembers(init, sim, f);
      assert files == init + [files[|files| - 1]];
    }
  }

  /** With `sim` every file takes part, in order. */
  lemma {:induction false} SimIncludesAll(files: seq<SourceFile>)
    ensures Included(files, true) == files
  {
    if files != [] {
      SimIncludesAll(files[..|files| - 1]);
      assert files == files[..|files| - 1] + [files[|files| - 1]];
    }
  }

  /** Without `sim` exactly the files not marked simulation-only take part. */
  lemma {:induction false} SynthesisExcludesSimOnly(files: seq<SourceFile>)
    ensures forall k :: 0 <= k < |Included(files, false)| ==> !Included(files, false)[k].simOnly
    ensures |Included(files, false)| == |files| - SimOnlyCount(files)
  {
    if files != [] {
      SynthesisExcludesSimOnly(files[..|files| - 1]);
    }
  }

  function SimOnlyCount(files: seq<SourceFile>): nat
  {
    if files == [] then 0
    else SimOnlyCount(files[..|files| - 1]) + (if files[|files| - 1].simOnly then 1 else 0)
  }

  /**
   * The written text reads back as the lines followed by an empty piece;
   * an empty list gives a single newline.
   */
  lemma PrjReadsBack(fpga: FpgaData, prefix: string, sim: bool)
    requires NoNewline(PrjLines(fpga, prefix, sim))
    ensures var lines := PrjLines(fpga, prefix, sim);
            Split(PrjContent(fpga, prefix, sim), {'\n'}) == (if lines == [] then [""] else lines) + [""]
    ensures PrjLines(fpga, prefix, sim) == [] ==> PrjContent(fpga, prefix, sim) == "\n"
  {
    var lines := PrjLines(fpga, prefix, sim);
    if lines == [] {
      assert PrjContent(fpga, prefix, sim) == "" + "\n";
      SplitLines([""], "");
      assert Lines([""]) == "\n";
    } else {
      JoinThenNewline(lines);
      SplitLines(lines, "");
      assert Lines(lines) + "" == Lines(lines);
    }
  }

  /** A file put in front that takes part becomes the first included file. */
  lemma {:induction false} IncludedCons(e: SourceFile, files: seq<SourceFile>, sim: bool)
    requires Takes(e, sim)
    ensures Included([e] + files, sim) == [e] + Included(files, sim)
  {
    if files != [] {
      var init := files[..|files| - 1];
      IncludedCons(e, init, sim);
      assert ([e] + files)[..|[e] + files| - 1] == [e] + init;
    }
  }
}

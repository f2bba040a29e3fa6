/**
 * The project Makefile (src/platforms/fitkit2/build-files/makefile.ts and
 * its legacy twin src/project/buildfiles/Makefile.ts): the chip
 * specification, the MCU object rules and object lists, the HDLFILES list
 * and the fixed template around them.
 *
 * The reference definition is `MakefileLines`, the Makefile as a list of
 * lines; the methods build the text by string concatenation, as the
 * source does, and are proved to produce exactly those lines.
 */
module Makefiles {
  import opened Wrappers
  import opened JsText
  import opened ProjectModel

  /** The FITkit installation folder, fixed in the current tree. */
  const FitkitBase: string := "/opt/fitkit"

  const McuBanner: string := "# MCU ##########################################################################"
  const FpgaBanner: string := "# FPGA #########################################################################"

  // fixed lines of the template
  const OutputPrefix: string := "OUTPUTPREFIX = project"
  const AllTarget: string := "all: build/project_f1xx.hex build/project_f2xx.hex build/project.bin"
  const HexFileV1: string := "HEXFILE_F1XX = build/project_f1xx.hex"
  const HexFileV2: string := "HEXFILE_F2XX = build/project_f2xx.hex"
  const BinFile: string := "BINFILE = build/project.bin"
  const BinRule: string := "build/project.bin: build/fpga/project.par.ncd build/fpga/project.pcf"
  const IncludeBase: string := "include $(BASE)/base/Makefile.inc"

  const ChipErrorHead: string := "Invalid format of chip specification (got "
  const ChipErrorTail: string := "). Specification requires three strings separated by \"-\" e.g. \"xc3s50-4-pq208\""

  function ChipError(chip: string): string
  {
    ChipErrorHead + chip + ChipErrorTail
  }

  /** `chip.split("-")`, which must give at least three parts. */
  function ChipParts(chip: string): (r: Result<seq<string>, string>)
    ensures r.Success? <==> CountSeps(chip, {'-'}) >= 2
    ensures r.Success? ==> |r.value| >= 3 && r.value == Split(chip, {'-'})
    ensures r.Failure? ==> r.error == ChipError(chip)
  {
    SplitCount(chip, {'-'});
    var parts := Split(chip, {'-'});
    if |parts| < 3 then Failure(ChipError(chip)) else Success(parts)
  }

  /**
   * A chip `part-speed-package`, possibly followed by more `-`-separated
   * text, is accepted and gives those three fields; the extra text is ignored.
   */
  lemma ChipFields(part: string, speed: string, package: string, extra: string)
    requires !HasSep(part, {'-'}) && !HasSep(speed, {'-'}) && !HasSep(package, {'-'})
    requires extra == "" || extra[0] == '-'
    ensures ChipParts(part + "-" + speed + "-" + package + extra).Success?
    ensures ChipParts(part + "-" + speed + "-" + package + extra).value[..3] == [part, speed, package]
  {
    var rest := speed + ['-'] + (package + extra);
    var chip := part + ['-'] + rest;
    ChipJoin(part, speed, package, extra);
    var tail := LastFieldSplit(package, extra);
    SplitAfterPiece(speed, '-', package + extra, {'-'});
    SplitAfterPiece(part, '-', rest, {'-'});
    assert Split(chip, {'-'}) == [part] + ([speed] + tail);
    SplitCount(chip, {'-'});
    assert Split(chip, {'-'})[..3] == [part, speed, package];
  }

  lemma ChipJoin(part: string, speed: string, package: string, extra: string)
    ensures part + "-" + speed + "-" + package + extra == part + ['-'] + (speed + ['-'] + (package + extra))
  {
  }

  /** The pieces from the third field on start with that field. */
  lemma LastFieldSplit(package: string, extra: string) returns (tail: seq<string>)
    requires !HasSep(package, {'-'})
    requires extra == "" || extra[0] == '-'
    ensures Split(package + extra, {'-'}) == tail && |tail| >= 1 && tail[0] == package
  {
    if extra == "" {
      SplitSeveralIffSep(package, {'-'});
      SplitSingle(package, {'-'});
      assert package + extra == package;
      tail := [package];
    } else {
      SplitAfterPiece(package, '-', extra[1..], {'-'});
      assert package + extra == package + ['-'] + extra[1..];
      tail := [package] + Split(extra[1..], {'-'});
    }
  }

  // ---------------------------------------------------------------------
  // HDLFILES

  /** The paths of the files that are not simulation-only, in order. */
  function NonSimPaths(files: seq<SourceFile>): (r: seq<string>)
    ensures |r| <= |files|
  {
    if files == [] then []
    else (if files[0].simOnly then [] else [files[0].path]) + NonSimPaths(files[1..])
  }

  lemma {:induction false} NonSimPathsSnoc(files: seq<SourceFile>, f: SourceFile)
    ensures NonSimPaths(files + [f]) == NonSimPaths(files) + (if f.simOnly then [] else [f.path])
  {
    if files != [] {
      NonSimPathsSnoc(files[1..], f);
      assert (files + [f])[1..] == files[1..] + [f];
    }
  }

  /** A path is listed exactly when some file with that path is not simulation-only. */
  lemma {:induction false} NonSimPathsMembers(files: seq<SourceFile>, p: string)
    ensures p in NonSimPaths(files) <==> exists i :: 0 <= i < |files| && files[i].path == p && !files[i].simOnly
  {
    if files != [] {
      NonSimPathsMembers(files[1..], p);
      if p in NonSimPaths(files[1..]) {
        var i :| 0 <= i < |files[1..]| && files[1..][i].path == p && !files[1..][i].simOnly;
        assert files[i + 1] == files[1..][i];
      }
      if exists i :: 0 <= i < |files| && files[i].path == p && !files[i].simOnly {
        var i :| 0 <= i < |files| && files[i].path == p && !files[i].simOnly;
        if i > 0 {
          assert files[1..][i - 1] == files[i];
        }
      }
    }
  }

  /** `HDLFILES = p` for the first listed file, `HDLFILES += p` for the others. */
  function HdlLine(first: bool, path: string): string
  {
    "HDLFILES " + (if first then "" else "+") + "= " + path
  }

  function HdlLines(paths: seq<string>): seq<string>
  {
    seq(|paths|, k requires 0 <= k < |paths| => HdlLine(k == 0, paths[k]))
  }

  /** One more listed path adds one line, and the text is empty exactly before the first path. */
  lemma HdlLinesSnoc(paths: seq<string>, p: string)
    ensures |Lines(HdlLines(paths))| > 0 <==> paths != []
    ensures Lines(HdlLines(paths + [p])) == Lines(HdlLines(paths)) + HdlLine(paths == [], p) + "\n"
  {
    var line := HdlLine(paths == [], p);
    assert HdlLines(paths + [p]) == HdlLines(paths) + [line];
    LinesAppend(HdlLines(paths), [line]);
    assert Lines([line]) == line + "\n" + Lines([]);
  }

  /** The `forEach` over the FPGA files that builds the HDLFILES text. */
  method HdlFilesText(files: seq<SourceFile>) returns (text: string)
    ensures text == Lines(HdlLines(NonSimPaths(files)))
  {
    text := "";
    for i := 0 to |files|
      invariant text == Lines(HdlLines(NonSimPaths(files[..i])))
    {
      var f := files[i];
      assert files[..i + 1] == files[..i] + [f];
      NonSimPathsSnoc(files[..i], f);
      if !f.simOnly {
        var paths := NonSimPaths(files[..i]);
        HdlLinesSnoc(paths, f.path);
        var line := "HDLFILES " + (if |text| > 0 then "+" else "") + "= " + f.path;
        assert line == HdlLine(paths == [], f.path);
        text := text + line + "\n";
        assert NonSimPaths(files[..i + 1]) == paths + [f.path];
      } else {
        assert NonSimPaths(files[..i]) + [] == NonSimPaths(files[..i]);
        assert NonSimPaths(files[..i + 1]) == NonSimPaths(files[..i]);
      }
    }
    assert files[..|files|] == files;
  }

  // ---------------------------------------------------------------------
  // MCU objects

  /**
   * `path.basename(p, ext)` for the server's local names: the empty
   * string when the whole path is `ext`; otherwise the text after the last
   * `/`, without `ext` when it ends in `ext` and is longer.
   */
  function NodeBasename(p: string, ext: string): (r: string)
    ensures ext != [] && p == ext ==> r == []
    ensures !HasSep(r, {'/'})
    ensures p != ext ==>
      var pieces := Split(p, {'/'});
      r == pieces[|pieces| - 1] || r + ext == pieces[|pieces| - 1]
  {
    var pieces := Split(p, {'/'});
    var name := pieces[|pieces| - 1];
    SplitPiecesHaveNoSep(p, {'/'});
    if ext != [] && p == ext then []
    else if |ext| < |name| && name[|name| - |ext|..] == ext then
      assert name[..|name| - |ext|] + ext == name;
      name[..|name| - |ext|]
    else name
  }

  /** The two MSP430 families every C file is compiled for. */
  datatype Family = F1xx | F2xx

  function ObjectSuffix(family: Family): string
  {
    match family
    case F1xx => "_f1xx.o"
    case F2xx => "_f2xx.o"
  }

  /** `join("build", "mcu", basename(path, ".c") + "_f1xx.o")`, and the same for F2xx. */
  function ObjectFile(path: string, family: Family): string
  {
    PathJoin("build/mcu", NodeBasename(path, ".c") + ObjectSuffix(family))
  }

  /** The object names of the files for one family, in file order. */
  function Objects(files: seq<SourceFile>, family: Family): (r: seq<string>)
  {
    seq(|files|, i requires 0 <= i < |files| => ObjectFile(files[i].path, family))
  }

  /** The two compilation rules of one C file. */
  function RuleLines(objV1: string, objV2: string, source: string): seq<string>
  {
    [objV1 + ": " + source, "\t$(comp_tpl_f1xx)", "", objV2 + ": " + source, "\t$(comp_tpl_f2xx)", ""]
  }

  function McuRules(files: seq<SourceFile>): (r: seq<string>)
    ensures |r| == 6 * |files|
  {
    if files == [] then []
    else RuleLines(ObjectFile(files[0].path, F1xx), ObjectFile(files[0].path, F2xx), files[0].path) + McuRules(files[1..])
  }

  lemma {:induction false} McuRulesSnoc(files: seq<SourceFile>, f: SourceFile)
    ensures McuRules(files + [f]) == McuRules(files) + RuleLines(ObjectFile(f.path, F1xx), ObjectFile(f.path, F2xx), f.path)
  {
    if files != [] {
      McuRulesSnoc(files[1..], f);
      assert (files + [f])[1..] == files[1..] + [f];
    }
  }

  /** The `OBJFILES_...` value: each object name preceded by one space. */
  function ObjectList(objects: seq<string>): string
  {
    if objects == [] then "" else " " + objects[0] + ObjectList(objects[1..])
  }

  lemma {:induction false} ObjectListSnoc(objects: seq<string>, o: string)
    ensures ObjectList(objects + [o]) == ObjectList(objects) + " " + o
  {
    if objects == [] {
      assert ObjectList([o]) == " " + o + ObjectList([]);
    } else {
      ObjectListSnoc(objects[1..], o);
      assert (objects + [o])[1..] == objects[1..] + [o];
    }
  }

  /**
   * Splitting an object list at its spaces gives an empty first piece and
   * then the object names in order, when the names have no spaces.
   */
  lemma ObjectListReadsBack(objects: seq<string>)
    requires forall i :: 0 <= i < |objects| ==> !HasSep(objects[i], {' '})
    ensures Split(ObjectList(objects), {' '}) == [""] + objects
  {
    ObjectListAfter(objects, "");
    assert "" + ObjectList(objects) == ObjectList(objects);
  }

  lemma {:induction false} ObjectListAfter(objects: seq<string>, o: string)
    requires !HasSep(o, {' '})
    requires forall i :: 0 <= i < |objects| ==> !HasSep(objects[i], {' '})
    ensures Split(o + ObjectList(objects), {' '}) == [o] + objects
  {
    if objects == [] {
      SplitSeveralIffSep(o, {' '});
      SplitSingle(o, {' '});
      assert o + ObjectList(objects) == o;
    } else {
      var first := objects[0];
      ObjectListAfter(objects[1..], first);
      assert o + ObjectList(objects) == o + [' '] + (first + ObjectList(objects[1..]));
      SplitAfterPiece(o, ' ', first + ObjectList(objects[1..]), {' '});
      assert [o] + objects == [o] + ([first] + objects[1..]);
    }
  }

  /** The text of one rule pair, as the template writes it. */
  function RuleText(objV1: string, objV2: string, source: string): string
  {
    objV1 + ": " + source + "\n\t$(comp_tpl_f1xx)\n\n" + objV2 + ": " + source + "\n\t$(comp_tpl_f2xx)\n\n"
  }

  /** The rule pair's text is its six lines, each ended by a newline. */
  lemma RuleTextIsLines(objV1: string, objV2: string, source: string)
    ensures Lines(RuleLines(objV1, objV2, source)) == RuleText(objV1, objV2, source)
  {
    var a, b := objV1 + ": " + source, objV2 + ": " + source;
    var l1, l2 := "\n\t$(comp_tpl_f1xx)\n\n", "\n\t$(comp_tpl_f2xx)\n\n";
    var t1, t2 := "\t$(comp_tpl_f1xx)", "\t$(comp_tpl_f2xx)";
    RuleHalves(a, t1, b, t2);
    assert "\n" + t1 + "\n\n" == l1 && "\n" + t2 + "\n\n" == l2;
    Glue4(a + l1, objV2, ": ", source, l2);
  }

  /** The six rule lines are two halves of three lines each. */
  lemma RuleHalves(a: string, t1: string, b: string, t2: string)
    ensures Lines([a, t1, "", b, t2, ""]) == (a + ("\n" + t1 + "\n\n")) + (b + ("\n" + t2 + "\n\n"))
  {
    RuleHalf(a, t1);
    RuleHalf(b, t2);
    LinesAppend([a, t1, ""], [b, t2, ""]);
    assert [a, t1, "", b, t2, ""] == [a, t1, ""] + [b, t2, ""];
  }

  lemma RuleHalf(a: string, t: string)
    ensures Lines([a, t, ""]) == a + ("\n" + t + "\n\n")
  {
    LinesOfThree(a, t, "");
    Glue4(a, "\n", t, "\n", "" + "\n");
    assert "\n" + t + "\n" + ("" + "\n") == "\n" + t + "\n\n";
  }

  /** Regrouping a concatenation of five texts. */
  lemma Glue4(h: string, a: string, b: string, c: string, d: string)
    ensures h + a + b + c + d == h + (a + b + c + d)
  {
  }

  lemma LinesOfThree(x: string, y: string, z: string)
    ensures Lines([x, y, z]) == x + "\n" + y + "\n" + z + "\n"
  {
    assert [x, y, z][1..] == [y, z];
    assert [y, z][1..] == [z];
    assert [z][1..] == [];
    assert Lines([z]) == z + "\n";
    assert Lines([y, z]) == y + "\n" + (z + "\n");
    assert Lines([x, y, z]) == x + "\n" + (y + "\n" + (z + "\n"));
  }

  /** One step of the `forEach` over the MCU files: each text grows by the new file's part. */
  lemma McuStep(done: seq<SourceFile>, f: SourceFile)
    ensures Lines(McuRules(done + [f]))
         == Lines(McuRules(done)) + RuleText(ObjectFile(f.path, F1xx), ObjectFile(f.path, F2xx), f.path)
    ensures ObjectList(Objects(done + [f], F1xx)) == ObjectList(Objects(done, F1xx)) + " " + ObjectFile(f.path, F1xx)
    ensures ObjectList(Objects(done + [f], F2xx)) == ObjectList(Objects(done, F2xx)) + " " + ObjectFile(f.path, F2xx)
  {
    var o1, o2 := ObjectFile(f.path, F1xx), ObjectFile(f.path, F2xx);
    assert Objects(done + [f], F1xx) == Objects(done, F1xx) + [o1];
    assert Objects(done + [f], F2xx) == Objects(done, F2xx) + [o2];
    ObjectListSnoc(Objects(done, F1xx), o1);
    ObjectListSnoc(Objects(done, F2xx), o2);
    McuRulesSnoc(done, f);
    LinesAppend(McuRules(done), RuleLines(o1, o2, f.path));
    RuleTextIsLines(o1, o2, f.path);
  }

  /** The `forEach` over the MCU files that builds the rules and both object lists. */
  method McuTexts(files: seq<SourceFile>) returns (rules: string, objFilesV1: string, objFilesV2: string)
    ensures rules == Lines(McuRules(files))
    ensures objFilesV1 == ObjectList(Objects(files, F1xx))
    ensures objFilesV2 == ObjectList(Objects(files, F2xx))
  {
    rules, objFilesV1, objFilesV2 := "", "", "";
    for i := 0 to |files|
      invariant rules == Lines(McuRules(files[..i]))
      invariant objFilesV1 == ObjectList(Objects(files[..i], F1xx))
      invariant objFilesV2 == ObjectList(Objects(files[..i], F2xx))
    {
      var f := files[i];
      var objV1 := ObjectFile(f.path, F1xx);
      var objV2 := ObjectFile(f.path, F2xx);
      McuStep(files[..i], f);
      TakeOneMore(files, i);
      objFilesV1 := objFilesV1 + " " + objV1;
      objFilesV2 := objFilesV2 + " " + objV2;
      rules := rules + RuleText(objV1, objV2, f.path);
    }
    assert files[..|files|] == files;
  }

  // ---------------------------------------------------------------------
  // the whole Makefile

  /** The lines before the MCU rules. */
  function HeadLines(base: string, chip: seq<string>, useMathLib: bool): (r: seq<string>)
    requires |chip| >= 3
    ensures |r| == 13
  {
    ["BASE = " + base,
     OutputPrefix,
     if useMathLib then "LIBRARIES = -lm" else "",
     "FPGACHIP = " + chip[0],
     "FPGASPEEDGRADE = " + chip[1],
     "FPGAPACKAGE = " + chip[2],
     "",
     AllTarget,
     "",
     McuBanner,
     HexFileV1,
     HexFileV2,
     ""]
  }

  /** The lines between the MCU rules and the HDLFILES lines. */
  function MidLines(objFilesV1: string, objFilesV2: string, ucf: string): (r: seq<string>)
    ensures |r| == 7
  {
    ["",
     "OBJFILES_F1XX =" + objFilesV1,
     "OBJFILES_F2XX =" + objFilesV2,
     "",
     FpgaBanner,
     BinFile,
     "FPGAUCF = " + ucf]
  }

  /** The lines after the HDLFILES lines. */
  function TailLines(): (r: seq<string>)
    ensures |r| == 4
  {
    ["",
     BinRule,
     "",
     IncludeBase]
  }

  /** The Makefile, line by line, from the MCU rule lines, the object lists and the HDLFILES lines. */
  function MakefileLines(base: string, chip: seq<string>, useMathLib: bool, rules: seq<string>,
                         objFilesV1: string, objFilesV2: string, ucf: string, hdl: seq<string>): (r: seq<string>)
    requires |chip| >= 3
    ensures |r| == 24 + |rules| + |hdl|
  {
    HeadLines(base, chip, useMathLib) + rules + MidLines(objFilesV1, objFilesV2, ucf) + hdl + TailLines()
  }

  /**
   * The template literal of `createMakefile` filled with the accumulated
   * texts: the fixed lines around the MCU rule text and the HDLFILES text.
   */
  function Template(base: string, chip: seq<string>, useMathLib: bool, mcuFiles: string, objFilesV1: string,
                    objFilesV2: string, ucf: string, fpgaFiles: string): string
    requires |chip| >= 3
  {
    Lines(HeadLines(base, chip, useMathLib)) + mcuFiles + Lines(MidLines(objFilesV1, objFilesV2, ucf))
    + fpgaFiles + Lines(TailLines())
  }

  /** The template filled with line texts is the Makefile's lines. */
  lemma TemplateIsLines(base: string, chip: seq<string>, useMathLib: bool, rules: seq<string>,
                        objFilesV1: string, objFilesV2: string, ucf: string, hdl: seq<string>)
    requires |chip| >= 3
    ensures Template(base, chip, useMathLib, Lines(rules), objFilesV1, objFilesV2, ucf, Lines(hdl))
         == Lines(MakefileLines(base, chip, useMathLib, rules, objFilesV1, objFilesV2, ucf, hdl))
  {
    var head := HeadLines(base, chip, useMathLib);
    var mid := MidLines(objFilesV1, objFilesV2, ucf);
    LinesAppend(head, rules);
    LinesAppend(head + rules, mid);
    LinesAppend(head + rules + mid, hdl);
    LinesAppend(head + rules + mid + hdl, TailLines());
  }

  /** The chip fields of the current tree: empty without an FPGA part. */
  function ProjectChip(project: ProjectData): Result<seq<string>, string>
  {
    if project.fpga.None? then Success(["", "", ""]) else ChipParts(project.fpga.value.chip)
  }

  /** The parts of the current tree's template that depend on which parts the project has. */
  function McuFilesOf(project: ProjectData): seq<SourceFile>
  {
    if project.mcu.Some? then project.mcu.value.files else []
  }

  function MathLibOf(project: ProjectData): bool
  {
    project.mcu.Some? && project.mcu.value.useMathLib
  }

  /** `project.fpga?.ucfFile.path` in a template literal: "undefined" without an FPGA part. */
  function UcfOf(project: ProjectData): string
  {
    if project.fpga.Some? then project.fpga.value.ucfFile.path else "undefined"
  }

  function HdlOf(project: ProjectData): seq<string>
  {
    if project.fpga.Some? then NonSimPaths(project.fpga.value.files) else []
  }

  /** `createMakefile` of the current tree: the content, or the chip error. */
  function Makefile(project: ProjectData): (r: Result<string, string>)
    ensures r.Failure? <==> project.fpga.Some? && CountSeps(project.fpga.value.chip, {'-'}) < 2
    ensures r.Failure? ==> r.error == ChipError(project.fpga.value.chip)
  {
    match ProjectChip(project)
    case Failure(e) => Failure(e)
    case Success(chip) =>
      var files := McuFilesOf(project);
      Success(Lines(MakefileLines(FitkitBase, chip, MathLibOf(project), McuRules(files),
                                  ObjectList(Objects(files, F1xx)), ObjectList(Objects(files, F2xx)),
                                  UcfOf(project), HdlLines(HdlOf(project)))))
  }

  /** `CreateMakefile` of the legacy tree: the chip is always checked, `BASE` is the configured base folder. */
  function LegacyMakefile(baseFolder: string, project: LegacyProjectData): (r: Result<string, string>)
    ensures r.Failure? <==> CountSeps(project.fpga.chip, {'-'}) < 2
    ensures r.Failure? ==> r.error == ChipError(project.fpga.chip)
  {
    match ChipParts(project.fpga.chip)
    case Failure(e) => Failure(e)
    case Success(chip) =>
      var files := project.mcu.files;
      Success(Lines(MakefileLines(baseFolder, chip, project.mcu.useMathLib, McuRules(files),
                                  ObjectList(Objects(files, F1xx)), ObjectList(Objects(files, F2xx)),
                                  project.fpga.ucfFile.path, HdlLines(NonSimPaths(project.fpga.files)))))
  }

  /** The body of `createMakefile`: chip check, the two loops, the template. */
  method CreateMakefile(project: ProjectData) returns (r: Result<string, string>)
    ensures r == Makefile(project)
  {
    var chip := ["", "", ""];
    var fpgaFiles := "";
    if project.fpga.Some? {
      var parts := ChipParts(project.fpga.value.chip);
      if parts.Failure? {
        return Failure(parts.error);
      }
      chip := parts.value;
      fpgaFiles := HdlFilesText(project.fpga.value.files);
    }
    assert ProjectChip(project) == Success(chip);
    assert fpgaFiles == Lines(HdlLines(HdlOf(project)));
    var mcuFiles, objFilesV1, objFilesV2 := "", "", "";
    if project.mcu.Some? {
      mcuFiles, objFilesV1, objFilesV2 := McuTexts(project.mcu.value.files);
    }
    var files := McuFilesOf(project);
    assert mcuFiles == Lines(McuRules(files));
    assert objFilesV1 == ObjectList(Objects(files, F1xx));
    assert objFilesV2 == ObjectList(Objects(files, F2xx));
    var ucf := if project.fpga.Some? then project.fpga.value.ucfFile.path else "undefined";
    var useMathLib := project.mcu.Some? && project.mcu.value.useMathLib;
    TemplateIsLines(FitkitBase, chip, useMathLib, McuRules(files), objFilesV1, objFilesV2, ucf, HdlLines(HdlOf(project)));
    r := Success(Template(FitkitBase, chip, useMathLib, mcuFiles, objFilesV1, objFilesV2, ucf, fpgaFiles));
  }

  /** The body of the legacy `CreateMakefile`. */
  method CreateLegacyMakefile(baseFolder: string, project: LegacyProjectData) returns (r: Result<string, string>)
    ensures r == LegacyMakefile(baseFolder, project)
  {
    var parts := ChipParts(project.fpga.chip);
    if parts.Failure? {
      return Failure(parts.error);
    }
    var fpgaFiles := HdlFilesText(project.fpga.files);
    var mcuFiles, objFilesV1, objFilesV2 := McuTexts(project.mcu.files);
    TemplateIsLines(baseFolder, parts.value, project.mcu.useMathLib, McuRules(project.mcu.files), objFilesV1,
                    objFilesV2, project.fpga.ucfFile.path, HdlLines(NonSimPaths(project.fpga.files)));
    r := Success(Template(baseFolder, parts.value, project.mcu.useMathLib, mcuFiles, objFilesV1, objFilesV2,
                          project.fpga.ucfFile.path, fpgaFiles));
  }

  /**
   * Reading the Makefile back line by line gives its five regions in
   * order: the fixed head, the MCU rules, the object lists and UCF, the
   * HDLFILES lines and the fixed tail, and then the empty text after the
   * final newline.
   */
  lemma MakefileReadsBack(base: string, chip: seq<string>, useMathLib: bool, rules: seq<string>,
                          objFilesV1: string, objFilesV2: string, ucf: string, hdl: seq<string>)
    requires |chip| >= 3
    requires NoNewline(MakefileLines(base, chip, useMathLib, rules, objFilesV1, objFilesV2, ucf, hdl))
    ensures var lines := Split(Lines(MakefileLines(base, chip, useMathLib, rules, objFilesV1, objFilesV2, ucf, hdl)), {'\n'});
            var m, h := |rules|, |hdl|;
            |lines| == 25 + m + h &&
            lines[..13] == HeadLines(base, chip, useMathLib) &&
            lines[13..13 + m] == rules &&
            lines[13 + m..20 + m] == MidLines(objFilesV1, objFilesV2, ucf) &&
            lines[20 + m..20 + m + h] == hdl &&
            lines[20 + m + h..] == TailLines() + [""]
  {
    var ls := MakefileLines(base, chip, useMathLib, rules, objFilesV1, objFilesV2, ucf, hdl);
    SplitLines(ls, "");
    assert Lines(ls) + "" == Lines(ls);
    var head, mid := HeadLines(base, chip, useMathLib), MidLines(objFilesV1, objFilesV2, ucf);
    Regions(head, rules, mid, hdl, TailLines() + [""]);
    assert ls + [""] == head + rules + mid + hdl + (TailLines() + [""]);
  }

  /** The five parts of a concatenation are its consecutive slices. */
  lemma Regions<T>(a: seq<T>, b: seq<T>, c: seq<T>, d: seq<T>, e: seq<T>)
    ensures var s := a + b + c + d + e;
            var i, j, k, l := |a|, |a| + |b|, |a| + |b| + |c|, |a| + |b| + |c| + |d|;
            s[..i] == a && s[i..j] == b && s[j..k] == c && s[k..l] == d && s[l..] == e
  {
    var s := a + b + c + d + e;
    assert s == a + (b + (c + (d + e)));
    var i, j, k := |a|, |a| + |b|, |a| + |b| + |c|;
    assert s[i..] == b + (c + (d + e));
    assert s[j..] == c + (d + e);
    assert s[k..] == d + e;
  }

  /** The head carries `BASE`, the optional math library and the three chip fields. */
  lemma HeadFields(base: string, chip: seq<string>, useMathLib: bool)
    requires |chip| >= 3
    ensures var head := HeadLines(base, chip, useMathLib);
      && head[0] == "BASE = " + base
      && (head[2] == "LIBRARIES = -lm" <==> useMathLib) && (!useMathLib ==> head[2] == "")
      && head[3] == "FPGACHIP = " + chip[0] && head[4] == "FPGASPEEDGRADE = " + chip[1]
      && head[5] == "FPGAPACKAGE = " + chip[2]
  {
    if !useMathLib {
      assert |HeadLines(base, chip, useMathLib)[2]| == 0;
    }
  }

  /**
   * The Makefile's lines that carry project data: the `LIBRARIES` line
   * (third) is present exactly with the math library, the next three are
   * the chip fields, `OBJFILES_...` carry the object lists, `FPGAUCF` names
   * the UCF file and the HDLFILES lines follow it in order, `=` first and
   * `+=` after.
   */
  lemma MakefileFields(base: string, chip: seq<string>, useMathLib: bool, rules: seq<string>,
                       objFilesV1: string, objFilesV2: string, ucf: string, hdlPaths: seq<string>)
    requires |chip| >= 3
    requires NoNewline(MakefileLines(base, chip, useMathLib, rules, objFilesV1, objFilesV2, ucf, HdlLines(hdlPaths)))
    ensures var lines := Split(Lines(MakefileLines(base, chip, useMathLib, rules, objFilesV1, objFilesV2, ucf, HdlLines(hdlPaths))), {'\n'});
            var m := |rules|;
            |lines| == 25 + m + |hdlPaths| &&
            lines[0] == "BASE = " + base &&
            (lines[2] == "LIBRARIES = -lm" <==> useMathLib) &&
            (!useMathLib ==> lines[2] == "") &&
            lines[3] == "FPGACHIP = " + chip[0] && lines[4] == "FPGASPEEDGRADE = " + chip[1] &&
            lines[5] == "FPGAPACKAGE = " + chip[2] &&
            lines[14 + m] == "OBJFILES_F1XX =" + objFilesV1 &&
            lines[15 + m] == "OBJFILES_F2XX =" + objFilesV2 &&
            lines[19 + m] == "FPGAUCF = " + ucf &&
            (forall k :: 0 <= k < |hdlPaths| ==> lines[20 + m + k] == HdlLine(k == 0, hdlPaths[k]))
  {
    var hdl := HdlLines(hdlPaths);
    MakefileReadsBack(base, chip, useMathLib, rules, objFilesV1, objFilesV2, ucf, hdl);
    var lines := Split(Lines(MakefileLines(base, chip, useMathLib, rules, objFilesV1, objFilesV2, ucf, hdl)), {'\n'});
    var m, h := |rules|, |hdl|;
    var head, mid := HeadLines(base, chip, useMathLib), MidLines(objFilesV1, objFilesV2, ucf);
    HeadFields(base, chip, useMathLib);
    assert lines[0] == lines[..13][0] && lines[2] == lines[..13][2] && lines[3] == lines[..13][3];
    assert lines[4] == lines[..13][4] && lines[5] == lines[..13][5];
    assert lines[14 + m] == lines[13 + m..20 + m][1] == mid[1];
    assert lines[15 + m] == lines[13 + m..20 + m][2] == mid[2];
    assert lines[19 + m] == lines[13 + m..20 + m][6] == mid[6];
    forall k | 0 <= k < h
      ensures lines[20 + m + k] == HdlLine(k == 0, hdlPaths[k])
    {
      assert lines[20 + m + k] == lines[20 + m..20 + m + h][k] == hdl[k];
      assert hdl[k] == HdlLine(k == 0, hdlPaths[k]);
    }
  }
}

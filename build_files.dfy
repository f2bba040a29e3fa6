/**
 * Generation of all build files of a staged project (`createBuildFiles` in
 * src/platforms/fitkit2/build-files.ts and the legacy `CreateBuildFiles` in
 * src/project/BuildFiles.ts): the build directories, the Makefile, the
 * lso, xst and sim-tcl files, the optional VHDL configuration and the two
 * prj lists, written in this order. A thrown error stops the sequence.
 */
module BuildFiles {
  import opened Wrappers
  import opened JsText
  import opened ProjectModel
  import opened Makefiles
  import opened PrjFiles
  import opened XstFiles

  const ConfigPath: string := "build/fpga/project_config.vhd"

  /** The entry `usesArchitecture` prepends to the FPGA files. */
  const ConfigEntry: SourceFile := SourceFile(ConfigPath, "", false, false, None)

  const SimTclHead: string :=
    "set TESTBENCH_SCRIPT \"../../isim.tcl\"\nset ISIM_PRJ \"project_isim.prj\"\nset ISIM_SIMULATOR \"project_isim\"\nset ISIM_SCRIPT \"project_isim.tcl\"\nsource \""

  /** The `project_sim.tcl` text; only the FITkit base folder varies. */
  function SimTcl(base: string): string
  {
    SimTclHead + PathJoin(base, "base/xilinxisim.tcl") + "\"\n"
  }

  const VhdlConfigHead: string := "-- fpga_config.vhd: user constants\nuse work.clkgen_cfg.all;\n\npackage fpga_cfg is\n"
  const VhdlConfigTail: string := ";\nend fpga_cfg;\n\npackage body fpga_cfg is\nend fpga_cfg;\n"

  /** The `project_config.vhd` text; the current tree indents with four spaces, the legacy one with a tab. */
  function VhdlConfig(indent: string, dcmFrequency: string): string
  {
    VhdlConfigHead + indent + "constant DCM_FREQUENCY : dcm_freq := DCM_" + dcmFrequency + VhdlConfigTail
  }

  /** What a run leaves behind: the operations issued, the (possibly updated) project and the error thrown, if any. */
  datatype Outcome<P> = Outcome(ops: seq<FsOp>, project: P, error: Option<string>)

  /** The FPGA part after the optional `unshift` of the configuration entry. */
  function WithConfigEntry(fpga: FpgaData): FpgaData
  {
    if fpga.usesArchitecture then fpga.(files := [ConfigEntry] + fpga.files) else fpga
  }

  function BuildFpga(path: string): string
  {
    PathJoin(path, "build/fpga")
  }

  function DirOps(path: string): seq<FsOp>
  {
    [MakeDir(BuildFpga(path)), MakeDir(PathJoin(path, "build/mcu"))]
  }

  function ArchOps(path: string, indent: string, fpga: FpgaData): seq<FsOp>
  {
    if fpga.usesArchitecture then [WriteFile(PathJoin(path, ConfigPath), VhdlConfig(indent, fpga.dcmFrequency), Utf8)] else []
  }

  /** `project.prj` for synthesis, then `project_isim.prj` for simulation with the prefix `../..`. */
  function PrjOps(path: string, fpga: FpgaData): seq<FsOp>
  {
    [WriteFile(PathJoin(BuildFpga(path), "project.prj"), PrjContent(fpga, "", false), Utf8),
     WriteFile(PathJoin(BuildFpga(path), "project_isim.prj"), PrjContent(fpga, "../..", true), Utf8)]
  }

  /** The writes after the xst script when it was accepted. */
  function AfterXstOps(path: string, base: string, indent: string, fpga: FpgaData, xst: string): seq<FsOp>
  {
    [WriteFile(PathJoin(BuildFpga(path), "project.xst"), xst, Utf8),
     WriteFile(PathJoin(BuildFpga(path), "project_sim.tcl"), SimTcl(base), Utf8)]
    + ArchOps(path, indent, fpga) + PrjOps(path, WithConfigEntry(fpga))
  }

  /**
   * Everything after the Makefile, for a project with an FPGA part: the
   * lso file (the library name), the xst script, the sim-tcl file, the
   * optional configuration with its prepended entry, and the two prj lists
   * of the files including that entry. The outcome's project is the FPGA
   * part after the `unshift`.
   */
  function FpgaOutcome(path: string, base: string, indent: string, fpga: FpgaData): Outcome<FpgaData>
  {
    var lso := [WriteFile(PathJoin(BuildFpga(path), "project.lso"), fpga.library, Utf8)];
    match XstContent(fpga)
    case Failure(e) => Outcome(lso, fpga, Some(e))
    case Success(xst) => Outcome(lso + AfterXstOps(path, base, indent, fpga, xst), WithConfigEntry(fpga), None)
  }

  /**
   * Everything after the two directories, given the Makefile text or the
   * chip error `createMakefile` threw: the Makefile, then the FPGA files if
   * the project has an FPGA part.
   */
  function AfterDirs(path: string, project: ProjectData, makefile: Result<string, string>): Outcome<ProjectData>
  {
    match makefile
    case Failure(e) => Outcome([], project, Some(e))
    case Success(text) =>
      var ops := [WriteFile(PathJoin(path, "Makefile"), text, Utf8)];
      if project.fpga.None? then Outcome(ops, project, None)
      else
        var rest := FpgaOutcome(path, FitkitBase, "    ", project.fpga.value);
        Outcome(ops + rest.ops, project.(fpga := Some(rest.project)), rest.error)
  }

  /** The whole run, given what the Makefile step gave. */
  function Generate(path: string, project: ProjectData, makefile: Result<string, string>): (r: Outcome<ProjectData>)
    ensures DirOps(path) <= r.ops
    ensures r.error.Some? <==> makefile.Failure? || (project.fpga.Some? && XstContent(project.fpga.value).Failure?)
    ensures makefile.Failure? ==> r == Outcome(DirOps(path), project, Some(makefile.error))
    ensures makefile.Success? ==> |r.ops| >= 3 && r.ops[2] == WriteFile(PathJoin(path, "Makefile"), makefile.value, Utf8)
    ensures r.project.mcu == project.mcu
    ensures r.error.None? && project.fpga.Some? ==> r.project.fpga == Some(WithConfigEntry(project.fpga.value))
  {
    var rest := AfterDirs(path, project, makefile);
    Outcome(DirOps(path) + rest.ops, rest.project, rest.error)
  }

  /** `createBuildFiles` of the current tree. */
  function BuildFilesOutcome(path: string, project: ProjectData): (r: Outcome<ProjectData>)
    ensures DirOps(path) <= r.ops
    ensures r.error.Some? <==>
              Makefile(project).Failure? || (project.fpga.Some? && XstContent(project.fpga.value).Failure?)
    ensures Makefile(project).Failure? ==> r == Outcome(DirOps(path), project, Some(Makefile(project).error))
    ensures Makefile(project).Success? ==>
              |r.ops| >= 3 && r.ops[2] == WriteFile(PathJoin(path, "Makefile"), Makefile(project).value, Utf8)
    ensures r.project.mcu == project.mcu
    ensures r.error.None? && project.fpga.Some? ==> r.project.fpga == Some(WithConfigEntry(project.fpga.value))
  {
    Generate(path, project, Makefile(project))
  }

  /** The legacy steps after the two directories: the FPGA part always exists. */
  function LegacyAfterDirs(baseFolder: string, path: string, project: LegacyProjectData,
                           makefile: Result<string, string>): Outcome<LegacyProjectData>
  {
    match makefile
    case Failure(e) => Outcome([], project, Some(e))
    case Success(text) =>
      var rest := FpgaOutcome(path, baseFolder, "\t", project.fpga);
      Outcome([WriteFile(PathJoin(path, "Makefile"), text, Utf8)] + rest.ops, project.(fpga := rest.project), rest.error)
  }

  function LegacyGenerate(baseFolder: string, path: string, project: LegacyProjectData,
                          makefile: Result<string, string>): (r: Outcome<LegacyProjectData>)
    ensures DirOps(path) <= r.ops
    ensures r.error.Some? <==> makefile.Failure? || XstContent(project.fpga).Failure?
    ensures makefile.Failure? ==> r == Outcome(DirOps(path), project, Some(makefile.error))
    ensures makefile.Success? ==> |r.ops| >= 3 && r.ops[2] == WriteFile(PathJoin(path, "Makefile"), makefile.value, Utf8)
    ensures r.project.mcu == project.mcu
    ensures r.error.None? ==> r.project.fpga == WithConfigEntry(project.fpga)
  {
    var rest := LegacyAfterDirs(baseFolder, path, project, makefile);
    Outcome(DirOps(path) + rest.ops, rest.project, rest.error)
  }

  /** `CreateBuildFiles` of the legacy tree, with `BASE` the configured folder. */
  function LegacyBuildFilesOutcome(baseFolder: string, path: string, project: LegacyProjectData)
    : (r: Outcome<LegacyProjectData>)
    ensures DirOps(path) <= r.ops
    ensures r.error.Some? <==> LegacyMakefile(baseFolder, project).Failure? || XstContent(project.fpga).Failure?
    ensures LegacyMakefile(baseFolder, project).Failure? ==>
              r == Outcome(DirOps(path), project, Some(LegacyMakefile(baseFolder, project).error))
    ensures LegacyMakefile(baseFolder, project).Success? ==>
              |r.ops| >= 3 &&
              r.ops[2] == WriteFile(PathJoin(path, "Makefile"), LegacyMakefile(baseFolder, project).value, Utf8)
    ensures r.project.mcu == project.mcu
    ensures r.error.None? ==> r.project.fpga == WithConfigEntry(project.fpga)
  {
    LegacyGenerate(baseFolder, path, project, LegacyMakefile(baseFolder, project))
  }

  /** The writes after the Makefile, shared by both trees. */
  method CreateFpgaFiles(disk: Disk, path: string, base: string, indent: string, fpga: FpgaData)
    returns (updated: FpgaData, error: Option<string>)
    modifies disk
    ensures var o := FpgaOutcome(path, base, indent, fpga);
            disk.log == old(disk.log) + o.ops && updated == o.project && error == o.error
  {
    var buildFpga := PathJoin(path, "build/fpga");
    ghost var start := disk.log;
    var lso := WriteFile(PathJoin(buildFpga, "project.lso"), fpga.library, Utf8);
    disk.Do(lso);
    var xst := XstContent(fpga);
    if xst.Failure? {
      return fpga, Some(xst.error);
    }
    updated := WriteAfterXst(disk, path, base, indent, fpga, xst.value);
    error := None;
    AppendAssoc(start, [lso], AfterXstOps(path, base, indent, fpga, xst.value));
  }

  method WriteAfterXst(disk: Disk, path: string, base: string, indent: string, fpga: FpgaData, xst: string)
    returns (updated: FpgaData)
    modifies disk
    ensures disk.log == old(disk.log) + AfterXstOps(path, base, indent, fpga, xst)
    ensures updated == WithConfigEntry(fpga)
  {
    var buildFpga := PathJoin(path, "build/fpga");
    ghost var start := disk.log;
    var xstOp := WriteFile(PathJoin(buildFpga, "project.xst"), xst, Utf8);
    var simOp := WriteFile(PathJoin(buildFpga, "project_sim.tcl"), SimTcl(base), Utf8);
    disk.Do(xstOp);
    disk.Do(simOp);
    updated := fpga;
    if fpga.usesArchitecture {
      disk.Do(WriteFile(PathJoin(path, ConfigPath), VhdlConfig(indent, fpga.dcmFrequency), Utf8));
      updated := updated.(files := [ConfigEntry] + updated.files);
    }
    assert disk.log == start + ([xstOp, simOp] + ArchOps(path, indent, fpga));
    WritePrjFiles(disk, path, updated);
  }

  /** The two prj lists. */
  method WritePrjFiles(disk: Disk, path: string, fpga: FpgaData)
    modifies disk
    ensures disk.log == old(disk.log) + PrjOps(path, fpga)
  {
    var buildFpga := PathJoin(path, "build/fpga");
    var prj := CreatePrjFile(fpga, "", false);
    disk.Do(WriteFile(PathJoin(buildFpga, "project.prj"), prj, Utf8));
    var isimPrj := CreatePrjFile(fpga, PathJoin("..", ".."), true);
    assert PathJoin("..", "..") == "../..";
    disk.Do(WriteFile(PathJoin(buildFpga, "project_isim.prj"), isimPrj, Utf8));
  }

  /** `createBuildFiles`: returns the project after the `unshift`, and the error thrown, if any. */
  method CreateBuildFiles(disk: Disk, path: string, project: ProjectData)
    returns (updated: ProjectData, error: Option<string>)
    modifies disk
    ensures var o := BuildFilesOutcome(path, project);
            disk.log == old(disk.log) + o.ops && updated == o.project && error == o.error
  {
    var makefile := CreateMakefile(project);
    updated, error := GenerateFiles(disk, path, project, makefile);
  }

  /** The body of `createBuildFiles` around the Makefile step: directories first, then the rest. */
  method GenerateFiles(disk: Disk, path: string, project: ProjectData, makefile: Result<string, string>)
    returns (updated: ProjectData, error: Option<string>)
    modifies disk
    ensures var o := Generate(path, project, makefile);
            disk.log == old(disk.log) + o.ops && updated == o.project && error == o.error
  {
    disk.Do(MakeDir(PathJoin(path, "build/fpga")));
    disk.Do(MakeDir(PathJoin(path, "build/mcu")));
    ghost var dirs := disk.log;
    assert dirs == old(disk.log) + DirOps(path);
    updated, error := WriteAfterDirs(disk, path, project, makefile);
    ghost var rest := AfterDirs(path, project, makefile);
    assert disk.log == dirs + rest.ops;
    AppendAssoc(old(disk.log), DirOps(path), rest.ops);
  }

  method WriteAfterDirs(disk: Disk, path: string, project: ProjectData, makefile: Result<string, string>)
    returns (updated: ProjectData, error: Option<string>)
    modifies disk
    ensures var o := AfterDirs(path, project, makefile);
            disk.log == old(disk.log) + o.ops && updated == o.project && error == o.error
  {
    if makefile.Failure? {
      return project, Some(makefile.error);
    }
    var mk := WriteFile(PathJoin(path, "Makefile"), makefile.value, Utf8);
    disk.Do(mk);
    if project.fpga.None? {
      return project, None;
    }
    var fpga;
    fpga, error := CreateFpgaFiles(disk, path, FitkitBase, "    ", project.fpga.value);
    updated := project.(fpga := Some(fpga));
    ghost var rest := FpgaOutcome(path, FitkitBase, "    ", project.fpga.value);
    AppendAssoc(old(disk.log), [mk], rest.ops);
  }

  /** The legacy `CreateBuildFiles`. */
  method CreateLegacyBuildFiles(disk: Disk, baseFolder: string, path: string, project: LegacyProjectData)
    returns (updated: LegacyProjectData, error: Option<string>)
    modifies disk
    ensures var o := LegacyBuildFilesOutcome(baseFolder, path, project);
            disk.log == old(disk.log) + o.ops && updated == o.project && error == o.error
  {
    var makefile := CreateLegacyMakefile(baseFolder, project);
    updated, error := LegacyGenerateFiles(disk, baseFolder, path, project, makefile);
  }

  /** The body of the legacy `CreateBuildFiles` around the Makefile step. */
  method LegacyGenerateFiles(disk: Disk, baseFolder: string, path: string, project: LegacyProjectData,
                             makefile: Result<string, string>)
    returns (updated: LegacyProjectData, error: Option<string>)
    modifies disk
    ensures var o := LegacyGenerate(baseFolder, path, project, makefile);
            disk.log == old(disk.log) + o.ops && updated == o.project && error == o.error
  {
    disk.Do(MakeDir(PathJoin(path, "build/fpga")));
    disk.Do(MakeDir(PathJoin(path, "build/mcu")));
    ghost var dirs := disk.log;
    assert dirs == old(disk.log) + DirOps(path);
    updated, error := WriteLegacyAfterDirs(disk, baseFolder, path, project, makefile);
    ghost var rest := LegacyAfterDirs(baseFolder, path, project, makefile);
    assert disk.log == dirs + rest.ops;
    AppendAssoc(old(disk.log), DirOps(path), rest.ops);
  }

  lemma AppendAssoc(a: seq<FsOp>, b: seq<FsOp>, c: seq<FsOp>)
    ensures (a + b) + c == a + (b + c)
  {
  }

  method WriteLegacyAfterDirs(disk: Disk, baseFolder: string, path: string, project: LegacyProjectData,
                              makefile: Result<string, string>)
    returns (updated: LegacyProjectData, error: Option<string>)
    modifies disk
    ensures var o := LegacyAfterDirs(baseFolder, path, project, makefile);
            disk.log == old(disk.log) + o.ops && updated == o.project && error == o.error
  {
    if makefile.Failure? {
      return project, Some(makefile.error);
    }
    var mk := WriteFile(PathJoin(path, "Makefile"), makefile.value, Utf8);
    disk.Do(mk);
    var fpga;
    fpga, error := CreateFpgaFiles(disk, path, baseFolder, "\t", project.fpga);
    updated := project.(fpga := fpga);
    ghost var rest := FpgaOutcome(path, baseFolder, "\t", project.fpga);
    AppendAssoc(old(disk.log), [mk], rest.ops);
  }

  // ---------------------------------------------------------------------
  // properties

  /** The path an operation acts on. */
  function Target(op: FsOp): string
  {
    match op
    case MakeDir(p) => p
    case WriteFile(p, _, _) => p
    case RemoveDir(p) => p
  }

  function Targets(ops: seq<FsOp>): seq<string>
  {
    seq(|ops|, i requires 0 <= i < |ops| => Target(ops[i]))
  }

  /** The files written after the Makefile when nothing fails, in order. */
  function FpgaTargets(path: string, usesArchitecture: bool): seq<string>
  {
    var bf := BuildFpga(path);
    [PathJoin(bf, "project.lso"), PathJoin(bf, "project.xst"), PathJoin(bf, "project_sim.tcl")]
    + (if usesArchitecture then [PathJoin(path, ConfigPath)] else [])
    + [PathJoin(bf, "project.prj"), PathJoin(bf, "project_isim.prj")]
  }

  /**
   * The current tree's order: both directories, then the Makefile, then
   * (with an FPGA part) the lso, xst, sim-tcl, optional configuration and
   * both prj files. A thrown error leaves exactly the operations before it;
   * the project changes only by the prepended entry, and only on success.
   * Stated for every result of the Makefile step; the run uses
   * `Makefile(project)`, whose failure is the chip error.
   */
  lemma BuildFilesOrder(path: string, project: ProjectData, makefile: Result<string, string>)
    ensures var o := Generate(path, project, makefile);
            var dirs := [BuildFpga(path), PathJoin(path, "build/mcu")];
            var upToMakefile := dirs + [PathJoin(path, "Makefile")];
            (o.error.Some? <==> makefile.Failure? || (project.fpga.Some? && XstContent(project.fpga.value).Failure?)) &&
            (makefile.Failure? ==> Targets(o.ops) == dirs && o.error == Some(makefile.error)) &&
            (makefile.Success? && project.fpga.None? ==> Targets(o.ops) == upToMakefile && o.error == None) &&
            (makefile.Success? && project.fpga.Some? && XstContent(project.fpga.value).Failure? ==>
               Targets(o.ops) == upToMakefile + [PathJoin(BuildFpga(path), "project.lso")]) &&
            (o.error.None? && project.fpga.Some? ==>
               Targets(o.ops) == upToMakefile + FpgaTargets(path, project.fpga.value.usesArchitecture)) &&
            (o.error.Some? || project.fpga.None? || !project.fpga.value.usesArchitecture ==> o.project == project)
  {
    var rest := AfterDirs(path, project, makefile);
    var dirs := [BuildFpga(path), PathJoin(path, "build/mcu")];
    AfterDirsOrder(path, project, makefile);
    DirsThen(path, rest.ops);
    if makefile.Success? && project.fpga.Some? {
      var lso := [PathJoin(BuildFpga(path), "project.lso")];
      var all := FpgaTargets(path, project.fpga.value.usesArchitecture);
      StringsAssoc(dirs, [PathJoin(path, "Makefile")], lso);
      StringsAssoc(dirs, [PathJoin(path, "Makefile")], all);
    }
  }

  /** The order after the directories, whatever the Makefile step gave. */
  lemma AfterDirsOrder(path: string, project: ProjectData, makefile: Result<string, string>)
    ensures var o := AfterDirs(path, project, makefile);
            var mk := [PathJoin(path, "Makefile")];
            (o.error.Some? <==> makefile.Failure? || (project.fpga.Some? && XstContent(project.fpga.value).Failure?)) &&
            (makefile.Failure? ==> o.ops == [] && o.error == Some(makefile.error)) &&
            (makefile.Success? && project.fpga.None? ==> Targets(o.ops) == mk && o.error == None) &&
            (makefile.Success? && project.fpga.Some? && XstContent(project.fpga.value).Failure? ==>
               Targets(o.ops) == mk + [PathJoin(BuildFpga(path), "project.lso")]) &&
            (o.error.None? && project.fpga.Some? ==>
               Targets(o.ops) == mk + FpgaTargets(path, project.fpga.value.usesArchitecture)) &&
            (o.error.Some? || project.fpga.None? || !project.fpga.value.usesArchitecture ==> o.project == project)
  {
    if makefile.Success? && project.fpga.Some? {
      var fpga := project.fpga.value;
      var rest := FpgaOutcome(path, FitkitBase, "    ", fpga);
      MakefileThen(path, makefile.value, rest.ops);
      if XstContent(fpga).Failure? {
        FpgaOrderFailed(path, FitkitBase, "    ", fpga);
      } else {
        FpgaOrderDone(path, FitkitBase, "    ", fpga);
      }
    }
  }

  /** The legacy order: as the current tree's, with the FPGA part always present. */
  lemma LegacyBuildFilesOrder(baseFolder: string, path: string, project: LegacyProjectData, makefile: Result<string, string>)
    ensures var o := LegacyGenerate(baseFolder, path, project, makefile);
            var dirs := [BuildFpga(path), PathJoin(path, "build/mcu")];
            var upToMakefile := dirs + [PathJoin(path, "Makefile")];
            (o.error.Some? <==> makefile.Failure? || XstContent(project.fpga).Failure?) &&
            (makefile.Failure? ==> Targets(o.ops) == dirs && o.error == Some(makefile.error)) &&
            (makefile.Success? && XstContent(project.fpga).Failure? ==>
               Targets(o.ops) == upToMakefile + [PathJoin(BuildFpga(path), "project.lso")]) &&
            (o.error.None? ==> Targets(o.ops) == upToMakefile + FpgaTargets(path, project.fpga.usesArchitecture)) &&
            (o.error.Some? || !project.fpga.usesArchitecture ==> o.project == project)
  {
    var rest := LegacyAfterDirs(baseFolder, path, project, makefile);
    var dirs := [BuildFpga(path), PathJoin(path, "build/mcu")];
    DirsThen(path, rest.ops);
    if makefile.Success? {
      var fpgaPart := FpgaOutcome(path, baseFolder, "\t", project.fpga);
      MakefileThen(path, makefile.value, fpgaPart.ops);
      var mk := [PathJoin(path, "Makefile")];
      if XstContent(project.fpga).Failure? {
        FpgaOrderFailed(path, baseFolder, "\t", project.fpga);
        StringsAssoc(dirs, mk, [PathJoin(BuildFpga(path), "project.lso")]);
      } else {
        FpgaOrderDone(path, baseFolder, "\t", project.fpga);
        StringsAssoc(dirs, mk, FpgaTargets(path, project.fpga.usesArchitecture));
      }
    }
  }

  lemma StringsAssoc(a: seq<string>, b: seq<string>, c: seq<string>)
    ensures a + (b + c) == (a + b) + c
  {
  }

  lemma FpgaOrder(path: string, base: string, indent: string, fpga: FpgaData)
    ensures var o := FpgaOutcome(path, base, indent, fpga);
            (o.error.Some? <==> XstContent(fpga).Failure?) &&
            (o.error.Some? ==> Targets(o.ops) == [PathJoin(BuildFpga(path), "project.lso")] && o.project == fpga) &&
            (o.error.None? ==> Targets(o.ops) == FpgaTargets(path, fpga.usesArchitecture)) &&
            (!fpga.usesArchitecture ==> o.project == fpga)
  {
    if XstContent(fpga).Failure? {
      FpgaOrderFailed(path, base, indent, fpga);
    } else {
      FpgaOrderDone(path, base, indent, fpga);
    }
  }

  lemma FpgaOrderFailed(path: string, base: string, indent: string, fpga: FpgaData)
    requires XstContent(fpga).Failure?
    ensures var o := FpgaOutcome(path, base, indent, fpga);
            o.error.Some? && Targets(o.ops) == [PathJoin(BuildFpga(path), "project.lso")] && o.project == fpga
  {
  }

  lemma FpgaOrderDone(path: string, base: string, indent: string, fpga: FpgaData)
    requires XstContent(fpga).Success?
    ensures var o := FpgaOutcome(path, base, indent, fpga);
            o.error.None? && Targets(o.ops) == FpgaTargets(path, fpga.usesArchitecture) &&
            (!fpga.usesArchitecture ==> o.project == fpga)
  {
    var bf := BuildFpga(path);
    var head := [WriteFile(PathJoin(bf, "project.lso"), fpga.library, Utf8),
                 WriteFile(PathJoin(bf, "project.xst"), XstContent(fpga).value, Utf8),
                 WriteFile(PathJoin(bf, "project_sim.tcl"), SimTcl(base), Utf8)];
    var arch, prj := ArchOps(path, indent, fpga), PrjOps(path, WithConfigEntry(fpga));
    var o := FpgaOutcome(path, base, indent, fpga);
    assert o.ops == [head[0]] + ([head[1], head[2]] + arch + prj);
    AppendAssoc([head[0]], [head[1], head[2]] + arch, prj);
    AppendAssoc([head[0]], [head[1], head[2]], arch);
    assert [head[0]] + [head[1], head[2]] == head;
    TargetsAppend(head, arch);
    TargetsAppend(head + arch, prj);
    assert Targets(head) == [PathJoin(bf, "project.lso"), PathJoin(bf, "project.xst"), PathJoin(bf, "project_sim.tcl")];
    assert Targets(arch) == if fpga.usesArchitecture then [PathJoin(path, ConfigPath)] else [];
    assert Targets(prj) == [PathJoin(bf, "project.prj"), PathJoin(bf, "project_isim.prj")];
  }

  lemma DirsThen(path: string, rest: seq<FsOp>)
    ensures Targets(DirOps(path) + rest) == [BuildFpga(path), PathJoin(path, "build/mcu")] + Targets(rest)
  {
    TargetsAppend(DirOps(path), rest);
  }

  lemma MakefileThen(path: string, text: string, rest: seq<FsOp>)
    ensures Targets([WriteFile(PathJoin(path, "Makefile"), text, Utf8)] + rest) == [PathJoin(path, "Makefile")] + Targets(rest)
  {
    TargetsAppend([WriteFile(PathJoin(path, "Makefile"), text, Utf8)], rest);
  }

  lemma TargetsAppend(a: seq<FsOp>, b: seq<FsOp>)
    ensures Targets(a + b) == Targets(a) + Targets(b)
  {
  }

  /**
   * With `usesArchitecture` the configuration entry comes first in both prj
   * lists, ahead of the project's own files, while the Makefile written
   * before the `unshift` lists only the project's own files: the entry is
   * in HDLFILES only if the project itself has a non-simulation file with
   * that path.
   */
  lemma ConfigEntryOnlyInPrj(path: string, project: ProjectData)
    requires project.fpga.Some? && project.fpga.value.usesArchitecture
    requires BuildFilesOutcome(path, project).error.None?
    ensures var o := BuildFilesOutcome(path, project);
            var fpga := project.fpga.value;
            var after := o.project.fpga.value;
            after.files == [ConfigEntry] + fpga.files &&
            o.ops[2] == WriteFile(PathJoin(path, "Makefile"), Makefile(project).value, Utf8) &&
            (ConfigPath in HdlOf(project) <==> exists i :: 0 <= i < |fpga.files| && fpga.files[i].path == ConfigPath && !fpga.files[i].simOnly) &&
            PrjLines(after, "", false) == [PrjLine(fpga.library, "", ConfigEntry)] + PrjLines(fpga, "", false) &&
            PrjLines(after, "../..", true) == [PrjLine(fpga.library, "../..", ConfigEntry)] + PrjLines(fpga, "../..", true)
  {
    var fpga := project.fpga.value;
    NonSimPathsMembers(fpga.files, ConfigPath);
    PrependLines(fpga, ConfigEntry, "", false);
    PrependLines(fpga, ConfigEntry, "../..", true);
  }

  /** A file prepended to the FPGA files that takes part gives the first prj line. */
  lemma PrependLines(fpga: FpgaData, e: SourceFile, prefix: string, sim: bool)
    requires Takes(e, sim)
    ensures PrjLines(fpga.(files := [e] + fpga.files), prefix, sim) == [PrjLine(fpga.library, prefix, e)] + PrjLines(fpga, prefix, sim)
  {
    IncludedCons(e, fpga.files, sim);
  }
}

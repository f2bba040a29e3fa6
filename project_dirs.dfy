/**
 * The project directory of a job: `ProjectFiles` (src/job/projectFiles.ts),
 * `ProjectConfig` (src/platforms/fitkit2/project-config.ts) and the legacy
 * `Project` (src/project/Project.ts). Each creates a temporary directory,
 * stages the uploaded files into it under local names, records the
 * local-name dictionary `mapToOriginalPath` and rewrites every staged
 * file's `path` in place; `ProjectConfig` and `Project` then generate the
 * build files.
 *
 * The three classes differ in the order of the staging steps, in the
 * encoding of the writes, in whether a missing directory path skips the
 * staging and in whether a build-file error reaches the caller.
 */
module ProjectDirs {
  import opened Wrappers
  import opened JsText
  import opened ProjectModel
  import opened LocalNames
  import opened Staging
  import opened BuildFiles

  /** The dictionary, the project with its rewritten paths, the operations and the error thrown. */
  datatype DirOutcome<P> = DirOutcome(names: map<string, string>, project: P, ops: seq<FsOp>, error: Option<string>)

  /** JavaScript truthiness of the optional `path` field: set and not empty. */
  predicate Truthy(path: Option<string>)
  {
    path.Some? && path.value != ""
  }

  /** `delete`: removes the directory when the path is truthy, does nothing otherwise. */
  function DeleteOps(path: Option<string>): (r: seq<FsOp>)
    ensures |r| <= 1
    ensures r != [] <==> Truthy(path)
    ensures r != [] ==> r[0] == RemoveDir(path.value)
  {
    if Truthy(path) then [RemoveDir(path.value)] else []
  }

  // ---------------------------------------------------------------------
  // staging steps

  /** The FPGA source files, each under a fresh local name. */
  function StageFpgaFiles(dir: string, honourBinary: bool, names: map<string, string>, fpga: FpgaData): DirOutcome<FpgaData>
  {
    var s := StageFiles(dir, honourBinary, true, names, fpga.files);
    DirOutcome(s.names, fpga.(files := Rewritten(fpga.files, s)), s.ops, s.error)
  }

  /** The UCF file under its plain basename, then the optional isim file keyed by the full path. */
  function StageUcfIsim(dir: string, honourBinary: bool, names: map<string, string>, fpga: FpgaData): DirOutcome<FpgaData>
  {
    var s := StageUcf(dir, honourBinary, names, fpga.ucfFile);
    if s.error.Some? then DirOutcome(s.names, fpga, s.ops, s.error)
    else
      var ucf := s.files[0];
      match fpga.isimFile
      case None => DirOutcome(s.names, fpga.(ucfFile := ucf), s.ops, None)
      case Some(isim) =>
        DirOutcome(s.names[IsimKey(dir) := isim.path], fpga.(ucfFile := ucf),
                   s.ops + [WriteFile(IsimKey(dir), isim.content, EncodingOf(isim, honourBinary))], None)
  }

  /** The MCU source files, then the headers, each under its plain basename. */
  function StageMcu(dir: string, honourBinary: bool, names: map<string, string>, mcu: McuData): DirOutcome<McuData>
  {
    var f := StageFiles(dir, honourBinary, false, names, mcu.files);
    if f.error.Some? then DirOutcome(f.names, mcu.(files := Rewritten(mcu.files, f)), f.ops, f.error)
    else
      var h := StageFiles(dir, honourBinary, false, f.names, mcu.headers);
      DirOutcome(h.names, mcu.(files := f.files, headers := Rewritten(mcu.headers, h)), f.ops + h.ops, h.error)
  }

  /** The FPGA part of the current tree: the files, then the UCF and isim files. */
  function StageFpga(dir: string, honourBinary: bool, names: map<string, string>, fpga: FpgaData): DirOutcome<FpgaData>
  {
    var a := StageFpgaFiles(dir, honourBinary, names, fpga);
    if a.error.Some? then a
    else
      var b := StageUcfIsim(dir, honourBinary, a.names, a.project);
      b.(ops := a.ops + b.ops)
  }

  /** The FPGA part of a current-tree project, skipped when absent. */
  function FpgaPart(dir: string, honourBinary: bool, names: map<string, string>, project: ProjectData): DirOutcome<ProjectData>
  {
    if project.fpga.None? then DirOutcome(names, project, [], None)
    else
      var o := StageFpga(dir, honourBinary, names, project.fpga.value);
      DirOutcome(o.names, project.(fpga := Some(o.project)), o.ops, o.error)
  }

  /** The MCU part of a current-tree project after the FPGA part `f`, skipped when absent. */
  function McuPart(dir: string, honourBinary: bool, f: DirOutcome<ProjectData>): DirOutcome<ProjectData>
  {
    if f.project.mcu.None? then f
    else
      var m := StageMcu(dir, honourBinary, f.names, f.project.mcu.value);
      DirOutcome(m.names, f.project.(mcu := Some(m.project)), f.ops + m.ops, m.error)
  }

  /** The current tree's staging: the FPGA part if present, then the MCU part if present. */
  function TreeStaging(dir: string, honourBinary: bool, names: map<string, string>, project: ProjectData)
    : (r: DirOutcome<ProjectData>)
    ensures r.project.fpga.Some? <==> project.fpga.Some?
    ensures r.project.mcu.Some? <==> project.mcu.Some?
    ensures project.fpga.None? && project.mcu.None? ==> r == DirOutcome(names, project, [], None)
    ensures r.error.Some? ==> r.error == Some(InvalidPathMessage)
  {
    var f := FpgaPart(dir, honourBinary, names, project);
    if f.error.Some? then f else McuPart(dir, honourBinary, f)
  }

  /** The legacy FPGA files, each under a fresh local name. */
  function LegacyFpgaPart(dir: string, names: map<string, string>, project: LegacyProjectData): DirOutcome<LegacyProjectData>
  {
    var a := StageFpgaFiles(dir, false, names, project.fpga);
    DirOutcome(a.names, project.(fpga := a.project), a.ops, a.error)
  }

  /** The legacy MCU files and headers, after the steps that gave `a`. */
  function LegacyMcuPart(dir: string, a: DirOutcome<LegacyProjectData>): DirOutcome<LegacyProjectData>
  {
    var m := StageMcu(dir, false, a.names, a.project.mcu);
    DirOutcome(m.names, a.project.(mcu := m.project), a.ops + m.ops, m.error)
  }

  /** The legacy UCF and isim files, after the steps that gave `m`. */
  function LegacyUcfPart(dir: string, m: DirOutcome<LegacyProjectData>): DirOutcome<LegacyProjectData>
  {
    var u := StageUcfIsim(dir, false, m.names, m.project.fpga);
    DirOutcome(u.names, m.project.(fpga := u.project), m.ops + u.ops, u.error)
  }

  /** The legacy staging: FPGA files, MCU files and headers, then the UCF and isim files. */
  function LegacyStaging(dir: string, names: map<string, string>, project: LegacyProjectData)
    : (r: DirOutcome<LegacyProjectData>)
    ensures r.project.fpga.isimFile == project.fpga.isimFile
    ensures r.error.Some? ==> r.error == Some(InvalidPathMessage)
  {
    var a := LegacyFpgaPart(dir, names, project);
    if a.error.Some? then a else LegacyRest(dir, a)
  }

  /** The legacy steps after the FPGA files. */
  function LegacyRest(dir: string, a: DirOutcome<LegacyProjectData>): DirOutcome<LegacyProjectData>
  {
    var m := LegacyMcuPart(dir, a);
    if m.error.Some? then m else LegacyUcfPart(dir, m)
  }

  // ---------------------------------------------------------------------
  // createDirectory of the three classes; `tmp` is the directory mkdtemp made

  /** `ProjectFiles.createDirectory`: both parts are skipped when the new path is empty; no build files. */
  function JobCreate(names: map<string, string>, project: ProjectData, path: Option<string>, tmp: string)
    : (r: DirOutcome<ProjectData>)
    ensures DeleteOps(path) + [MakeDir(tmp)] <= r.ops
    ensures tmp == "" ==> r == DirOutcome(names, project, DeleteOps(path) + [MakeDir(tmp)], None)
    ensures r.error.Some? ==> r.error == Some(InvalidPathMessage)
  {
    var s := if tmp == "" then DirOutcome(names, project, [], None) else TreeStaging(tmp, false, names, project);
    s.(ops := DeleteOps(path) + [MakeDir(tmp)] + s.ops)
  }

  /** The build files of the current tree after staging `s`, skipped when staging threw. */
  function ConfigBuild(tmp: string, s: DirOutcome<ProjectData>): DirOutcome<ProjectData>
  {
    if s.error.Some? then s
    else
      var b := BuildFilesOutcome(tmp, s.project);
      DirOutcome(s.names, b.project, s.ops + b.ops, b.error)
  }

  /** `ProjectConfig.createDirectory`: staging, then the build files, whose error reaches the caller. */
  function ConfigCreate(names: map<string, string>, project: ProjectData, path: Option<string>, tmp: string)
    : (r: DirOutcome<ProjectData>)
    ensures DeleteOps(path) + [MakeDir(tmp)] <= r.ops
    ensures var s := TreeStaging(tmp, true, names, project);
            (s.error.Some? ==> r.error == Some(InvalidPathMessage)) &&
            (s.error.None? ==> r.error == BuildFilesOutcome(tmp, s.project).error)
  {
    var o := ConfigBuild(tmp, TreeStaging(tmp, true, names, project));
    o.(ops := DeleteOps(path) + [MakeDir(tmp)] + o.ops)
  }

  /** What `createDirectory` resolves to: the new path, or the error it rejects with. */
  function Resolved<P>(o: DirOutcome<P>, tmp: string): Result<string, string>
  {
    if o.error.Some? then Failure(o.error.value) else Success(tmp)
  }

  // ---------------------------------------------------------------------
  // order of the writes

  /** One write per file, under its (local) path, in order. */
  function Writes(dir: string, honourBinary: bool, files: seq<SourceFile>): (r: seq<FsOp>)
    ensures |r| == |files|
  {
    seq(|files|, i requires 0 <= i < |files| =>
      WriteFile(PathJoin(dir, files[i].path), files[i].content, EncodingOf(files[i], honourBinary)))
  }

  /** The write of the isim file, if any. */
  function IsimWrites(dir: string, honourBinary: bool, isim: Option<SourceFile>): seq<FsOp>
  {
    if isim.None? then [] else [WriteFile(IsimKey(dir), isim.value.content, EncodingOf(isim.value, honourBinary))]
  }

  /** The loop writes each staged file under its local name, in order, with its own content. */
  lemma StagedWrites(dir: string, honourBinary: bool, renaming: bool, names: map<string, string>, files: seq<SourceFile>)
    ensures var r := StageFiles(dir, honourBinary, renaming, names, files);
            r.ops == Writes(dir, honourBinary, r.files)
  {
    StageFilesRewrite(dir, honourBinary, renaming, names, files);
  }

  /** The UCF file is written under its basename, then the isim file; the FPGA files stay as they are. */
  lemma UcfIsimOrder(dir: string, honourBinary: bool, names: map<string, string>, fpga: FpgaData)
    ensures var o := StageUcfIsim(dir, honourBinary, names, fpga);
            o.error.None? ==>
              o.ops == Writes(dir, honourBinary, [o.project.ucfFile]) + IsimWrites(dir, honourBinary, fpga.isimFile) &&
              o.project.files == fpga.files && o.project.isimFile == fpga.isimFile
  {
    StagedWrites(dir, honourBinary, false, names, [fpga.ucfFile]);
  }

  /** The current tree's FPGA part writes the files, then the UCF file, then the isim file. */
  lemma FpgaStagingOrder(dir: string, honourBinary: bool, names: map<string, string>, fpga: FpgaData)
    ensures var o := StageFpga(dir, honourBinary, names, fpga);
            o.error.None? ==>
              o.ops == Writes(dir, honourBinary, o.project.files) + Writes(dir, honourBinary, [o.project.ucfFile])
                       + IsimWrites(dir, honourBinary, fpga.isimFile) &&
              |o.project.files| == |fpga.files| && o.project.isimFile == fpga.isimFile
  {
    var a := StageFpgaFiles(dir, honourBinary, names, fpga);
    var s := StageFiles(dir, honourBinary, true, names, fpga.files);
    StagedWrites(dir, honourBinary, true, names, fpga.files);
    if a.error.None? {
      assert a.project.files == s.files + [];
      UcfIsimOrder(dir, honourBinary, a.names, a.project);
      var b := StageUcfIsim(dir, honourBinary, a.names, a.project);
      assert StageFpga(dir, honourBinary, names, fpga) == b.(ops := a.ops + b.ops);
      AppendAssoc(a.ops, Writes(dir, honourBinary, [b.project.ucfFile]), IsimWrites(dir, honourBinary, fpga.isimFile));
    }
  }

  /** The MCU part writes the files, then the headers. */
  lemma McuStagingOrder(dir: string, honourBinary: bool, names: map<string, string>, mcu: McuData)
    ensures var o := StageMcu(dir, honourBinary, names, mcu);
            o.error.None? ==>
              o.ops == Writes(dir, honourBinary, o.project.files) + Writes(dir, honourBinary, o.project.headers) &&
              |o.project.files| == |mcu.files| && |o.project.headers| == |mcu.headers|
  {
    var f := StageFiles(dir, honourBinary, false, names, mcu.files);
    StagedWrites(dir, honourBinary, false, names, mcu.files);
    StagedWrites(dir, honourBinary, false, f.names, mcu.headers);
  }

  /** The current tree's staging is the FPGA part, then the MCU part on what the FPGA part left. */
  lemma TreeStagingParts(dir: string, honourBinary: bool, names: map<string, string>, project: ProjectData)
    requires project.fpga.Some? && project.mcu.Some?
    ensures var sf := StageFpga(dir, honourBinary, names, project.fpga.value);
            var m := StageMcu(dir, honourBinary, sf.names, project.mcu.value);
            var o := TreeStaging(dir, honourBinary, names, project);
            (sf.error.Some? ==> o.error.Some?) &&
            (sf.error.None? ==>
               o.ops == sf.ops + m.ops && o.error == m.error &&
               o.project.fpga == Some(sf.project) && o.project.mcu == Some(m.project))
  {
  }

  /**
   * `ProjectConfig`/`ProjectFiles` order: FPGA files, UCF, isim, then MCU
   * files and headers, each under its rewritten local path.
   */
  lemma TreeStagingOrder(dir: string, honourBinary: bool, names: map<string, string>, project: ProjectData)
    requires project.fpga.Some? && project.mcu.Some?
    ensures var o := TreeStaging(dir, honourBinary, names, project);
            var fpga := o.project.fpga.value;
            var mcu := o.project.mcu.value;
            o.error.None? ==>
              o.project.fpga.Some? && o.project.mcu.Some? &&
              o.ops == Writes(dir, honourBinary, fpga.files) + Writes(dir, honourBinary, [fpga.ucfFile])
                       + IsimWrites(dir, honourBinary, project.fpga.value.isimFile)
                       + Writes(dir, honourBinary, mcu.files) + Writes(dir, honourBinary, mcu.headers)
  {
    var sf := StageFpga(dir, honourBinary, names, project.fpga.value);
    TreeStagingParts(dir, honourBinary, names, project);
    FpgaStagingOrder(dir, honourBinary, names, project.fpga.value);
    if sf.error.None? {
      var m := StageMcu(dir, honourBinary, sf.names, project.mcu.value);
      McuStagingOrder(dir, honourBinary, sf.names, project.mcu.value);
      var fpgaWrites := Writes(dir, honourBinary, sf.project.files) + Writes(dir, honourBinary, [sf.project.ucfFile])
                        + IsimWrites(dir, honourBinary, project.fpga.value.isimFile);
      var mcuWrites := Writes(dir, honourBinary, m.project.files);
      var headerWrites := Writes(dir, honourBinary, m.project.headers);
      AppendAssoc(fpgaWrites, mcuWrites, headerWrites);
    }
  }

  /** The legacy order: FPGA files, MCU files and headers, then the UCF and isim files. */
  lemma LegacyStagingOrder(dir: string, names: map<string, string>, project: LegacyProjectData)
    ensures var o := LegacyStaging(dir, names, project);
            var fpga := o.project.fpga;
            var mcu := o.project.mcu;
            o.error.None? ==>
              o.ops == Writes(dir, false, fpga.files) + Writes(dir, false, mcu.files) + Writes(dir, false, mcu.headers)
                       + Writes(dir, false, [fpga.ucfFile]) + IsimWrites(dir, false, project.fpga.isimFile)
  {
    var a := LegacyFpgaPart(dir, names, project);
    var s := StageFiles(dir, false, true, names, project.fpga.files);
    StagedWrites(dir, false, true, names, project.fpga.files);
    if a.error.None? {
      assert a.project.fpga.files == s.files + [];
      assert a.ops == Writes(dir, false, a.project.fpga.files);
      LegacyRestOrder(dir, a);
      assert LegacyStaging(dir, names, project) == LegacyRest(dir, a);
    }
  }

  /** The legacy steps after the FPGA files are the MCU part, then the UCF and isim files. */
  lemma LegacyRestParts(dir: string, a: DirOutcome<LegacyProjectData>)
    ensures var sm := StageMcu(dir, false, a.names, a.project.mcu);
            var u := StageUcfIsim(dir, false, sm.names, a.project.fpga);
            var o := LegacyRest(dir, a);
            (sm.error.Some? ==> o.error.Some?) &&
            (sm.error.None? ==>
               o.ops == (a.ops + sm.ops) + u.ops && o.error == u.error &&
               o.project.fpga == u.project && o.project.mcu == sm.project)
  {
  }

  lemma LegacyRestOrder(dir: string, a: DirOutcome<LegacyProjectData>)
    ensures var o := LegacyRest(dir, a);
            var fpga := o.project.fpga;
            var mcu := o.project.mcu;
            o.error.None? ==>
              o.ops == a.ops + Writes(dir, false, mcu.files) + Writes(dir, false, mcu.headers)
                       + Writes(dir, false, [fpga.ucfFile]) + IsimWrites(dir, false, a.project.fpga.isimFile) &&
              fpga.files == a.project.fpga.files
  {
    var sm := StageMcu(dir, false, a.names, a.project.mcu);
    LegacyRestParts(dir, a);
    McuStagingOrder(dir, false, a.names, a.project.mcu);
    if sm.error.None? {
      var u := StageUcfIsim(dir, false, sm.names, a.project.fpga);
      UcfIsimOrder(dir, false, sm.names, a.project.fpga);
      var files := Writes(dir, false, sm.project.files);
      var headers := Writes(dir, false, sm.project.headers);
      var ucf := Writes(dir, false, [u.project.ucfFile]);
      var isim := IsimWrites(dir, false, a.project.fpga.isimFile);
      AppendAssoc(a.ops, files, headers);
      AppendAssoc(a.ops + files + headers, ucf, isim);
    }
  }

  // ---------------------------------------------------------------------
  // the dictionary

  /** With renaming, the FPGA files get distinct new keys, each mapped to its own original path. */
  lemma FpgaNamesFresh(dir: string, honourBinary: bool, names: map<string, string>, fpga: FpgaData)
    ensures var o := StageFpgaFiles(dir, honourBinary, names, fpga);
            var files := o.project.files;
            o.error.None? ==>
              |files| == |fpga.files| &&
              (forall i :: 0 <= i < |files| ==>
                 files[i].path !in names && files[i].path in o.names && o.names[files[i].path] == fpga.files[i].path) &&
              (forall i, j :: 0 <= i < j < |files| ==> files[i].path != files[j].path) &&
              (forall k :: k in names ==> k in o.names && o.names[k] == names[k])
  {
    FreshLocalNames(dir, honourBinary, names, fpga.files);
    FreshNamesNeverOverwrite(dir, honourBinary, names, fpga.files);
  }

  /** A plain local name is a basename: it holds no separator. */
  lemma PlainNameHasNoSeparator(dir: string, honourBinary: bool, names: map<string, string>, files: seq<SourceFile>, i: nat)
    requires i < |StageFiles(dir, honourBinary, false, names, files).files|
    ensures !HasSep(StageFiles(dir, honourBinary, false, names, files).files[i].path, Separators)
  {
    StageFilesRewrite(dir, honourBinary, false, names, files);
  }

  /** Under a non-empty directory the isim key holds a separator, so no basename equals it. */
  lemma IsimKeyHasSeparator(dir: string)
    requires dir != ""
    ensures HasSep(IsimKey(dir), Separators)
  {
    assert IsimKey(dir)[|dir|] == '/';
  }

  /** The MCU part leaves every key that none of its local names took. */
  lemma McuKeeps(dir: string, honourBinary: bool, names: map<string, string>, mcu: McuData, k: string)
    requires k in names
    ensures var o := StageMcu(dir, honourBinary, names, mcu);
            o.error.None? &&
            (forall i :: 0 <= i < |o.project.files| ==> o.project.files[i].path != k) &&
            (forall i :: 0 <= i < |o.project.headers| ==> o.project.headers[i].path != k)
            ==> k in o.names && o.names[k] == names[k]
  {
    var f := StageFiles(dir, honourBinary, false, names, mcu.files);
    if f.error.None? {
      var h := StageFiles(dir, honourBinary, false, f.names, mcu.headers);
      if h.error.None? {
        StageFilesKeys(dir, honourBinary, false, names, mcu.files);
        StageFilesKeys(dir, honourBinary, false, f.names, mcu.headers);
        assert Rewritten(mcu.headers, h) == h.files;
      }
    }
  }

  /** The UCF entry maps its basename to the original path; the isim entry maps the full local path. */
  lemma UcfIsimEntries(dir: string, honourBinary: bool, names: map<string, string>, fpga: FpgaData)
    requires dir != ""
    ensures var o := StageUcfIsim(dir, honourBinary, names, fpga);
            var u := o.project.ucfFile.path;
            o.error.None? ==>
              !HasSep(u, Separators) && u in o.names && o.names[u] == fpga.ucfFile.path &&
              (fpga.isimFile.Some? ==> IsimKey(dir) in o.names && o.names[IsimKey(dir)] == fpga.isimFile.value.path)
  {
    if StageUcf(dir, honourBinary, names, fpga.ucfFile).error.None? {
      PlainNameHasNoSeparator(dir, honourBinary, names, [fpga.ucfFile], 0);
    }
    StageFilesLastWins(dir, honourBinary, false, names, [fpga.ucfFile]);
    IsimKeyHasSeparator(dir);
  }

  /**
   * Current tree: the isim entry survives the MCU part, and the UCF entry
   * survives unless an MCU file or header has the same basename.
   */
  lemma ConfigUcfIsimEntries(dir: string, honourBinary: bool, names: map<string, string>, project: ProjectData)
    requires dir != "" && project.fpga.Some?
    ensures var o := TreeStaging(dir, honourBinary, names, project);
            var fpga := project.fpga.value;
            var u := o.project.fpga.value.ucfFile.path;
            o.error.None? ==>
              o.project.fpga.Some? &&
              (fpga.isimFile.Some? ==> IsimKey(dir) in o.names && o.names[IsimKey(dir)] == fpga.isimFile.value.path) &&
              (project.mcu.None? ||
               (o.project.mcu.Some? &&
                (forall i :: 0 <= i < |o.project.mcu.value.files| ==> o.project.mcu.value.files[i].path != u) &&
                (forall i :: 0 <= i < |o.project.mcu.value.headers| ==> o.project.mcu.value.headers[i].path != u))
               ==> u in o.names && o.names[u] == fpga.ucfFile.path)
  {
    var fpga := project.fpga.value;
    var a := StageFpgaFiles(dir, honourBinary, names, fpga);
    var f := FpgaPart(dir, honourBinary, names, project);
    if f.error.None? {
      UcfIsimEntries(dir, honourBinary, a.names, a.project);
      if project.mcu.Some? {
        var mcu := project.mcu.value;
        var m := StageMcu(dir, honourBinary, f.names, mcu);
        if m.error.None? {
          McuKeeps(dir, honourBinary, f.names, mcu, f.project.fpga.value.ucfFile.path);
          if fpga.isimFile.Some? {
            McuNeverTakesIsimKey(dir, honourBinary, f.names, mcu);
            McuKeeps(dir, honourBinary, f.names, mcu, IsimKey(dir));
          }
        }
      }
    }
  }

  /** No MCU local name is the isim key of a non-empty directory. */
  lemma McuNeverTakesIsimKey(dir: string, honourBinary: bool, names: map<string, string>, mcu: McuData)
    requires dir != ""
    ensures var o := StageMcu(dir, honourBinary, names, mcu);
            o.error.None? ==>
              (forall i :: 0 <= i < |o.project.files| ==> o.project.files[i].path != IsimKey(dir)) &&
              (forall i :: 0 <= i < |o.project.headers| ==> o.project.headers[i].path != IsimKey(dir))
  {
    IsimKeyHasSeparator(dir);
    var f := StageFiles(dir, honourBinary, false, names, mcu.files);
    if f.error.None? {
      var h := StageFiles(dir, honourBinary, false, f.names, mcu.headers);
      if h.error.None? {
        assert Rewritten(mcu.headers, h) == h.files;
        forall i | 0 <= i < |f.files|
          ensures f.files[i].path != IsimKey(dir)
        {
          PlainNameHasNoSeparator(dir, honourBinary, names, mcu.files, i);
        }
        forall i | 0 <= i < |h.files|
          ensures h.files[i].path != IsimKey(dir)
        {
          PlainNameHasNoSeparator(dir, honourBinary, f.names, mcu.headers, i);
        }
      }
    }
  }

  /**
   * Current tree: a last MCU header with the UCF's basename overwrites the
   * UCF entry, which then maps to the header's original path.
   */
  lemma ConfigHeaderOverwritesUcf(dir: string, honourBinary: bool, names: map<string, string>, project: ProjectData)
    requires project.fpga.Some? && project.mcu.Some? && project.mcu.value.headers != []
    ensures var o := TreeStaging(dir, honourBinary, names, project);
            var headers := project.mcu.value.headers;
            o.error.None? ==>
              o.project.fpga.Some? && o.project.mcu.Some? &&
              |o.project.mcu.value.headers| == |headers| &&
              var last := o.project.mcu.value.headers[|headers| - 1].path;
              last in o.names && o.names[last] == headers[|headers| - 1].path
  {
    var f := FpgaPart(dir, honourBinary, names, project);
    if f.error.None? {
      var mcu := project.mcu.value;
      var fs := StageFiles(dir, honourBinary, false, f.names, mcu.files);
      if fs.error.None? {
        StageFilesLastWins(dir, honourBinary, false, fs.names, mcu.headers);
      }
    }
  }

  /** Legacy tree: the UCF and isim files come last, so their entries always stand. */
  lemma LegacyUcfIsimEntries(dir: string, names: map<string, string>, project: LegacyProjectData)
    requires dir != ""
    ensures var o := LegacyStaging(dir, names, project);
            var u := o.project.fpga.ucfFile.path;
            o.error.None? ==>
              u in o.names && o.names[u] == project.fpga.ucfFile.path &&
              (project.fpga.isimFile.Some? ==> IsimKey(dir) in o.names && o.names[IsimKey(dir)] == project.fpga.isimFile.value.path)
  {
    var a := LegacyFpgaPart(dir, names, project);
    if a.error.None? {
      var m := LegacyMcuPart(dir, a);
      if m.error.None? {
        UcfIsimEntries(dir, false, m.names, m.project.fpga);
      }
    }
  }

  // ---------------------------------------------------------------------
  // the staging methods

  method WriteFpgaFiles(disk: Disk, dir: string, honourBinary: bool, names0: map<string, string>, fpga0: FpgaData)
    returns (names: map<string, string>, fpga: FpgaData, error: Option<string>)
    modifies disk
    ensures var o := StageFpgaFiles(dir, honourBinary, names0, fpga0);
            names == o.names && fpga == o.project && error == o.error && disk.log == old(disk.log) + o.ops
  {
    var staged;
    names, staged, error := StageLoop(disk, dir, honourBinary, true, names0, fpga0.files);
    fpga := fpga0.(files := staged + fpga0.files[|staged|..]);
  }

  method WriteUcfIsim(disk: Disk, dir: string, honourBinary: bool, names0: map<string, string>, fpga0: FpgaData)
    returns (names: map<string, string>, fpga: FpgaData, error: Option<string>)
    modifies disk
    ensures var o := StageUcfIsim(dir, honourBinary, names0, fpga0);
            names == o.names && fpga == o.project && error == o.error && disk.log == old(disk.log) + o.ops
  {
    var staged;
    names, staged, error := StageLoop(disk, dir, honourBinary, false, names0, [fpga0.ucfFile]);
    fpga := fpga0;
    if error.Some? {
      return;
    }
    fpga := fpga.(ucfFile := staged[0]);
    if fpga.isimFile.Some? {
      var isim := fpga.isimFile.value;
      var localIsimFile := PathJoin(dir, "isim.tcl");
      names := names[localIsimFile := isim.path];
      disk.Do(WriteFile(localIsimFile, isim.content, if honourBinary && !isim.binary then Utf8 else Base64));
    }
  }

  method WriteMcu(disk: Disk, dir: string, honourBinary: bool, names0: map<string, string>, mcu0: McuData)
    returns (names: map<string, string>, mcu: McuData, error: Option<string>)
    modifies disk
    ensures var o := StageMcu(dir, honourBinary, names0, mcu0);
            names == o.names && mcu == o.project && error == o.error && disk.log == old(disk.log) + o.ops
  {
    var files, headers;
    names, files, error := StageLoop(disk, dir, honourBinary, false, names0, mcu0.files);
    if error.Some? {
      mcu := mcu0.(files := files + mcu0.files[|files|..]);
      return;
    }
    ghost var f := StageFiles(dir, honourBinary, false, names0, mcu0.files);
    names, headers, error := StageLoop(disk, dir, honourBinary, false, names, mcu0.headers);
    mcu := mcu0.(files := files, headers := headers + mcu0.headers[|headers|..]);
    ghost var h := StageFiles(dir, honourBinary, false, f.names, mcu0.headers);
    assert StageMcu(dir, honourBinary, names0, mcu0).ops == f.ops + h.ops;
    AppendAssoc(old(disk.log), f.ops, h.ops);
  }

  method WriteFpga(disk: Disk, dir: string, honourBinary: bool, names0: map<string, string>, fpga0: FpgaData)
    returns (names: map<string, string>, fpga: FpgaData, error: Option<string>)
    modifies disk
    ensures var o := StageFpga(dir, honourBinary, names0, fpga0);
            names == o.names && fpga == o.project && error == o.error && disk.log == old(disk.log) + o.ops
  {
    names, fpga, error := WriteFpgaFiles(disk, dir, honourBinary, names0, fpga0);
    if error.Some? {
      return;
    }
    ghost var a := StageFpgaFiles(dir, honourBinary, names0, fpga0);
    names, fpga, error := WriteUcfIsim(disk, dir, honourBinary, names, fpga);
    ghost var b := StageUcfIsim(dir, honourBinary, a.names, a.project);
    assert StageFpga(dir, honourBinary, names0, fpga0) == b.(ops := a.ops + b.ops);
    AppendAssoc(old(disk.log), a.ops, b.ops);
  }

  method WriteFpgaPart(disk: Disk, dir: string, honourBinary: bool, names0: map<string, string>, project0: ProjectData)
    returns (names: map<string, string>, project: ProjectData, error: Option<string>)
    modifies disk
    ensures var o := FpgaPart(dir, honourBinary, names0, project0);
            names == o.names && project == o.project && error == o.error && disk.log == old(disk.log) + o.ops
  {
    names, project, error := names0, project0, None;
    if project.fpga.Some? {
      var fpga;
      names, fpga, error := WriteFpga(disk, dir, honourBinary, names, project.fpga.value);
      project := project.(fpga := Some(fpga));
    }
  }

  /** The MCU part after the FPGA part `f`, with `before` the log as it was before the FPGA part. */
  method WriteMcuPart(disk: Disk, dir: string, honourBinary: bool, names0: map<string, string>, project0: ProjectData,
                      ghost f: DirOutcome<ProjectData>, ghost before: seq<FsOp>)
    returns (names: map<string, string>, project: ProjectData, error: Option<string>)
    requires f.error.None? && f.names == names0 && f.project == project0 && disk.log == before + f.ops
    modifies disk
    ensures var o := McuPart(dir, honourBinary, f);
            names == o.names && project == o.project && error == o.error && disk.log == before + o.ops
  {
    names, project, error := names0, project0, None;
    if project.mcu.Some? {
      var mcu;
      names, mcu, error := WriteMcu(disk, dir, honourBinary, names, project.mcu.value);
      project := project.(mcu := Some(mcu));
      ghost var m := StageMcu(dir, honourBinary, f.names, f.project.mcu.value);
      AppendAssoc(before, f.ops, m.ops);
    }
  }

  method WriteTree(disk: Disk, dir: string, honourBinary: bool, names0: map<string, string>, project0: ProjectData)
    returns (names: map<string, string>, project: ProjectData, error: Option<string>)
    modifies disk
    ensures var o := TreeStaging(dir, honourBinary, names0, project0);
            names == o.names && project == o.project && error == o.error && disk.log == old(disk.log) + o.ops
  {
    names, project, error := WriteFpgaPart(disk, dir, honourBinary, names0, project0);
    ghost var f := FpgaPart(dir, honourBinary, names0, project0);
    if error.Some? {
      return;
    }
    names, project, error := WriteMcuPart(disk, dir, honourBinary, names, project, f, old(disk.log));
    assert TreeStaging(dir, honourBinary, names0, project0) == McuPart(dir, honourBinary, f);
  }

  /** The legacy MCU part after the steps that gave `a`, with `before` the log as it was before them. */
  method WriteLegacyMcuPart(disk: Disk, dir: string, names0: map<string, string>, project0: LegacyProjectData,
                            ghost a: DirOutcome<LegacyProjectData>, ghost before: seq<FsOp>)
    returns (names: map<string, string>, project: LegacyProjectData, error: Option<string>)
    requires a.names == names0 && a.project == project0 && disk.log == before + a.ops
    modifies disk
    ensures var o := LegacyMcuPart(dir, a);
            names == o.names && project == o.project && error == o.error && disk.log == before + o.ops
  {
    var mcu;
    names, mcu, error := WriteMcu(disk, dir, false, names0, project0.mcu);
    project := project0.(mcu := mcu);
    ghost var m := StageMcu(dir, false, a.names, a.project.mcu);
    AppendAssoc(before, a.ops, m.ops);
  }

  /** The legacy UCF part after the steps that gave `m`, with `before` the log as it was before them. */
  method WriteLegacyUcfPart(disk: Disk, dir: string, names0: map<string, string>, project0: LegacyProjectData,
                            ghost m: DirOutcome<LegacyProjectData>, ghost before: seq<FsOp>)
    returns (names: map<string, string>, project: LegacyProjectData, error: Option<string>)
    requires m.names == names0 && m.project == project0 && disk.log == before + m.ops
    modifies disk
    ensures var o := LegacyUcfPart(dir, m);
            names == o.names && project == o.project && error == o.error && disk.log == before + o.ops
  {
    var fpga;
    names, fpga, error := WriteUcfIsim(disk, dir, false, names0, project0.fpga);
    project := project0.(fpga := fpga);
    ghost var u := StageUcfIsim(dir, false, m.names, m.project.fpga);
    AppendAssoc(before, m.ops, u.ops);
  }

  /** The legacy steps after the FPGA files, which gave `a`, with `before` the log as it was before them. */
  method WriteLegacyRest(disk: Disk, dir: string, names0: map<string, string>, project0: LegacyProjectData,
                         ghost a: DirOutcome<LegacyProjectData>, ghost before: seq<FsOp>)
    returns (names: map<string, string>, project: LegacyProjectData, error: Option<string>)
    requires a.names == names0 && a.project == project0 && disk.log == before + a.ops
    modifies disk
    ensures var o := LegacyRest(dir, a);
            names == o.names && project == o.project && error == o.error && disk.log == before + o.ops
  {
    names, project, error := WriteLegacyMcuPart(disk, dir, names0, project0, a, before);
    ghost var m := LegacyMcuPart(dir, a);
    if error.Some? {
      return;
    }
    names, project, error := WriteLegacyUcfPart(disk, dir, names, project, m, before);
  }

  method WriteLegacy(disk: Disk, dir: string, names0: map<string, string>, project0: LegacyProjectData)
    returns (names: map<string, string>, project: LegacyProjectData, error: Option<string>)
    modifies disk
    ensures var o := LegacyStaging(dir, names0, project0);
            names == o.names && project == o.project && error == o.error && disk.log == old(disk.log) + o.ops
  {
    var fpga;
    names, fpga, error := WriteFpgaFiles(disk, dir, false, names0, project0.fpga);
    project := project0.(fpga := fpga);
    ghost var a := LegacyFpgaPart(dir, names0, project0);
    if error.Some? {
      return;
    }
    names, project, error := WriteLegacyRest(disk, dir, names, project, a, old(disk.log));
  }

  method StageAndBuild(disk: Disk, tmp: string, names0: map<string, string>, project0: ProjectData)
    returns (names: map<string, string>, project: ProjectData, error: Option<string>)
    modifies disk
    ensures var o := ConfigBuild(tmp, TreeStaging(tmp, true, names0, project0));
            names == o.names && project == o.project && error == o.error && disk.log == old(disk.log) + o.ops
  {
    names, project, error := WriteTree(disk, tmp, true, names0, project0);
    if error.Some? {
      return;
    }
    ghost var s := TreeStaging(tmp, true, names0, project0);
    project, error := CreateBuildFiles(disk, tmp, project);
    ghost var b := BuildFilesOutcome(tmp, s.project);
    AppendAssoc(old(disk.log), s.ops, b.ops);
  }

  method LegacyStageAndBuild(disk: Disk, baseFolder: string, tmp: string, names0: map<string, string>,
                             project0: LegacyProjectData)
    returns (names: map<string, string>, project: LegacyProjectData, error: Option<string>)
    modifies disk
    ensures var s := LegacyStaging(tmp, names0, project0);
            s.error.Some? ==> names == s.names && project == s.project && error == s.error && disk.log == old(disk.log) + s.ops
    ensures var s := LegacyStaging(tmp, names0, project0);
            var b := LegacyBuildFilesOutcome(baseFolder, tmp, s.project);
            s.error.None? ==> names == s.names && project == b.project && error == None && disk.log == old(disk.log) + s.ops + b.ops
  {
    names, project, error := WriteLegacy(disk, tmp, names0, project0);
    if error.Some? {
      return;
    }
    var ignored;
    project, ignored := CreateLegacyBuildFiles(disk, baseFolder, tmp, project);
  }

  // ---------------------------------------------------------------------
  // the classes

  /** `ProjectFiles` of the job tree: every write is base64. */
  class ProjectFiles {
    /** `mapToOriginalPath`: local name to the client's path. */
    var names: map<string, string>
    /** The job's project, whose file paths are rewritten in place. */
    var project: ProjectData
    var path: Option<string>
    const disk: Disk

    constructor (project: ProjectData, disk: Disk)
      ensures this.names == map[] && this.project == project && this.path == None && this.disk == disk
    {
      this.names := map[];
      this.project := project;
      this.path := None;
      this.disk := disk;
    }

    /** `createDirectory`, given the directory mkdtemp created. */
    method CreateDirectory(tmp: string) returns (r: Result<string, string>)
      modifies this, disk
      ensures var o := JobCreate(old(names), old(project), old(path), tmp);
              names == o.names && project == o.project && path == Some(tmp) &&
              disk.log == old(disk.log) + o.ops && r == Resolved(o, tmp)
    {
      ghost var s := if tmp == "" then DirOutcome(names, project, [], None) else TreeStaging(tmp, false, names, project);
      ghost var head := DeleteOps(path) + [MakeDir(tmp)];
      Delete();
      path := Some(tmp);
      disk.Do(MakeDir(tmp));
      AppendAssoc(old(disk.log), DeleteOps(old(path)), [MakeDir(tmp)]);
      var error := None;
      if tmp != "" {
        names, project, error := WriteTree(disk, tmp, false, names, project);
      }
      r := if error.Some? then Failure(error.value) else Success(tmp);
      AppendAssoc(old(disk.log), head, s.ops);
    }

    /** `delete`: the `rmdir` is not awaited, which the log does not distinguish. */
    method Delete()
      modifies disk
      ensures disk.log == old(disk.log) + DeleteOps(path)
    {
      if path.None? || path.value == "" {
        return;
      }
      disk.Do(RemoveDir(path.value));
    }
  }

  /** `ProjectConfig` of the fitkit2 platform: text files are written as utf8, binary ones as base64. */
  class ProjectConfig {
    var names: map<string, string>
    var project: ProjectData
    var path: Option<string>
    const disk: Disk

    constructor (project: ProjectData, disk: Disk)
      ensures this.names == map[] && this.project == project && this.path == None && this.disk == disk
    {
      this.names := map[];
      this.project := project;
      this.path := None;
      this.disk := disk;
    }

    method CreateDirectory(tmp: string) returns (r: Result<string, string>)
      modifies this, disk
      ensures var o := ConfigCreate(old(names), old(project), old(path), tmp);
              names == o.names && project == o.project && path == Some(tmp) &&
              disk.log == old(disk.log) + o.ops && r == Resolved(o, tmp)
    {
      var names0, project0 := names, project;
      ghost var log0, path0 := disk.log, path;
      ghost var o := ConfigBuild(tmp, TreeStaging(tmp, true, names0, project0));
      ghost var head := DeleteOps(path0) + [MakeDir(tmp)];
      Delete();
      path := Some(tmp);
      disk.Do(MakeDir(tmp));
      AppendAssoc(log0, DeleteOps(path0), [MakeDir(tmp)]);
      var error;
      names, project, error := StageAndBuild(disk, tmp, names0, project0);
      r := if error.Some? then Failure(error.value) else Success(tmp);
      AppendAssoc(log0, head, o.ops);
    }

    method Delete()
      modifies disk
      ensures disk.log == old(disk.log) + DeleteOps(path)
    {
      if path.None? || path.value == "" {
        return;
      }
      disk.Do(RemoveDir(path.value));
    }
  }

  /** The legacy `Project`: every write is base64; `baseFolder` is the configured FITkit folder. */
  class LegacyProject {
    var names: map<string, string>
    var project: LegacyProjectData
    var path: Option<string>
    const disk: Disk

    constructor (project: LegacyProjectData, disk: Disk)
      ensures this.names == map[] && this.project == project && this.path == None && this.disk == disk
    {
      this.names := map[];
      this.project := project;
      this.path := None;
      this.disk := disk;
    }

    method CreateDirectory(baseFolder: string, tmp: string) returns (r: Result<string, string>)
      modifies this, disk
      ensures path == Some(tmp)
      ensures var s := LegacyStaging(tmp, old(names), old(project));
              s.error.Some? ==>
                names == s.names && project == s.project && r == Failure(s.error.value) &&
                disk.log == old(disk.log) + DeleteOps(old(path)) + [MakeDir(tmp)] + s.ops
      ensures var s := LegacyStaging(tmp, old(names), old(project));
              var b := LegacyBuildFilesOutcome(baseFolder, tmp, s.project);
              s.error.None? ==>
                names == s.names && project == b.project && r == Success(tmp) &&
                disk.log == old(disk.log) + DeleteOps(old(path)) + [MakeDir(tmp)] + s.ops + b.ops
    {
      var names0, project0 := names, project;
      ghost var head := disk.log + DeleteOps(path) + [MakeDir(tmp)];
      Delete();
      path := Some(tmp);
      disk.Do(MakeDir(tmp));
      assert disk.log == head;
      var error;
      names, project, error := LegacyStageAndBuild(disk, baseFolder, tmp, names0, project0);
      r := if error.Some? then Failure(error.value) else Success(tmp);
    }

    method Delete()
      modifies disk
      ensures disk.log == old(disk.log) + DeleteOps(path)
    {
      if path.None? || path.value == "" {
        return;
      }
      disk.Do(RemoveDir(path.value));
    }
  }
}

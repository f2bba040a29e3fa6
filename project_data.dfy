/**
 * The project description a client uploads (`ProjectData` of both source
 * trees) and the file-system operations the server performs with it.
 */
module ProjectModel {
  import opened Wrappers

  /**
   * One uploaded file. `binary`, `simOnly` and `library` are optional in
   * the client's JSON; an absent flag is false. The legacy tree has no
   * `binary` flag.
   */
  datatype SourceFile = SourceFile(path: string, content: string, binary: bool, simOnly: bool, library: Option<string>)

  /** The FPGA part of a project. */
  datatype FpgaData = FpgaData(
    files: seq<SourceFile>,
    ucfFile: SourceFile,
    isimFile: Option<SourceFile>,
    chip: string,
    optimization: string,
    topLevelEntity: string,
    library: string,
    usesArchitecture: bool,
    dcmFrequency: string)

  /** The microcontroller part of a project. */
  datatype McuData = McuData(files: seq<SourceFile>, headers: seq<SourceFile>, useMathLib: bool)

  /** A project of the current tree: both parts are optional. */
  datatype ProjectData = ProjectData(fpga: Option<FpgaData>, mcu: Option<McuData>)

  /** A project of the legacy tree (`src/project`): both parts are required. */
  datatype LegacyProjectData = LegacyProjectData(fpga: FpgaData, mcu: McuData)

  /** How `fs.writeFile` decodes the content it is given. */
  datatype Encoding = Base64 | Utf8

  /** A file-system operation, in the order the server issues them. */
  datatype FsOp =
    | MakeDir(path: string)
    | WriteFile(path: string, content: string, encoding: Encoding)
    | RemoveDir(path: string)

  /** The server's file system, seen as the log of the operations issued on it. */
  class Disk {
    var log: seq<FsOp>

    constructor ()
      ensures log == []
    {
      log := [];
    }

    method Do(op: FsOp)
      modifies this
      ensures log == old(log) + [op]
    {
      log := log + [op];
    }
  }

  /**
   * `path.join(a, b)` for the relative, already normalised components the
   * server joins: a `/` between two non-empty parts.
   */
  function PathJoin(a: string, b: string): string
  {
    if a == "" && b == "" then "."
    else if a == "" then b
    else if b == "" then a
    else a + "/" + b
  }
}

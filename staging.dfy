/**
 * Staging the uploaded files into the project directory, the loop shared
 * by `createFpgaFiles`/`createMcuFiles` (src/job/projectFiles.ts),
 * `ProjectConfig.createDirectory` (src/platforms/fitkit2/project-config.ts)
 * and the legacy `Project.CreateDirectory` (src/project/Project.ts).
 *
 * Each file gets a local name: its basename, made fresh by the `stem_i.ext`
 * renaming for FPGA files, or reused as is (overwriting) for the others.
 * The local-name dictionary maps it to the client's original path, the
 * file's `path` is rewritten to the local name and its content is written
 * under the project directory. A path without a separator throws, which
 * ends the loop with the earlier files already staged.
 */
module Staging {
  import opened Wrappers
  import opened JsText
  import opened ProjectModel
  import opened LocalNames

  /** The state the loop leaves: the dictionary, the rewritten files so far, the writes, the error thrown. */
  datatype Staged = Staged(names: map<string, string>, files: seq<SourceFile>, ops: seq<FsOp>, error: Option<string>)

  /** `new Buffer(content, binary ? "base64" : "utf8")` where the binary flag is honoured, base64 otherwise. */
  function EncodingOf(f: SourceFile, honourBinary: bool): Encoding
  {
    if honourBinary && !f.binary then Utf8 else Base64
  }

  /** The local name of a file whose basename is `base`. */
  function LocalName(names: map<string, string>, base: string, renaming: bool): string
  {
    if renaming then FreeName(base, names.Keys) else base
  }

  /** One pass of the loop body: basename, local name, dictionary entry, rewrite and write. */
  function Step(dir: string, honourBinary: bool, renaming: bool, prev: Staged, f: SourceFile): (r: Staged)
    ensures prev.error.Some? ==> r == prev
    ensures prev.error.None? ==> (r.error.None? <==> HasSep(f.path, Separators))
    ensures r.error.Some? ==> r.names == prev.names && r.files == prev.files && r.ops == prev.ops
    ensures r.error.None? ==>
              |r.files| == |prev.files| + 1 && |r.ops| == |prev.ops| + 1 &&
              prev.files <= r.files && prev.ops <= r.ops &&
              r.files[|prev.files|].content == f.content && r.files[|prev.files|].path in r.names &&
              r.names[r.files[|prev.files|].path] == f.path
    ensures r.error.None? && renaming ==> r.files[|prev.files|].path !in prev.names
  {
    if prev.error.Some? then prev
    else
      match CrossPlatformBasename(f.path)
      case Failure(e) => prev.(error := Some(e))
      case Success(base) =>
        var local := LocalName(prev.names, base, renaming);
        Staged(prev.names[local := f.path], prev.files + [f.(path := local)],
               prev.ops + [WriteFile(PathJoin(dir, local), f.content, EncodingOf(f, honourBinary))], None)
  }

  /** The loop over `files`, in order, stopping at the first path without a separator. */
  function StageFiles(dir: string, honourBinary: bool, renaming: bool, names: map<string, string>,
                      files: seq<SourceFile>): (r: Staged)
    ensures |r.files| <= |files| && |r.ops| == |r.files|
    ensures r.error.None? ==> |r.files| == |files|
    ensures r.error.Some? ==> r.error == Some(InvalidPathMessage)
  {
    if files == [] then Staged(names, [], [], None)
    else Step(dir, honourBinary, renaming, StageFiles(dir, honourBinary, renaming, names, files[..|files| - 1]), files[|files| - 1])
  }

  /**
   * What one pass does once the loop is running: it throws exactly for a
   * path without a separator and then changes nothing else; otherwise it
   * adds one rewritten file, one entry and one write. A renamed local name
   * is not yet a key; a plain one is the basename.
   */
  lemma StepEffect(dir: string, honourBinary: bool, renaming: bool, prev: Staged, f: SourceFile)
    requires prev.error.None?
    ensures var r := Step(dir, honourBinary, renaming, prev, f);
            (r.error.None? <==> HasSep(f.path, Separators)) &&
            (r.error.Some? ==> r.names == prev.names && r.files == prev.files && r.ops == prev.ops) &&
            (r.error.None? ==>
              |r.files| == |prev.files| + 1 &&
              var local := r.files[|prev.files|].path;
              r.files == prev.files + [f.(path := local)] &&
              r.names == prev.names[local := f.path] &&
              r.ops == prev.ops + [WriteFile(PathJoin(dir, local), f.content, EncodingOf(f, honourBinary))] &&
              (renaming ==> local !in prev.names) &&
              (!renaming ==> CrossPlatformBasename(f.path) == Success(local)))
  {
  }

  /** The files of the data after the loop: the staged ones rewritten, the rest as they were. */
  function Rewritten(files: seq<SourceFile>, staged: Staged): seq<SourceFile>
    requires |staged.files| <= |files|
  {
    staged.files + files[|staged.files|..]
  }

  /** Once the loop has thrown, the later files change nothing. */
  lemma {:induction false} ErrorSticks(dir: string, honourBinary: bool, renaming: bool, names: map<string, string>,
                                      files: seq<SourceFile>, k: nat)
    requires k <= |files|
    requires StageFiles(dir, honourBinary, renaming, names, files[..k]).error.Some?
    ensures StageFiles(dir, honourBinary, renaming, names, files) == StageFiles(dir, honourBinary, renaming, names, files[..k])
    decreases |files| - k
  {
    if k < |files| {
      assert files[..|files| - 1][..k] == files[..k];
      ErrorSticks(dir, honourBinary, renaming, names, files[..|files| - 1], k);
    } else {
      assert files[..k] == files;
    }
  }

  /**
   * The loop throws exactly when some path has no separator, and then at
   * the first such path: all earlier files are staged, none later.
   */
  lemma {:induction false} StageFilesError(dir: string, honourBinary: bool, renaming: bool, names: map<string, string>,
                                          files: seq<SourceFile>)
    ensures var r := StageFiles(dir, honourBinary, renaming, names, files);
            (r.error.None? <==> forall i :: 0 <= i < |files| ==> HasSep(files[i].path, Separators)) &&
            (r.error.Some? ==> |r.files| < |files| && !HasSep(files[|r.files|].path, Separators) &&
                               forall i :: 0 <= i < |r.files| ==> HasSep(files[i].path, Separators))
  {
    if files != [] {
      var init := files[..|files| - 1];
      StageFilesError(dir, honourBinary, renaming, names, init);
      StageFilesSnoc(dir, honourBinary, renaming, names, files);
      ErrorStep(dir, honourBinary, renaming, init, files[|files| - 1],
                StageFiles(dir, honourBinary, renaming, names, init), StageFiles(dir, honourBinary, renaming, names, files));
    }
  }

  lemma ErrorStep(dir: string, honourBinary: bool, renaming: bool, init: seq<SourceFile>, last: SourceFile,
                  prev: Staged, r: Staged)
    requires SnocStep(dir, honourBinary, renaming, init, last, prev, r)
    requires (prev.error.None? <==> forall i :: 0 <= i < |init| ==> HasSep(init[i].path, Separators)) &&
             (prev.error.Some? ==> |prev.files| < |init| && !HasSep(init[|prev.files|].path, Separators) &&
                                   forall i :: 0 <= i < |prev.files| ==> HasSep(init[i].path, Separators))
    ensures var files := init + [last];
            (r.error.None? <==> forall i :: 0 <= i < |files| ==> HasSep(files[i].path, Separators)) &&
            (r.error.Some? ==> |r.files| < |files| && !HasSep(files[|r.files|].path, Separators) &&
                               forall i :: 0 <= i < |r.files| ==> HasSep(files[i].path, Separators))
  {
    var files := init + [last];
    assert files[|init|] == last;
    forall i | 0 <= i < |init|
      ensures files[i] == init[i]
    {
    }
    if r.error.Some? {
      assert r.files == prev.files;
      if prev.error.Some? {
        assert files[|prev.files|] == init[|prev.files|];
      } else {
        assert |prev.files| == |init| && !HasSep(last.path, Separators);
      }
    }
  }

  /**
   * How the state after one more file relates to the state before it: a
   * throw keeps the dictionary, the files and the writes; otherwise one
   * rewritten file, one entry and one write are added, under a fresh local
   * name when renaming and under the basename otherwise.
   */
  ghost predicate SnocStep(dir: string, honourBinary: bool, renaming: bool, init: seq<SourceFile>, last: SourceFile,
                           prev: Staged, r: Staged)
  {
    |prev.files| <= |init| && |prev.ops| == |prev.files| &&
    (prev.error.Some? ==> r.error.Some?) &&
    (prev.error.None? ==> |prev.files| == |init| && (r.error.None? <==> HasSep(last.path, Separators))) &&
    (r.error.Some? ==> r.names == prev.names && r.files == prev.files && r.ops == prev.ops) &&
    (r.error.None? ==>
       prev.error.None? && |prev.files| == |init| && |r.files| == |prev.files| + 1 &&
       var local := r.files[|prev.files|].path;
       r.files == prev.files + [last.(path := local)] && r.names == prev.names[local := last.path] &&
       r.ops == prev.ops + [WriteFile(PathJoin(dir, local), last.content, EncodingOf(last, honourBinary))] &&
       (renaming ==> local !in prev.names) && (!renaming ==> CrossPlatformBasename(last.path) == Success(local)))
  }

  /** The loop over a non-empty list is the loop over all but its last file, then one more step. */
  lemma StageFilesSnoc(dir: string, honourBinary: bool, renaming: bool, names: map<string, string>,
                       files: seq<SourceFile>)
    requires files != []
    ensures files == files[..|files| - 1] + [files[|files| - 1]]
    ensures SnocStep(dir, honourBinary, renaming, files[..|files| - 1], files[|files| - 1],
                     StageFiles(dir, honourBinary, renaming, names, files[..|files| - 1]),
                     StageFiles(dir, honourBinary, renaming, names, files))
  {
    var init := files[..|files| - 1];
    var last := files[|files| - 1];
    var prev := StageFiles(dir, honourBinary, renaming, names, init);
    assert StageFiles(dir, honourBinary, renaming, names, files) == Step(dir, honourBinary, renaming, prev, last);
    StepSnoc(dir, honourBinary, renaming, init, last, prev);
  }

  /** `Step` relates the states as `SnocStep` says. */
  lemma StepSnoc(dir: string, honourBinary: bool, renaming: bool, init: seq<SourceFile>, last: SourceFile, prev: Staged)
    requires |prev.files| <= |init| && |prev.ops| == |prev.files|
    requires prev.error.None? ==> |prev.files| == |init|
    ensures SnocStep(dir, honourBinary, renaming, init, last, prev, Step(dir, honourBinary, renaming, prev, last))
  {
    if prev.error.None? {
      StepEffect(dir, honourBinary, renaming, prev, last);
    }
  }

  /**
   * Each staged file is the input file with its path replaced by its local
   * name and written under the project directory; a plain (non-renaming)
   * local name is the basename.
   */
  lemma {:induction false} StageFilesRewrite(dir: string, honourBinary: bool, renaming: bool, names: map<string, string>,
                                            files: seq<SourceFile>)
    ensures var r := StageFiles(dir, honourBinary, renaming, names, files);
            forall i :: 0 <= i < |r.files| ==>
              r.files[i] == files[i].(path := r.files[i].path) &&
              r.ops[i] == WriteFile(PathJoin(dir, r.files[i].path), files[i].content, EncodingOf(files[i], honourBinary)) &&
              (!renaming ==> CrossPlatformBasename(files[i].path) == Success(r.files[i].path))
  {
    if files != [] {
      var init := files[..|files| - 1];
      StageFilesRewrite(dir, honourBinary, renaming, names, init);
      StageFilesSnoc(dir, honourBinary, renaming, names, files);
      RewriteStep(dir, honourBinary, renaming, init, files[|files| - 1],
                  StageFiles(dir, honourBinary, renaming, names, init), StageFiles(dir, honourBinary, renaming, names, files));
    }
  }

  lemma RewriteStep(dir: string, honourBinary: bool, renaming: bool, init: seq<SourceFile>, last: SourceFile,
                    prev: Staged, r: Staged)
    requires SnocStep(dir, honourBinary, renaming, init, last, prev, r)
    requires forall i :: 0 <= i < |prev.files| ==>
               prev.files[i] == init[i].(path := prev.files[i].path) &&
               prev.ops[i] == WriteFile(PathJoin(dir, prev.files[i].path), init[i].content, EncodingOf(init[i], honourBinary)) &&
               (!renaming ==> CrossPlatformBasename(init[i].path) == Success(prev.files[i].path))
    ensures var files := init + [last];
            forall i :: 0 <= i < |r.files| ==>
              r.files[i] == files[i].(path := r.files[i].path) &&
              r.ops[i] == WriteFile(PathJoin(dir, r.files[i].path), files[i].content, EncodingOf(files[i], honourBinary)) &&
              (!renaming ==> CrossPlatformBasename(files[i].path) == Success(r.files[i].path))
  {
    var files := init + [last];
    forall i | 0 <= i < |r.files|
      ensures r.files[i] == files[i].(path := r.files[i].path)
      ensures r.ops[i] == WriteFile(PathJoin(dir, r.files[i].path), files[i].content, EncodingOf(files[i], honourBinary))
      ensures !renaming ==> CrossPlatformBasename(files[i].path) == Success(r.files[i].path)
    {
      if i < |prev.files| {
        assert r.files[i] == prev.files[i] && r.ops[i] == prev.ops[i] && files[i] == init[i];
      } else {
        assert files[i] == last;
      }
    }
  }

  /**
   * Each local name is a key after the loop, and it maps to its file's
   * original path unless a later file of the same loop took the same name.
   */
  lemma {:induction false} StageFilesLastWins(dir: string, honourBinary: bool, renaming: bool, names: map<string, string>,
                                             files: seq<SourceFile>)
    ensures var r := StageFiles(dir, honourBinary, renaming, names, files);
            forall i :: 0 <= i < |r.files| ==>
              r.files[i].path in r.names &&
              ((forall j :: i < j < |r.files| ==> r.files[j].path != r.files[i].path) ==> r.names[r.files[i].path] == files[i].path)
  {
    if files != [] {
      var init := files[..|files| - 1];
      StageFilesLastWins(dir, honourBinary, renaming, names, init);
      StageFilesSnoc(dir, honourBinary, renaming, names, files);
      LastWinsStep(dir, honourBinary, renaming, init, files[|files| - 1],
                   StageFiles(dir, honourBinary, renaming, names, init), StageFiles(dir, honourBinary, renaming, names, files));
    }
  }

  lemma LastWinsStep(dir: string, honourBinary: bool, renaming: bool, init: seq<SourceFile>, last: SourceFile,
                     prev: Staged, r: Staged)
    requires SnocStep(dir, honourBinary, renaming, init, last, prev, r)
    requires forall i :: 0 <= i < |prev.files| ==>
               prev.files[i].path in prev.names &&
               ((forall j :: i < j < |prev.files| ==> prev.files[j].path != prev.files[i].path) ==> prev.names[prev.files[i].path] == init[i].path)
    ensures var files := init + [last];
            forall i :: 0 <= i < |r.files| ==>
              r.files[i].path in r.names &&
              ((forall j :: i < j < |r.files| ==> r.files[j].path != r.files[i].path) ==> r.names[r.files[i].path] == files[i].path)
  {
    var files := init + [last];
    forall i | 0 <= i < |r.files|
      ensures r.files[i].path in r.names
      ensures (forall j :: i < j < |r.files| ==> r.files[j].path != r.files[i].path) ==> r.names[r.files[i].path] == files[i].path
    {
      if i < |prev.files| {
        assert r.files[i] == prev.files[i] && files[i] == init[i];
        if forall j :: i < j < |r.files| ==> r.files[j].path != r.files[i].path {
          if r.error.None? {
            assert r.files[|prev.files|].path != r.files[i].path;
          }
          forall j | i < j < |prev.files|
            ensures prev.files[j].path != prev.files[i].path
          {
            assert r.files[j] == prev.files[j];
          }
        }
      } else {
        assert files[i] == last;
      }
    }
  }

  /**
   * The keys after the loop are the keys before plus the local names; an
   * entry whose key no file took keeps its value.
   */
  lemma {:induction false} StageFilesKeys(dir: string, honourBinary: bool, renaming: bool, names: map<string, string>,
                                         files: seq<SourceFile>)
    ensures var r := StageFiles(dir, honourBinary, renaming, names, files);
            forall k :: k in r.names <==> k in names || exists i :: 0 <= i < |r.files| && r.files[i].path == k
    ensures var r := StageFiles(dir, honourBinary, renaming, names, files);
            forall k :: k in names && (forall i :: 0 <= i < |r.files| ==> r.files[i].path != k) ==> r.names[k] == names[k]
  {
    if files != [] {
      var init := files[..|files| - 1];
      StageFilesKeys(dir, honourBinary, renaming, names, init);
      StageFilesSnoc(dir, honourBinary, renaming, names, files);
      KeysStep(dir, honourBinary, renaming, names, init, files[|files| - 1],
               StageFiles(dir, honourBinary, renaming, names, init), StageFiles(dir, honourBinary, renaming, names, files));
    }
  }

  lemma KeysStep(dir: string, honourBinary: bool, renaming: bool, names: map<string, string>,
                 init: seq<SourceFile>, last: SourceFile, prev: Staged, r: Staged)
    requires SnocStep(dir, honourBinary, renaming, init, last, prev, r)
    requires forall k :: k in prev.names <==> k in names || exists i :: 0 <= i < |prev.files| && prev.files[i].path == k
    requires forall k :: k in names && (forall i :: 0 <= i < |prev.files| ==> prev.files[i].path != k) ==> prev.names[k] == names[k]
    ensures forall k :: k in r.names <==> k in names || exists i :: 0 <= i < |r.files| && r.files[i].path == k
    ensures forall k :: k in names && (forall i :: 0 <= i < |r.files| ==> r.files[i].path != k) ==> r.names[k] == names[k]
  {
    if r.error.None? {
      forall k | k in r.names
        ensures k in names || exists i :: 0 <= i < |r.files| && r.files[i].path == k
      {
        if k !in prev.names {
          assert r.files[|prev.files|].path == k;
        } else if k !in names {
          var i :| 0 <= i < |prev.files| && prev.files[i].path == k;
          assert r.files[i] == prev.files[i];
        }
      }
      forall k | k in names || exists i :: 0 <= i < |r.files| && r.files[i].path == k
        ensures k in r.names
      {
        if k !in names {
          var i :| 0 <= i < |r.files| && r.files[i].path == k;
          if i < |prev.files| {
            assert prev.files[i] == r.files[i];
          }
        }
      }
      forall k | k in names && (forall i :: 0 <= i < |r.files| ==> r.files[i].path != k)
        ensures r.names[k] == names[k]
      {
        assert r.files[|prev.files|].path != k;
        forall i | 0 <= i < |prev.files|
          ensures prev.files[i].path != k
        {
          assert prev.files[i] == r.files[i];
        }
      }
    }
  }

  /**
   * With renaming, every local name is new: not a key before the loop and
   * different from every other local name of the loop.
   */
  lemma {:induction false} FreshLocalNames(dir: string, honourBinary: bool, names: map<string, string>,
                                           files: seq<SourceFile>)
    ensures var r := StageFiles(dir, honourBinary, true, names, files);
            (forall i :: 0 <= i < |r.files| ==> r.files[i].path !in names) &&
            (forall i, j :: 0 <= i < j < |r.files| ==> r.files[i].path != r.files[j].path)
  {
    if files != [] {
      var init := files[..|files| - 1];
      FreshLocalNames(dir, honourBinary, names, init);
      StageFilesLastWins(dir, honourBinary, true, names, init);
      StageFilesKeys(dir, honourBinary, true, names, init);
      StageFilesSnoc(dir, honourBinary, true, names, files);
      FreshStep(dir, honourBinary, names, init, files[|files| - 1],
                StageFiles(dir, honourBinary, true, names, init), StageFiles(dir, honourBinary, true, names, files));
    }
  }

  lemma FreshStep(dir: string, honourBinary: bool, names: map<string, string>, init: seq<SourceFile>, last: SourceFile,
                  prev: Staged, r: Staged)
    requires SnocStep(dir, honourBinary, true, init, last, prev, r)
    requires forall k :: k in names ==> k in prev.names
    requires forall i :: 0 <= i < |prev.files| ==> prev.files[i].path in prev.names
    requires forall i :: 0 <= i < |prev.files| ==> prev.files[i].path !in names
    requires forall i, j :: 0 <= i < j < |prev.files| ==> prev.files[i].path != prev.files[j].path
    ensures forall i :: 0 <= i < |r.files| ==> r.files[i].path !in names
    ensures forall i, j :: 0 <= i < j < |r.files| ==> r.files[i].path != r.files[j].path
  {
    if r.error.None? {
      var local := r.files[|prev.files|].path;
      assert local !in names;
      forall i | 0 <= i < |prev.files|
        ensures r.files[i] == prev.files[i] && prev.files[i].path != local
      {
        assert prev.files[i].path in prev.names;
      }
    }
  }

  /** With renaming the dictionary grows by exactly one entry per staged file. */
  lemma {:induction false} FreshNamesGrow(dir: string, honourBinary: bool, names: map<string, string>,
                                          files: seq<SourceFile>)
    ensures var r := StageFiles(dir, honourBinary, true, names, files);
            |r.names| == |names| + |r.files|
  {
    if files != [] {
      var init := files[..|files| - 1];
      var prev := StageFiles(dir, honourBinary, true, names, init);
      var r := StageFiles(dir, honourBinary, true, names, files);
      FreshNamesGrow(dir, honourBinary, names, init);
      StageFilesSnoc(dir, honourBinary, true, names, files);
      if r.error.None? {
        var local := r.files[|prev.files|].path;
        assert r.names.Keys == prev.names.Keys + {local};
      }
    }
  }

  /**
   * With renaming no entry is overwritten: every earlier entry keeps its
   * value and each local name maps to its own file's original path.
   */
  lemma FreshNamesNeverOverwrite(dir: string, honourBinary: bool, names: map<string, string>,
                                 files: seq<SourceFile>)
    ensures var r := StageFiles(dir, honourBinary, true, names, files);
            (forall k :: k in names ==> k in r.names && r.names[k] == names[k]) &&
            (forall i :: 0 <= i < |r.files| ==> r.files[i].path in r.names && r.names[r.files[i].path] == files[i].path)
  {
    FreshLocalNames(dir, honourBinary, names, files);
    StageFilesKeys(dir, honourBinary, true, names, files);
    StageFilesLastWins(dir, honourBinary, true, names, files);
  }

  /** The renaming loop of the three staging classes. */
  method StageLoop(disk: Disk, dir: string, honourBinary: bool, renaming: bool, names0: map<string, string>,
                   files: seq<SourceFile>)
    returns (names: map<string, string>, staged: seq<SourceFile>, error: Option<string>)
    modifies disk
    ensures var r := StageFiles(dir, honourBinary, renaming, names0, files);
            names == r.names && staged == r.files && error == r.error && disk.log == old(disk.log) + r.ops
  {
    names, staged, error := names0, [], None;
    var i := 0;
    ghost var acc := StageFiles(dir, honourBinary, renaming, names0, []);
    ghost var before := disk.log;
    assert files[..0] == [];
    while i < |files| && error.None?
      invariant 0 <= i <= |files|
      invariant acc == StageFiles(dir, honourBinary, renaming, names0, files[..i])
      invariant names == acc.names && staged == acc.files && error == acc.error && disk.log == before + acc.ops
    {
      LoopTurn(dir, honourBinary, renaming, names0, files, i);
      names, staged, error := StageOne(disk, dir, honourBinary, renaming, names, staged, files[i], acc, before);
      acc := Step(dir, honourBinary, renaming, acc, files[i]);
      i := i + 1;
    }
    if error.Some? {
      ErrorSticks(dir, honourBinary, renaming, names0, files, i);
    } else {
      assert files[..|files|] == files;
    }
  }

  /** One pass of the loop body, against `Step` on the state `prev` the loop has reached. */
  method StageOne(disk: Disk, dir: string, honourBinary: bool, renaming: bool, names: map<string, string>,
                  staged: seq<SourceFile>, f: SourceFile, ghost prev: Staged, ghost before: seq<FsOp>)
    returns (names': map<string, string>, staged': seq<SourceFile>, error: Option<string>)
    requires prev.error.None? && prev.names == names && prev.files == staged && disk.log == before + prev.ops
    modifies disk
    ensures var r := Step(dir, honourBinary, renaming, prev, f);
            names' == r.names && staged' == r.files && error == r.error && disk.log == before + r.ops
  {
    var base := CrossPlatformBasename(f.path);
    if base.Failure? {
      StepFails(dir, honourBinary, renaming, prev, f, base.error);
      return names, staged, Some(base.error);
    }
    var local := base.value;
    if renaming {
      local := PickLocalName(base.value, names.Keys);
    }
    var op := WriteFile(PathJoin(dir, local), f.content, if honourBinary && !f.binary then Utf8 else Base64);
    StepSucceeds(dir, honourBinary, renaming, prev, f, base.value, local, op);
    names', staged', error := names[local := f.path], staged + [f.(path := local)], None;
    disk.Do(op);
  }

  /** A step on a path with a separator, spelled out. */
  lemma StepSucceeds(dir: string, honourBinary: bool, renaming: bool, prev: Staged, f: SourceFile, base: string,
                     local: string, op: FsOp)
    requires prev.error.None? && CrossPlatformBasename(f.path) == Success(base)
    requires local == LocalName(prev.names, base, renaming)
    requires op == WriteFile(PathJoin(dir, local), f.content, if honourBinary && !f.binary then Utf8 else Base64)
    ensures Step(dir, honourBinary, renaming, prev, f) == Staged(prev.names[local := f.path], prev.files + [f.(path := local)], prev.ops + [op], None)
  {
  }

  /** A step on a path without a separator only records the error. */
  lemma StepFails(dir: string, honourBinary: bool, renaming: bool, prev: Staged, f: SourceFile, e: string)
    requires prev.error.None? && CrossPlatformBasename(f.path) == Failure(e)
    ensures Step(dir, honourBinary, renaming, prev, f) == prev.(error := Some(e))
  {
  }

  /** The loop over one more file is one more step. */
  lemma LoopTurn(dir: string, honourBinary: bool, renaming: bool, names: map<string, string>,
                 files: seq<SourceFile>, i: nat)
    requires i < |files|
    ensures StageFiles(dir, honourBinary, renaming, names, files[..i + 1])
         == Step(dir, honourBinary, renaming, StageFiles(dir, honourBinary, renaming, names, files[..i]), files[i])
  {
    assert files[..i + 1][..i] == files[..i];
  }

  /** The isim file is keyed by the joined full path `<dir>/isim.tcl`, mapped to its original path. */
  function IsimKey(dir: string): string
  {
    PathJoin(dir, "isim.tcl")
  }

  /**
   * The UCF step: one plain staging step. Returns the dictionary, the UCF
   * file with its path rewritten (unchanged on error), the write and the
   * error.
   */
  function StageUcf(dir: string, honourBinary: bool, names: map<string, string>, ucf: SourceFile): (r: Staged)
    ensures r.error.None? ==> |r.files| == 1
  {
    StageFiles(dir, honourBinary, false, names, [ucf])
  }
}

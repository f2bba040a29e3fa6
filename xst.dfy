/**
 * The XST synthesis script `project.xst` (`createXstFile` in
 * src/platforms/fitkit2/build-files/xst.ts and its legacy twin `CreateXst`
 * in src/project/buildfiles/Xst.ts).
 */
module XstFiles {
  import opened Wrappers
  import opened JsText
  import opened ProjectModel

  function OptimizationError(optimization: string): string
  {
    "Optimization value must be in format TARGET:LEVEL, e.g. speed:1 (got: " + optimization + ")"
  }

  /**
   * `optimization.split(":")` must give exactly two parts, the optimisation
   * mode and the level.
   */
  function OptimizationParts(optimization: string): (r: Result<(string, string), string>)
    ensures r.Success? <==> CountSeps(optimization, {':'}) == 1
    ensures r.Failure? ==> r.error == OptimizationError(optimization)
    ensures r.Success? ==>
      optimization == r.value.0 + ":" + r.value.1 && !HasSep(r.value.0, {':'}) && !HasSep(r.value.1, {':'})
  {
    var opt := Split(optimization, {':'});
    SplitCount(optimization, {':'});
    if |opt| != 2 then Failure(OptimizationError(optimization))
    else
      JoinSplit(optimization, ':');
      SplitPiecesHaveNoSep(optimization, {':'});
      assert Join(opt, ":") == opt[0] + ":" + Join(opt[1..], ":");
      Success((opt[0], opt[1]))
  }

  const XstFirstLine: string := "set -tmpdir build/fpga -xsthdpdir build/fpga"

  /** The `run` line: mode, level, chip and top-level entity interpolated, the rest fixed. */
  function XstRunLine(mode: string, level: string, chip: string, top: string): string
  {
    RunInput + mode + " -opt_level " + level + RunOutput + chip + " -top " + top + " -rtlview yes"
  }

  const RunInput: string := "run -ifn build/fpga/project.prj -ifmt mixed -opt_mode "
  const RunOutput: string := " -ofn build/fpga/project.ngc -ofmt NGC -lso build/fpga/project.lso -p "

  /** The script text, or the optimisation format error. */
  function XstContent(fpga: FpgaData): (r: Result<string, string>)
    ensures r.Failure? <==> CountSeps(fpga.optimization, {':'}) != 1
    ensures r.Failure? ==> r.error == OptimizationError(fpga.optimization)
  {
    match OptimizationParts(fpga.optimization)
    case Failure(e) => Failure(e)
    case Success(opt) => Success(Lines([XstFirstLine, XstRunLine(opt.0, opt.1, fpga.chip, fpga.topLevelEntity)]))
  }

  /** A `mode:level` value written by a client reaches the script as its two parts. */
  lemma OptimizationRoundTrip(mode: string, level: string)
    requires !HasSep(mode, {':'}) && !HasSep(level, {':'})
    ensures OptimizationParts(mode + ":" + level) == Success((mode, level))
  {
    SplitAfterPiece(mode, ':', level, {':'});
    SplitSeveralIffSep(level, {':'});
    SplitSingle(level, {':'});
    assert Split(mode + ":" + level, {':'}) == [mode, level];
  }

  /**
   * The script has exactly two newline-terminated lines: the fixed first
   * line and the run line carrying the optimisation parts, the chip and
   * the top-level entity.
   */
  lemma XstReadsBack(fpga: FpgaData, mode: string, level: string)
    requires fpga.optimization == mode + ":" + level
    requires !HasSep(mode, {':'}) && !HasSep(level, {':'})
    requires !HasSep(XstRunLine(mode, level, fpga.chip, fpga.topLevelEntity), {'\n'})
    ensures XstContent(fpga).Success?
    ensures Split(XstContent(fpga).value, {'\n'})
         == [XstFirstLine, XstRunLine(mode, level, fpga.chip, fpga.topLevelEntity), ""]
  {
    OptimizationRoundTrip(mode, level);
    var run := XstRunLine(mode, level, fpga.chip, fpga.topLevelEntity);
    FirstLineIsOneLine();
    TwoLinesReadBack(XstFirstLine, run);
    assert XstContent(fpga) == Success(Lines([XstFirstLine, run]));
  }

  /** Two newline-free lines, each newline-terminated, split back into themselves and an empty piece. */
  lemma TwoLinesReadBack(a: string, b: string)
    requires !HasSep(a, {'\n'}) && !HasSep(b, {'\n'})
    ensures Split(Lines([a, b]), {'\n'}) == [a, b, ""]
  {
    var ls := [a, b];
    assert NoNewline(ls) by {
      forall i | 0 <= i < |ls| ensures !HasSep(ls[i], {'\n'}) {
        assert ls[i] == a || ls[i] == b;
      }
    }
    SplitLines(ls, "");
    assert Lines(ls) + "" == Lines(ls);
    assert Split("", {'\n'}) == [""];
  }

  lemma FirstLineIsOneLine()
    ensures !HasSep(XstFirstLine, {'\n'})
  {
    forall i | 0 <= i < |XstFirstLine|
      ensures XstFirstLine[i] !in {'\n'}
    {
    }
  }
}

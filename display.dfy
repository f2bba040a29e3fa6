/**
 * The virtual X11 display session (TigerVNC) of src/job/display.ts; the
 * legacy twin src/simulation/Display.ts has the same logic under PascalCase
 * names. The display learns its number from the server's fd 3, registers a
 * noVNC token through a helper script, announces `ready(number)`, and
 * unlinks the token file when the server process closes.
 *
 * Each callback (fd 3 data, helper completion, process close, terminate)
 * is one atomic step on a `DisplayState`, returning the effects it causes.
 */
module VncDisplay {
  import opened Wrappers
  import opened JsText

  /** First VNC port; display n is served on `BasePort + n`. */
  const BasePort: int := 5900

  /** Hex digits of `randomBytes(48).toString("hex")`. */
  const TokenLength: nat := 96

  predicate IsHexToken(t: string)
  {
    |t| == TokenLength && forall i :: 0 <= i < |t| ==> ('0' <= t[i] <= '9' || 'a' <= t[i] <= 'f')
  }

  datatype DisplayState = DisplayState(
    token: string,
    number: Option<JsNumber>,
    tokenFile: Option<string>,
    /** `process.killed`: a signal was delivered by `kill`. */
    killed: bool,
    /** The server process has exited (its handle is gone, `kill` delivers nothing). */
    exited: bool,
    /** Token-helper runs started and not yet completed. */
    helpersRunning: nat)

  datatype DisplayEffect =
    | RunTokenHelper(tokenFolder: string, token: string, port: string)
    | Ready(number: JsNumber)
    | UnlinkTokenFile(path: string)
    | UnlinkFailed(path: string)
    | Close(code: Option<int>)
    | Sigterm

  datatype Step = Step(state: DisplayState, effects: seq<DisplayEffect>)

  /** Every started helper run belongs to a known display number. */
  predicate Consistent(s: DisplayState)
  {
    s.helpersRunning > 0 ==> s.number.Some?
  }

  /** A freshly spawned server: no number, no token file. */
  function Initial(token: string): (s: DisplayState)
    requires IsHexToken(token)
    ensures Consistent(s) && s.token == token && s.number.None? && s.tokenFile.None?
    ensures !s.killed && !s.exited && s.helpersRunning == 0
  {
    DisplayState(token, None, None, false, false, 0)
  }

  /**
   * The number check of the fd 3 handler: the trimmed text is accepted
   * exactly when it is the JavaScript rendering of its own `parseInt`
   * value: a canonical decimal integer, or the text "NaN".
   */
  function AcceptNumber(raw: string): (r: Option<JsNumber>)
    ensures r.Some? <==> (Trim(raw) == "NaN" || IsCanonicalInt(Trim(raw)))
    ensures r.Some? ==> NumberToString(r.value) == Trim(raw)
    ensures IsCanonicalInt(Trim(raw)) ==> r.Some? && r.value.Num? && IntToString(r.value.i) == Trim(raw)
  {
    var t := Trim(raw);
    var n := ParseInt(t);
    ParseRenderRoundTrip(t);
    if NumberToString(n) != t then None else Some(n)
  }

  /** The `port` getter: undefined until the number is known, then base port plus number. */
  function PortOf(number: Option<JsNumber>): (r: Option<JsNumber>)
    ensures r.None? <==> number.None?
    ensures number.Some? && number.value.Num? ==> r == Some(Num(BasePort + number.value.i))
    ensures number == Some(NaN) ==> r == Some(NaN)
  {
    match number
    case None => None
    case Some(n) => Some(AddNumber(BasePort, n))
  }

  /** Data on fd 3: an accepted number is stored and the token helper is started. */
  function OnData(s: DisplayState, tokenFolder: string, raw: string): (r: Step)
    ensures r.state.token == s.token && r.state.tokenFile == s.tokenFile
    ensures r.state.killed == s.killed && r.state.exited == s.exited
    ensures AcceptNumber(raw).None? ==> r == Step(s, [])
    ensures AcceptNumber(raw).Some? ==>
      r.state.number == AcceptNumber(raw) && r.state.helpersRunning == s.helpersRunning + 1 &&
      |r.effects| == 1 && r.effects[0].RunTokenHelper? && r.effects[0].token == s.token &&
      r.effects[0].tokenFolder == tokenFolder
    ensures Consistent(s) ==> Consistent(r.state)
  {
    match AcceptNumber(raw)
    case None => Step(s, [])
    case Some(n) =>
      var port := PortOf(Some(n)).value;
      Step(s.(number := Some(n), helpersRunning := s.helpersRunning + 1),
           [RunTokenHelper(tokenFolder, s.token, NumberToString(port))])
  }

  /** The token helper finished: record its trimmed output as the token file and announce the number. */
  function OnHelperDone(s: DisplayState, stdout: string): (r: Step)
    requires Consistent(s) && s.helpersRunning > 0
    ensures Consistent(r.state) && r.state.number == s.number && r.state.token == s.token
    ensures r.state.killed == s.killed && r.state.exited == s.exited
    ensures r.state.helpersRunning < s.helpersRunning
    ensures r.state.tokenFile == Some(Trim(stdout))
    ensures r.effects == [Ready(s.number.value)]
  {
    Step(s.(tokenFile := Some(Trim(stdout)), helpersRunning := s.helpersRunning - 1), [Ready(s.number.value)])
  }

  /** The server process closed: unlink a token file if one is recorded, then always report the close. */
  function OnClose(s: DisplayState, code: Option<int>, unlinkFails: bool): (r: Step)
    ensures r.state.exited && r.state.killed == s.killed && r.state.number == s.number
    ensures 1 <= |r.effects| <= 3 && r.effects[|r.effects| - 1] == Close(code)
    ensures |r.effects| > 1 <==> s.tokenFile.Some? && s.tokenFile.value != ""
    ensures |r.effects| > 1 ==> r.effects[0] == UnlinkTokenFile(s.tokenFile.value)
    ensures |r.effects| == 3 <==> |r.effects| > 1 && unlinkFails
    ensures forall i :: 0 <= i < |r.effects| ==> !r.effects[i].Sigterm? && !r.effects[i].Ready?
  {
    var unlink :=
      if s.tokenFile.Some? && s.tokenFile.value != "" then
        [UnlinkTokenFile(s.tokenFile.value)] + (if unlinkFails then [UnlinkFailed(s.tokenFile.value)] else [])
      else [];
    Step(s.(exited := true), unlink + [Close(code)])
  }

  /**
   * `terminate()`: SIGTERM unless a signal was already delivered. `Sigterm`
   * stands for a signal actually delivered to the live server: the source
   * still calls `kill('SIGTERM')` after the process has exited, but that
   * call delivers nothing, so no effect is recorded for it. (The build and
   * simulation registries log the `kill()` call itself instead.)
   */
  function OnTerminate(s: DisplayState): (r: Step)
    ensures r.state.number == s.number && r.state.tokenFile == s.tokenFile && r.state.exited == s.exited
    ensures r.state.killed == (s.killed || !s.exited)
    ensures r.effects == (if s.killed || s.exited then [] else [Sigterm])
  {
    if s.killed then Step(s, [])
    else if s.exited then Step(s, [])
    else Step(s.(killed := true), [Sigterm])
  }

  // ---------------------------------------------------------------------
  // properties of single steps

  /** An accepted number starts the helper with the port base + number, as decimal text. */
  lemma HelperGetsPort(s: DisplayState, tokenFolder: string, raw: string, i: int)
    requires AcceptNumber(raw) == Some(Num(i))
    ensures OnData(s, tokenFolder, raw).effects == [RunTokenHelper(tokenFolder, s.token, IntToString(BasePort + i))]
    ensures OnData(s, tokenFolder, raw).state.number == Some(Num(i))
    ensures IntToString(i) == Trim(raw)
  {
  }

  /** Rejected data leaves the display as it was. */
  lemma RejectedDataIgnored(s: DisplayState, tokenFolder: string, raw: string)
    requires !(Trim(raw) == "NaN" || IsCanonicalInt(Trim(raw)))
    ensures OnData(s, tokenFolder, raw) == Step(s, [])
  {
  }

  /** A second terminate does nothing. */
  lemma TerminateIdempotent(s: DisplayState)
    ensures var t := OnTerminate(s).state; OnTerminate(t) == Step(t, [])
  {
  }

  /** Closing always ends with `close(code)`, and unlinks exactly when a token file is recorded. */
  lemma CloseAlwaysReported(s: DisplayState, code: Option<int>, unlinkFails: bool)
    ensures var e := OnClose(s, code, unlinkFails).effects;
            |e| > 0 && e[|e| - 1] == Close(code) &&
            ((exists p :: UnlinkTokenFile(p) in e) <==> (s.tokenFile.Some? && s.tokenFile.value != ""))
  {
    var e := OnClose(s, code, unlinkFails).effects;
    if s.tokenFile.Some? && s.tokenFile.value != "" {
      assert UnlinkTokenFile(s.tokenFile.value) in e;
    }
  }

  // ---------------------------------------------------------------------
  // runs

  datatype DisplayInput =
    | Data(raw: string)
    | HelperDone(stdout: string)
    | ProcessClose(code: Option<int>, unlinkFails: bool)
    | TerminateCall

  /** One input; a helper completion without a started run cannot happen and is ignored. */
  function Apply(s: DisplayState, tokenFolder: string, input: DisplayInput): (r: Step)
    requires Consistent(s)
    ensures Consistent(r.state) && r.state.token == s.token
  {
    match input
    case Data(raw) => OnData(s, tokenFolder, raw)
    case HelperDone(stdout) => if s.helpersRunning > 0 then OnHelperDone(s, stdout) else Step(s, [])
    case ProcessClose(code, unlinkFails) => OnClose(s, code, unlinkFails)
    case TerminateCall => OnTerminate(s)
  }

  function Run(s: DisplayState, tokenFolder: string, inputs: seq<DisplayInput>): (r: Step)
    requires Consistent(s)
    ensures Consistent(r.state) && r.state.token == s.token
    decreases |inputs|
  {
    if inputs == [] then Step(s, [])
    else
      var first := Apply(s, tokenFolder, inputs[0]);
      var rest := Run(first.state, tokenFolder, inputs[1..]);
      Step(rest.state, first.effects + rest.effects)
  }

  function Sigterms(e: seq<DisplayEffect>): nat
  {
    if e == [] then 0 else (if e[0] == Sigterm then 1 else 0) + Sigterms(e[1..])
  }

  function Readies(e: seq<DisplayEffect>): nat
  {
    if e == [] then 0 else (if e[0].Ready? then 1 else 0) + Readies(e[1..])
  }

  function HelperRuns(e: seq<DisplayEffect>): nat
  {
    if e == [] then 0 else (if e[0].RunTokenHelper? then 1 else 0) + HelperRuns(e[1..])
  }

  lemma {:induction false} CountsSplit(a: seq<DisplayEffect>, b: seq<DisplayEffect>)
    ensures Sigterms(a + b) == Sigterms(a) + Sigterms(b)
    ensures Readies(a + b) == Readies(a) + Readies(b)
    ensures HelperRuns(a + b) == HelperRuns(a) + HelperRuns(b)
    decreases |a|
  {
    if a != [] {
      CountsSplit(a[1..], b);
      assert (a + b)[0] == a[0];
      assert (a + b)[1..] == a[1..] + b;
    } else {
      assert a + b == b;
    }
  }

  /** The counts of one step's effects. */
  lemma StepCounts(s: DisplayState, tokenFolder: string, input: DisplayInput)
    requires Consistent(s)
    ensures var r := Apply(s, tokenFolder, input);
            Sigterms(r.effects) == (if r.state.killed && !s.killed then 1 else 0) &&
            r.state.killed == (s.killed || Sigterms(r.effects) == 1) &&
            Readies(r.effects) + r.state.helpersRunning == s.helpersRunning + HelperRuns(r.effects)
  {
    var r := Apply(s, tokenFolder, input);
    match input
    case Data(raw) =>
      if AcceptNumber(raw).Some? {
        assert r.effects == [r.effects[0]] + [];
      }
    case HelperDone(stdout) =>
      if s.helpersRunning > 0 {
        assert r.effects == [r.effects[0]] + [];
      }
    case ProcessClose(code, unlinkFails) =>
      var close: seq<DisplayEffect> := [Close(code)];
      assert Sigterms(close) == 0 && Readies(close) == 0 && HelperRuns(close) == 0;
      if s.tokenFile.Some? && s.tokenFile.value != "" {
        var path := s.tokenFile.value;
        var failed: seq<DisplayEffect> := if unlinkFails then [UnlinkFailed(path)] else [];
        assert Sigterms(failed) == 0 && Readies(failed) == 0 && HelperRuns(failed) == 0;
        CountsSplit([UnlinkTokenFile(path)], failed);
        CountsSplit([UnlinkTokenFile(path)] + failed, close);
      } else {
        assert r.effects == [] + close;
      }
    case TerminateCall =>
  }

  /** Over any run, SIGTERM is sent at most once, and never again once a signal was delivered. */
  lemma {:induction false} SigtermAtMostOnce(s: DisplayState, tokenFolder: string, inputs: seq<DisplayInput>)
    requires Consistent(s)
    ensures var r := Run(s, tokenFolder, inputs);
            Sigterms(r.effects) <= (if s.killed then 0 else 1) &&
            (r.state.killed <==> s.killed || Sigterms(r.effects) == 1)
    decreases |inputs|
  {
    if inputs != [] {
      var first := Apply(s, tokenFolder, inputs[0]);
      SigtermAtMostOnce(first.state, tokenFolder, inputs[1..]);
      CountsSplit(first.effects, Run(first.state, tokenFolder, inputs[1..]).effects);
      StepCounts(s, tokenFolder, inputs[0]);
    }
  }

  /**
   * `ready` is announced only after a helper run: over any run, the ready
   * announcements never outnumber the helper runs started (plus those
   * already running at the start).
   */
  lemma {:induction false} ReadyOnlyAfterHelper(s: DisplayState, tokenFolder: string, inputs: seq<DisplayInput>)
    requires Consistent(s)
    ensures var r := Run(s, tokenFolder, inputs);
            Readies(r.effects) + r.state.helpersRunning == s.helpersRunning + HelperRuns(r.effects)
    decreases |inputs|
  {
    if inputs != [] {
      var first := Apply(s, tokenFolder, inputs[0]);
      ReadyOnlyAfterHelper(first.state, tokenFolder, inputs[1..]);
      CountsSplit(first.effects, Run(first.state, tokenFolder, inputs[1..]).effects);
      StepCounts(s, tokenFolder, inputs[0]);
    }
  }

  // ---------------------------------------------------------------------
  // the display object

  class Display {
    /** The noVNC token, fixed at construction. */
    const token: string
    /** The folder handed to the token helper (`config.vnc.tokenFolder`). */
    const tokenFolder: string
    var number: Option<JsNumber>
    var tokenFile: Option<string>
    var killed: bool
    var exited: bool
    var helpersRunning: nat
    /** What the display did, in order. */
    var effects: seq<DisplayEffect>

    function State(): DisplayState
      reads this
    {
      DisplayState(token, number, tokenFile, killed, exited, helpersRunning)
    }

    ghost predicate Valid()
      reads this
    {
      Consistent(State())
    }

    /** Spawning the server; `token` stands for the 48 random bytes in hex. */
    constructor(token: string, tokenFolder: string)
      requires IsHexToken(token)
      ensures Valid() && State() == Initial(token) && this.tokenFolder == tokenFolder && effects == []
    {
      this.token := token;
      this.tokenFolder := tokenFolder;
      number := None;
      tokenFile := None;
      killed := false;
      exited := false;
      helpersRunning := 0;
      effects := [];
    }

    /** The `port` getter. */
    function Port(): (r: Option<JsNumber>)
      reads this
      ensures r == PortOf(number)
    {
      if number.None? then None else Some(AddNumber(BasePort, number.value))
    }

    /** The fd 3 data handler, up to the helper call. */
    method ReceiveDisplayNumber(raw: string)
      requires Valid()
      modifies this
      ensures Valid()
      ensures State() == OnData(old(State()), tokenFolder, raw).state
      ensures effects == old(effects) + OnData(old(State()), tokenFolder, raw).effects
    {
      var t := Trim(raw);
      var n := ParseInt(t);
      if NumberToString(n) != t {
        return;
      }
      number := Some(n);
      var port := Port();
      if port.None? {
        return;
      }
      effects := effects + [RunTokenHelper(tokenFolder, token, NumberToString(port.value))];
      helpersRunning := helpersRunning + 1;
    }

    /** The rest of the fd 3 handler, once the helper's output is back. */
    method TokenHelperDone(stdout: string)
      requires Valid() && helpersRunning > 0
      modifies this
      ensures Valid()
      ensures State() == OnHelperDone(old(State()), stdout).state
      ensures effects == old(effects) + OnHelperDone(old(State()), stdout).effects
    {
      tokenFile := Some(Trim(stdout));
      helpersRunning := helpersRunning - 1;
      effects := effects + [Ready(number.value)];
    }

    /** The process "close" handler; `unlinkFails` is the outcome of unlinking the token file. */
    method CloseEvent(code: Option<int>, unlinkFails: bool)
      requires Valid()
      modifies this
      ensures Valid()
      ensures State() == OnClose(old(State()), code, unlinkFails).state
      ensures effects == old(effects) + OnClose(old(State()), code, unlinkFails).effects
    {
      exited := true;
      if tokenFile.Some? && tokenFile.value != "" {
        effects := effects + [UnlinkTokenFile(tokenFile.value)];
        if unlinkFails {
          effects := effects + [UnlinkFailed(tokenFile.value)];
        }
      }
      effects := effects + [Close(code)];
    }

    method Terminate()
      requires Valid()
      modifies this
      ensures Valid()
      ensures State() == OnTerminate(old(State())).state
      ensures effects == old(effects) + OnTerminate(old(State())).effects
    {
      if killed {
        return;
      }
      if !exited {
        killed := true;
        effects := effects + [Sigterm];
      }
    }
  }
}

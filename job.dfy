/**
 * The job lifecycle of src/job/job.ts: validation against the server
 * configuration, the docker argument list, and the `started` / `exited` /
 * `terminated` flags that guarantee a single `end` event.
 *
 * The displays a job creates are kept as `VncDisplay.DisplayState` values
 * inside the job; their callbacks (fd 3 data, helper completion, close)
 * arrive as method calls on the job, which runs the display step and then
 * the job's own listener.
 */
module Jobs {
  import opened Wrappers
  import opened JsText
  import VncDisplay

  datatype Container = Container(sharedArgs: seq<string>)

  /** The fields of a job's configuration that the job and the queue read. */
  datatype JobConfig = JobConfig(
    displayName: string,
    userArgs: Option<seq<string>>,
    useX11: bool,
    queuePool: Option<string>,
    container: string,
    containerArgs: Option<seq<string>>,
    containerPostArgs: seq<string>)

  /** `config.jobs` (platform -> job name -> job), `config.containers` and the VNC token folder. */
  datatype JobsConfig = JobsConfig(
    jobs: map<string, map<string, JobConfig>>,
    containers: map<string, Container>,
    tokenFolder: string)

  datatype JobError =
    | UnknownPlatform(platform: string)
    | UnknownJob(platform: string, name: string)
    | UnknownContainer(name: string, container: string)
    | WrongArgCount(expected: nat, got: nat)

  /** The message of the thrown error. */
  function ErrorMessage(e: JobError): (r: string)
    ensures |r| > 9 && r[|r| - 1] == ')'
    ensures e.WrongArgCount? <==> r[0] == 'W'
    ensures e.UnknownPlatform? <==> r[8] == 'p'
    ensures e.UnknownJob? <==> r[8] == 'j'
    ensures e.UnknownContainer? <==> r[8] == 'c'
    ensures e.UnknownPlatform? ==> |r| == 19 + |e.platform| && r[18..|r| - 1] == e.platform
  {
    match e
    case UnknownPlatform(p) =>
      var head := "Unknown platform (";
      var m := head + (p + ")");
      assert m[0] == head[0] && m[8] == head[8];
      m
    case UnknownJob(p, n) =>
      var head := "Unknown job (";
      var m := head + (p + ", " + n + ")");
      assert m[0] == head[0] && m[8] == head[8];
      m
    case UnknownContainer(n, c) =>
      var head := "Unknown container for job ";
      var m := head + (n + " (" + c + ")");
      assert m[0] == head[0] && m[8] == head[8];
      m
    case WrongArgCount(x, g) =>
      var head := "Wrong number of arguments given (expected ";
      var m := head + (NatToDecimal(x) + ", got " + NatToDecimal(g) + ")");
      assert m[0] == head[0] && m[8] == head[8];
      m
  }

  /** `jobConfig.userArgs?.length ?? 0`. */
  function ExpectedArgCount(c: JobConfig): nat
  {
    if c.userArgs.Some? then |c.userArgs.value| else 0
  }

  /**
   * The constructor's checks: it succeeds exactly when the platform, the
   * job and its container are known and the argument count matches, and
   * otherwise reports the first failing check, in that order.
   */
  function Validate(cfg: JobsConfig, name: string, platform: string, userArgs: seq<string>): (r: Result<JobConfig, JobError>)
    ensures r.Success? <==>
      platform in cfg.jobs && name in cfg.jobs[platform] &&
      cfg.jobs[platform][name].container in cfg.containers &&
      |userArgs| == ExpectedArgCount(cfg.jobs[platform][name])
    ensures r.Success? ==> r.value == cfg.jobs[platform][name]
    ensures r.Failure? ==> (r.error == UnknownPlatform(platform) <==> platform !in cfg.jobs)
    ensures r.Failure? ==>
      (r.error == UnknownJob(platform, name) <==> platform in cfg.jobs && name !in cfg.jobs[platform])
    ensures r.Failure? && platform in cfg.jobs && name in cfg.jobs[platform] ==>
      (r.error == UnknownContainer(name, cfg.jobs[platform][name].container) <==>
       cfg.jobs[platform][name].container !in cfg.containers)
    ensures r.Failure? && r.error.UnknownPlatform? ==> r.error.platform == platform
    ensures r.Failure? && !r.error.UnknownPlatform? ==> platform in cfg.jobs
    ensures r.Failure? && (r.error.UnknownContainer? || r.error.WrongArgCount?) ==> name in cfg.jobs[platform]
    ensures r.Failure? && r.error.WrongArgCount? ==>
      cfg.jobs[platform][name].container in cfg.containers &&
      r.error == WrongArgCount(ExpectedArgCount(cfg.jobs[platform][name]), |userArgs|) &&
      r.error.expected != r.error.got
  {
    if platform !in cfg.jobs then Failure(UnknownPlatform(platform))
    else if name !in cfg.jobs[platform] then Failure(UnknownJob(platform, name))
    else
      var c := cfg.jobs[platform][name];
      if c.container !in cfg.containers then Failure(UnknownContainer(name, c.container))
      else if ExpectedArgCount(c) != |userArgs| then Failure(WrongArgCount(ExpectedArgCount(c), |userArgs|))
      else Success(c)
  }

  /** The X11 socket of display `n`, mounted as display 0 in the container. */
  function X11Mount(n: JsNumber): string
  {
    "/tmp/.X11-unix/X" + NumberToString(n) + ":/tmp/.X11-unix/X0"
  }

  /** `containerArgs?`, then the container's shared arguments, then `containerPostArgs`. */
  function ContainerArgs(container: Container, c: JobConfig): seq<string>
  {
    (if c.containerArgs.Some? then c.containerArgs.value else []) + container.sharedArgs + c.containerPostArgs
  }

  /**
   * The argument list of `docker`: the project mount, for X11 jobs the
   * display socket mount, the container arguments, and the user's
   * arguments only for X11 jobs.
   */
  function DockerArgs(container: Container, c: JobConfig, userArgs: seq<string>, projectPath: string, x11: Option<JsNumber>): (r: seq<string>)
    requires c.useX11 ==> x11.Some?
    ensures |r| >= 3 && r[..3] == ["run", "-v", projectPath + ":/project"]
    ensures c.useX11 ==>
      r[3..] == ["-v", X11Mount(x11.value)] + ContainerArgs(container, c) + userArgs
    ensures !c.useX11 ==> r[3..] == ContainerArgs(container, c)
  {
    var args := container.sharedArgs + c.containerPostArgs;
    var args' := if c.containerArgs.Some? then c.containerArgs.value + args else args;
    var args'' := if c.useX11 then ["-v", X11Mount(x11.value)] + args' + userArgs else args';
    ["run", "-v", projectPath + ":/project"] + args''
  }

  datatype JobEvent =
    | JobReady
    | Begun(vncToken: Option<string>)
    | Spawn(args: seq<string>)
    | KillProcess(process: nat)
    | MissingDisplay
    | End(exitCode: Option<int>)
    | Stdout(line: string)
    | Stderr(line: string)
    | DisplayDid(display: nat, effect: VncDisplay.DisplayEffect)

  function Begins(e: seq<JobEvent>): nat
  {
    if e == [] then 0 else Begins(e[..|e| - 1]) + (if e[|e| - 1].Begun? then 1 else 0)
  }

  function Ends(e: seq<JobEvent>): nat
  {
    if e == [] then 0 else Ends(e[..|e| - 1]) + (if e[|e| - 1].End? then 1 else 0)
  }

  function Spawns(e: seq<JobEvent>): nat
  {
    if e == [] then 0 else Spawns(e[..|e| - 1]) + (if e[|e| - 1].Spawn? then 1 else 0)
  }

  /** The display effects of display `k`, as job events. */
  function DisplayEvents(k: nat, effects: seq<VncDisplay.DisplayEffect>): (r: seq<JobEvent>)
    ensures |r| == |effects|
    ensures forall i :: 0 <= i < |r| ==> r[i] == DisplayDid(k, effects[i])
  {
    seq(|effects|, i requires 0 <= i < |effects| => DisplayDid(k, effects[i]))
  }

  /** Counting over a concatenation. */
  lemma {:induction false} CountsAppend(a: seq<JobEvent>, b: seq<JobEvent>)
    ensures Begins(a + b) == Begins(a) + Begins(b)
    ensures Ends(a + b) == Ends(a) + Ends(b)
    ensures Spawns(a + b) == Spawns(a) + Spawns(b)
    decreases |b|
  {
    if b == [] {
      assert a + b == a;
    } else {
      CountsAppend(a, b[..|b| - 1]);
      assert (a + b)[..|a + b| - 1] == a + b[..|b| - 1];
    }
  }

  /** Display events are neither begins, ends nor spawns. */
  lemma {:induction false} DisplayEventsCountNothing(k: nat, effects: seq<VncDisplay.DisplayEffect>)
    ensures var d := DisplayEvents(k, effects); Begins(d) == 0 && Ends(d) == 0 && Spawns(d) == 0
    decreases |effects|
  {
    if effects != [] {
      var init := effects[..|effects| - 1];
      DisplayEventsCountNothing(k, init);
      assert DisplayEvents(k, effects)[..|effects| - 1] == DisplayEvents(k, init);
    }
  }

  lemma CountOne(e: seq<JobEvent>, x: JobEvent)
    ensures Begins(e + [x]) == Begins(e) + (if x.Begun? then 1 else 0)
    ensures Ends(e + [x]) == Ends(e) + (if x.End? then 1 else 0)
    ensures Spawns(e + [x]) == Spawns(e) + (if x.Spawn? then 1 else 0)
  {
    assert (e + [x])[..|e + [x]| - 1] == e;
  }

  /** Appending to a log that extends `a` keeps `a` at its head. */
  lemma PrefixKept(a: seq<JobEvent>, b: seq<JobEvent>, c: seq<JobEvent>)
    requires |a| <= |b| && b[..|a|] == a
    ensures |a| <= |b + c| && (b + c)[..|a|] == a
  {
    assert (b + c)[..|a|] == b[..|a|];
  }

  /** The displays after `this.display?.terminate()`: the current (last) display takes its terminate step. */
  function TerminatedDisplays(ds: seq<VncDisplay.DisplayState>): seq<VncDisplay.DisplayState>
  {
    if ds == [] then ds else ds[|ds| - 1 := VncDisplay.OnTerminate(ds[|ds| - 1]).state]
  }

  /** What `this.display?.terminate()` does, as job events. */
  function DisplayTerminationEvents(ds: seq<VncDisplay.DisplayState>): seq<JobEvent>
  {
    if ds == [] then [] else DisplayEvents(|ds| - 1, VncDisplay.OnTerminate(ds[|ds| - 1]).effects)
  }

  class Job {
    const name: string
    const platform: string
    const userArgs: seq<string>
    const config: JobConfig
    const container: Container
    const tokenFolder: string

    var terminated: bool
    var started: bool
    var exited: bool
    var exitCode: Option<int>
    /** Every display the job created; the last one is `this.display`. */
    var displays: seq<VncDisplay.DisplayState>
    /** The project path each display's "ready" listener begins with. */
    var readyPaths: seq<string>
    /** Docker processes spawned; the last one is `this.process`. */
    var processes: nat
    /** What the job emitted and did, in order. */
    var events: seq<JobEvent>

    ghost predicate Valid()
      reads this
    {
      |displays| == |readyPaths| &&
      (forall i :: 0 <= i < |displays| ==> VncDisplay.Consistent(displays[i])) &&
      Begins(events) == processes && Spawns(events) == processes &&
      (started <==> processes > 0) &&
      (exited ==> started) &&
      Ends(events) == (if terminated then 1 else 0)
    }

    /** `active`: begun and not yet ended. */
    predicate Active()
      reads this
    {
      started && !terminated
    }

    /** `active` is exactly "a begin was emitted and no end yet". */
    lemma ActiveMeansBegunNotEnded()
      requires Valid()
      ensures Active() <==> Begins(events) > 0 && Ends(events) == 0
    {
    }

    /** The constructor, for a configuration the checks accept. */
    constructor(cfg: JobsConfig, name: string, platform: string, userArgs: seq<string>)
      requires Validate(cfg, name, platform, userArgs).Success?
      ensures Valid() && !Active()
      ensures this.name == name && this.platform == platform && this.userArgs == userArgs
      ensures config == cfg.jobs[platform][name] && container == cfg.containers[config.container]
      ensures tokenFolder == cfg.tokenFolder
      ensures !terminated && !started && !exited && exitCode.None?
      ensures displays == [] && readyPaths == [] && processes == 0 && events == []
    {
      this.name := name;
      this.platform := platform;
      this.userArgs := userArgs;
      var c := cfg.jobs[platform][name];
      config := c;
      container := cfg.containers[c.container];
      tokenFolder := cfg.tokenFolder;
      terminated := false;
      started := false;
      exited := false;
      exitCode := None;
      displays := [];
      readyPaths := [];
      processes := 0;
      events := [];
    }

    /** `new Job(...)`: the checks, then the object. */
    static method Create(cfg: JobsConfig, name: string, platform: string, userArgs: seq<string>) returns (r: Result<Job, JobError>)
      ensures Validate(cfg, name, platform, userArgs).Failure? ==>
        r == Failure(Validate(cfg, name, platform, userArgs).error)
      ensures Validate(cfg, name, platform, userArgs).Success? ==>
        r.Success? && fresh(r.value) && r.value.Valid() && r.value.events == [] &&
        r.value.config == cfg.jobs[platform][name]
    {
      var v := Validate(cfg, name, platform, userArgs);
      if v.Failure? {
        return Failure(v.error);
      }
      var job := new Job(cfg, name, platform, userArgs);
      return Success(job);
    }

    /** The queue admitted the job. */
    method Ready()
      requires Valid()
      modifies this
      ensures Valid() && events == old(events) + [JobReady]
      ensures terminated == old(terminated) && started == old(started) && exited == old(exited)
      ensures displays == old(displays) && processes == old(processes)
    {
      CountOne(events, JobReady);
      events := events + [JobReady];
    }

    /** The token of the current display, if any. */
    function CurrentToken(): Option<string>
      reads this
    {
      if displays == [] then None else Some(displays[|displays| - 1].token)
    }

    /** The number of the current display, if any. */
    function CurrentNumber(): Option<JsNumber>
      reads this
    {
      if displays == [] then None else displays[|displays| - 1].number
    }

    /**
     * `begin`: an X11 job without a display number terminates instead;
     * otherwise the job is started, announces `begin` with the current
     * display's token and spawns docker.
     */
    method Begin(projectPath: string)
      requires Valid()
      modifies this
      ensures Valid()
      ensures |displays| == |old(displays)| && readyPaths == old(readyPaths)
      ensures old(config.useX11 && CurrentNumber().None?) ==>
        processes == old(processes) && started == old(started) && exited == old(exited) &&
        old(events) + [MissingDisplay] <= events
      ensures old(config.useX11 && CurrentNumber().None?) && old(terminated) ==>
        terminated && displays == old(displays) && events == old(events) + [MissingDisplay]
      ensures old(config.useX11 && CurrentNumber().None?) && !old(terminated) && old(started) && !old(exited) ==>
        !terminated && displays == old(displays) &&
        events == old(events) + [MissingDisplay, KillProcess(old(processes) - 1)]
      ensures old(config.useX11 && CurrentNumber().None?) && !old(terminated) && !(old(started) && !old(exited)) ==>
        terminated && exitCode == old(exitCode) && displays == TerminatedDisplays(old(displays)) &&
        events == old(events) + [MissingDisplay] + DisplayTerminationEvents(old(displays)) + [End(exitCode)]
      ensures !old(config.useX11 && CurrentNumber().None?) ==>
        started && processes == old(processes) + 1 && displays == old(displays) &&
        terminated == old(terminated) && exited == old(exited) &&
        events == old(events) + [Begun(old(CurrentToken())),
                                 Spawn(DockerArgs(container, config, userArgs, projectPath, old(CurrentNumber())))]
    {
      var x11 := CurrentNumber();
      if config.useX11 && x11.None? {
        MissDisplay();
        return;
      }
      var args := DockerArgs(container, config, userArgs, projectPath, x11);
      StartProcess(args);
    }

    /** The job is started: `begin` with the current token, then docker is spawned with `args`. */
    method StartProcess(args: seq<string>)
      requires Valid()
      modifies this`started, this`events, this`processes
      ensures Valid()
      ensures started && processes == old(processes) + 1
      ensures events == old(events) + [Begun(CurrentToken()), Spawn(args)]
    {
      started := true;
      CountOne(events, Begun(CurrentToken()));
      events := events + [Begun(CurrentToken())];
      CountOne(events, Spawn(args));
      events := events + [Spawn(args)];
      processes := processes + 1;
    }

    /** An X11 job without a display number: the error is emitted and the job terminates. */
    method MissDisplay()
      requires Valid()
      modifies this`terminated, this`displays, this`events
      ensures Valid()
      ensures readyPaths == old(readyPaths) && |displays| == |old(displays)|
      ensures old(terminated) ==>
        terminated && displays == old(displays) && events == old(events) + [MissingDisplay]
      ensures !old(terminated) && old(started) && !old(exited) ==>
        !terminated && displays == old(displays) &&
        events == old(events) + [MissingDisplay, KillProcess(old(processes) - 1)]
      ensures !old(terminated) && !(old(started) && !old(exited)) ==>
        terminated && exitCode == old(exitCode) && displays == TerminatedDisplays(old(displays)) &&
        events == old(events) + [MissingDisplay] + DisplayTerminationEvents(old(displays)) + [End(exitCode)]
    {
      CountOne(events, MissingDisplay);
      events := events + [MissingDisplay];
      Terminate();
    }

    /**
     * `terminate()`: nothing once terminated; while a started process has
     * not exited, only kill it; otherwise mark the job terminated,
     * terminate the current display and emit `end(exitCode)`.
     */
    method Terminate()
      requires Valid()
      modifies this`terminated, this`displays, this`events
      ensures Valid()
      ensures started == old(started) && exited == old(exited) && processes == old(processes)
      ensures readyPaths == old(readyPaths) && |displays| == |old(displays)|
      ensures old(events) <= events
      ensures old(terminated) ==> events == old(events) && displays == old(displays) && terminated
      ensures !old(terminated) && old(started) && !old(exited) ==>
        !terminated && displays == old(displays) && events == old(events) + [KillProcess(old(processes) - 1)]
      ensures !old(terminated) && !(old(started) && !old(exited)) ==>
        terminated && exitCode == old(exitCode) && displays == TerminatedDisplays(old(displays)) &&
        events == old(events) + DisplayTerminationEvents(old(displays)) + [End(exitCode)]
    {
      if terminated {
        return;
      }
      if !exited && started {
        CountOne(events, KillProcess(processes - 1));
        events := events + [KillProcess(processes - 1)];
        return;
      }
      Finish();
    }

    /** The end of `terminate()`: the current display is terminated, then `end(exitCode)`. */
    method Finish()
      requires Valid() && !terminated
      modifies this`terminated, this`displays, this`events
      ensures Valid() && terminated
      ensures displays == TerminatedDisplays(old(displays))
      ensures events == old(events) + DisplayTerminationEvents(old(displays)) + [End(exitCode)]
    {
      if displays != [] {
        TerminateDisplay();
      }
      CountOne(events, End(exitCode));
      events := events + [End(exitCode)];
      terminated := true;
    }

    /** Display `k` took `step`: its new state replaces the old, its effects are logged. */
    method ApplyDisplayStep(k: nat, step: VncDisplay.Step)
      requires Valid() && k < |displays| && VncDisplay.Consistent(step.state)
      modifies this`displays, this`events
      ensures Valid()
      ensures displays == old(displays)[k := step.state] && events == old(events) + DisplayEvents(k, step.effects)
    {
      displays := displays[k := step.state];
      DisplayEventsCountNothing(k, step.effects);
      CountsAppend(events, DisplayEvents(k, step.effects));
      events := events + DisplayEvents(k, step.effects);
    }

    /** `this.display?.terminate()` inside `terminate()`: the current display takes its terminate step. */
    method TerminateDisplay()
      requires Valid() && displays != []
      modifies this`displays, this`events
      ensures Valid()
      ensures var k := |old(displays)| - 1;
              var step := VncDisplay.OnTerminate(old(displays)[k]);
              displays == old(displays)[k := step.state] && events == old(events) + DisplayEvents(k, step.effects)
    {
      var k := |displays| - 1;
      var step := VncDisplay.OnTerminate(displays[k]);
      ApplyDisplayStep(k, step);
    }

    /**
     * `sourceFilesReady`, as written: a non-X11 job begins at once, and a
     * display is created for every job, whose `ready` begins it (again).
     */
    method SourceFilesReady(projectPath: string, token: string)
      requires Valid() && VncDisplay.IsHexToken(token)
      modifies this
      ensures Valid()
      ensures displays == old(displays) + [VncDisplay.Initial(token)]
      ensures readyPaths == old(readyPaths) + [projectPath]
      ensures !config.useX11 ==> processes == old(processes) + 1
      ensures config.useX11 ==> processes == old(processes) && events == old(events)
    {
      if !config.useX11 {
        Begin(projectPath);
      }
      displays := displays + [VncDisplay.Initial(token)];
      readyPaths := readyPaths + [projectPath];
    }

    /**
     * `sourceFilesReady` as evidently intended: a non-X11 job begins at
     * once and gets no display; an X11 job gets a display whose `ready`
     * begins it.
     */
    method SourceFilesReadyCorrected(projectPath: string, token: string)
      requires Valid() && VncDisplay.IsHexToken(token)
      modifies this
      ensures Valid()
      ensures !config.useX11 ==>
        displays == old(displays) && readyPaths == old(readyPaths) &&
        processes == old(processes) + 1 && Spawns(events) == Spawns(old(events)) + 1
      ensures config.useX11 ==>
        displays == old(displays) + [VncDisplay.Initial(token)] && readyPaths == old(readyPaths) + [projectPath] &&
        processes == old(processes) && events == old(events)
    {
      if !config.useX11 {
        Begin(projectPath);
        return;
      }
      displays := displays + [VncDisplay.Initial(token)];
      readyPaths := readyPaths + [projectPath];
    }

    /** Data on fd 3 of display `k`. */
    method OnDisplayData(k: nat, raw: string)
      requires Valid() && k < |displays|
      modifies this
      ensures Valid()
      ensures var step := VncDisplay.OnData(old(displays[k]), tokenFolder, raw);
              displays == old(displays)[k := step.state] && events == old(events) + DisplayEvents(k, step.effects)
      ensures terminated == old(terminated) && started == old(started) && processes == old(processes)
    {
      var step := VncDisplay.OnData(displays[k], tokenFolder, raw);
      ApplyDisplayStep(k, step);
    }

    /** The token helper of display `k` finished: the display announces `ready`, whose listener begins the job. */
    method OnDisplayHelperDone(k: nat, stdout: string)
      requires Valid() && k < |displays| && displays[k].helpersRunning > 0
      modifies this
      ensures Valid()
      ensures |displays| == |old(displays)| && readyPaths == old(readyPaths)
      ensures old(events) + [DisplayDid(k, VncDisplay.Ready(old(displays[k].number).value))] <= events
      ensures !config.useX11 || k == |displays| - 1 ==> started && processes == old(processes) + 1
    {
      var step := VncDisplay.OnHelperDone(displays[k], stdout);
      ApplyDisplayStep(k, step);
      Begin(readyPaths[k]);
    }

    /** The server process of display `k` closed: the display reports it, whose listener terminates the job. */
    method OnDisplayClose(k: nat, code: Option<int>, unlinkFails: bool)
      requires Valid() && k < |displays|
      modifies this
      ensures Valid()
      ensures old(started) && !old(exited) && !old(terminated) ==>
        !terminated && |events| > 0 && events[|events| - 1].KillProcess?
      ensures !(old(started) && !old(exited)) ==> terminated
    {
      var step := VncDisplay.OnClose(displays[k], code, unlinkFails);
      ApplyDisplayStep(k, step);
      Terminate();
    }

    /** A docker process exited with `code` (null becomes undefined). */
    method OnProcessExit(code: Option<int>)
      requires Valid() && processes > 0
      modifies this
      ensures Valid() && exited && terminated
      ensures !old(terminated) ==> events[|events| - 1] == End(code) && Ends(events) == 1
      ensures old(terminated) ==> events == old(events)
    {
      exitCode := code;
      exited := true;
      Terminate();
    }

    /** A line on the current process's stdout (or stderr). */
    method OnProcessLine(line: string, isStderr: bool)
      requires Valid() && processes > 0
      modifies this
      ensures Valid()
      ensures events == old(events) + [if isStderr then Stderr(line) else Stdout(line)]
      ensures terminated == old(terminated) && started == old(started) && processes == old(processes)
    {
      var e := if isStderr then Stderr(line) else Stdout(line);
      CountOne(events, e);
      events := events + [e];
    }
  }

  /**
   * A non-X11 job handed its files by `SourceFilesReady` as written and
   * whose display then reports a number spawns docker twice.
   */
  method NonX11JobBeginsTwice(cfg: JobsConfig, name: string, platform: string, projectPath: string, token: string, stdout: string)
    returns (spawned: nat)
    requires Validate(cfg, name, platform, []).Success? && !cfg.jobs[platform][name].useX11
    requires VncDisplay.IsHexToken(token)
    ensures spawned == 2
  {
    var job := new Job(cfg, name, platform, []);
    job.SourceFilesReady(projectPath, token);
    job.OnDisplayData(0, "1");
    job.OnDisplayHelperDone(0, stdout);
    spawned := job.processes;
  }

  /** With the corrected `SourceFilesReady` the same job spawns docker once and has no display. */
  method NonX11JobBeginsOnce(cfg: JobsConfig, name: string, platform: string, projectPath: string, token: string)
    returns (spawned: nat, displays: nat)
    requires Validate(cfg, name, platform, []).Success? && !cfg.jobs[platform][name].useX11
    requires VncDisplay.IsHexToken(token)
    ensures spawned == 1 && displays == 0
  {
    var job := new Job(cfg, name, platform, []);
    job.SourceFilesReadyCorrected(projectPath, token);
    spawned, displays := job.processes, |job.displays|;
  }
}

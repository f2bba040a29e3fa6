/**
 * One client connection of the legacy server (src/connection/Connection.ts):
 * the optional `Project`, `Build` and `Simulation` references, the handlers
 * of client messages and of job events, the socket's `close`, and the
 * static `Connection.Active` list.
 *
 * Projects and jobs are named by ids the caller supplies (a new object is a
 * new id). What the connection asks of other components (stage a project,
 * create, queue or terminate a job, delete project files) is appended to
 * `effects`; what it sends the client is appended to `outbox`.
 *
 * `Terminate` of a job emits that job's `close` synchronously, and this
 * connection's `close` listener runs inside the call. While `Build` or
 * `Simulation` refers to a job, that job's listeners are still attached
 * (they go only when a build exits, and that runs the handler which clears
 * the reference), so `build-end`, `isim-end` and the socket's `close` run
 * the job's `close` handler right after the terminate.
 */
module Connections {
  import opened Wrappers
  import opened Lists
  import Builds

  /** The messages the server sends (`ServerMessage`). */
  datatype ServerMessage =
    | ProjectMapping(mapping: map<string, string>)
    | BuildBegin
    | BuildOutput(stderr: bool, line: string)
    | BuildQueue(pos: nat, size: nat)
    | BuildEnd(result: Builds.BuildResult)
    | IsimBegin(url: string)
    | IsimOutput(stderr: bool, line: string)
    | IsimQueue(pos: nat, size: nat)
    | IsimEnd
    | ErrorMessage(text: string)

  /** The messages a client sends; `Unparsable` is one `JSON.parse` or `assertType` rejects. */
  datatype ClientMessage = BuildBeginRequest | IsimBeginRequest | BuildEndRequest | IsimEndRequest | Unparsable

  /** What the connection asks of other components. */
  datatype Effect =
    | StageProject(project: nat)
    | NewBuild(job: nat, path: string)
    | CheckBuildQueue
    | TerminateBuild(job: nat)
    | NewSimulation(job: nat, path: string)
    | CheckSimulationQueue
    | TerminateSimulation(job: nat)
    | DeleteProject(project: nat)

  /** The `Project` a connection holds; `path` is its `Path`, set once its directory exists. */
  datatype Held = Held(id: nat, path: Option<string>)

  /**
   * How `CreateDirectory` of a new project ends: with its directory and the
   * local-name mapping, or with an error, after `Path` was set or before.
   */
  datatype Staging =
    | Staged(path: string, mapping: map<string, string>)
    | StageFailed(dir: Option<string>, message: string)

  datatype Conn = Conn(
    connected: bool,
    project: Option<Held>,
    build: Option<nat>,
    simulation: Option<nat>,
    outbox: seq<ServerMessage>,
    effects: seq<Effect>)

  /** A fresh connection with an open socket. */
  const Fresh := Conn(true, None, None, None, [], [])

  const BusyAction := "Another action is already running"
  const NoPath := "Cannot find project path"
  const BusyBuild := "Another build is already running"
  const BusySimulation := "Another simulation is already running"

  /** `e.toString()` of an `Error` with message `m`: the message, after the `Error: ` prefix. */
  function ErrorText(m: string): (r: string)
    ensures |r| == |m| + 7 && r[7..] == m && r[..7] == "Error: "
  {
    "Error: " + m
  }

  /** `Send`: nothing happens once the socket is no longer connected. */
  function SendStep(s: Conn, m: ServerMessage): (r: Conn)
    ensures s.connected ==> r == s.(outbox := s.outbox + [m])
    ensures !s.connected ==> r == s
  {
    if s.connected then s.(outbox := s.outbox + [m]) else s
  }

  /**
   * `SetupProject`: refuse while a project is held; otherwise hold the new
   * project before its directory is created, and send its mapping once it is.
   */
  function SetupStep(s: Conn, project: nat, staging: Staging): (r: (Conn, Option<string>))
    ensures s.project.Some? ==> r == (s, Some(BusyAction))
    ensures s.project.None? ==>
      && r.0.project.Some? && r.0.project.value.id == project
      && r.0.build == s.build && r.0.simulation == s.simulation && r.0.connected == s.connected
      && r.0.effects == s.effects + [StageProject(project)]
      && (r.1.None? <==> staging.Staged?)
    ensures s.project.None? && staging.Staged? ==>
      r.0.project.value.path == Some(staging.path) &&
      r.0.outbox == (if s.connected then s.outbox + [ProjectMapping(staging.mapping)] else s.outbox)
    ensures s.project.None? && staging.StageFailed? ==>
      r.0.outbox == s.outbox && r.1 == Some(staging.message)
  {
    if s.project.Some? then (s, Some(BusyAction))
    else
      var t := s.(project := Some(Held(project, None)), effects := s.effects + [StageProject(project)]);
      match staging
      case StageFailed(dir, message) => (t.(project := Some(Held(project, dir))), Some(message))
      case Staged(path, mapping) => (SendStep(t.(project := Some(Held(project, Some(path)))), ProjectMapping(mapping)), None)
  }

  /** `StartBuild`: create and queue a build for the held project's directory. */
  function StartBuildStep(s: Conn, job: nat): (r: (Conn, Option<string>))
    ensures r.1.None? <==> s.project.Some? && s.project.value.path.Some? && s.build.None?
    ensures r.1.Some? ==> r.0 == s
    ensures r.1.None? ==>
      r.0 == s.(build := Some(job),
                effects := s.effects + [NewBuild(job, s.project.value.path.value), CheckBuildQueue])
  {
    if s.project.None? || s.project.value.path.None? then (s, Some(NoPath))
    else if s.build.Some? then (s, Some(BusyBuild))
    else (s.(build := Some(job), effects := s.effects + [NewBuild(job, s.project.value.path.value), CheckBuildQueue]), None)
  }

  /** `StartSimulation` as written: it refuses when a build, not a simulation, is held. */
  function StartSimulationStep(s: Conn, job: nat): (r: (Conn, Option<string>))
    ensures r.1.None? <==> s.project.Some? && s.project.value.path.Some? && s.build.None?
    ensures r.1.Some? ==> r.0 == s
    ensures r.1.None? ==> r.0.simulation == Some(job) && r.0.build == s.build && r.0.outbox == s.outbox
  {
    if s.project.None? || s.project.value.path.None? then (s, Some(NoPath))
    else if s.build.Some? then (s, Some(BusySimulation))
    else (s.(simulation := Some(job), effects := s.effects + [NewSimulation(job, s.project.value.path.value), CheckSimulationQueue]), None)
  }

  /** The `try` of a `build-begin` or `isim-begin`: set up, start, and report the first error. */
  function BeginStep(s: Conn, simulate: bool, project: nat, job: nat, staging: Staging): (r: Conn)
    ensures r.connected == s.connected && s.outbox <= r.outbox && s.effects <= r.effects
    ensures s.project.None? ==> r.project.Some? && r.project.value.id == project
    ensures s.project.Some? ==> r.project == s.project && r.build == s.build && r.simulation == s.simulation
  {
    var (t, setupError) := SetupStep(s, project, staging);
    if setupError.Some? then SendStep(t, ErrorMessage(ErrorText(setupError.value)))
    else
      var (u, startError) := if simulate then StartSimulationStep(t, job) else StartBuildStep(t, job);
      if startError.Some? then SendStep(u, ErrorMessage(ErrorText(startError.value))) else u
  }

  /** The `close` listener of a build: report, delete and forget the project, forget the build. */
  function BuildClosedStep(s: Conn, result: Builds.BuildResult): (r: Conn)
    ensures r.project.None? && r.build.None? && r.simulation == s.simulation && r.connected == s.connected
    ensures r.outbox == (if s.connected then s.outbox + [BuildEnd(result)] else s.outbox)
    ensures r.effects == s.effects + (if s.project.Some? then [DeleteProject(s.project.value.id)] else [])
  {
    var t := SendStep(s, BuildEnd(result));
    var d := if t.project.Some? then t.(effects := t.effects + [DeleteProject(t.project.value.id)]) else t;
    d.(project := None, build := None)
  }

  /** The `close` listener of a simulation. */
  function SimulationClosedStep(s: Conn): (r: Conn)
    ensures r.project.None? && r.simulation.None? && r.build == s.build && r.connected == s.connected
    ensures r.outbox == (if s.connected then s.outbox + [IsimEnd] else s.outbox)
    ensures r.effects == s.effects + (if s.project.Some? then [DeleteProject(s.project.value.id)] else [])
  {
    var t := SendStep(s, IsimEnd);
    var d := if t.project.Some? then t.(effects := t.effects + [DeleteProject(t.project.value.id)]) else t;
    d.(project := None, simulation := None)
  }

  /** `this.Build?.Terminate(); this.Build = undefined`, with the `close` that `Terminate` emits. */
  function EndBuildStep(s: Conn): (r: Conn)
    ensures r.build.None? && r.simulation == s.simulation && r.connected == s.connected
    ensures s.build.None? ==> r == s
    ensures s.build.Some? ==>
      r.project.None? && |s.effects| < |r.effects| && s.effects <= r.effects &&
      r.effects[|s.effects|] == TerminateBuild(s.build.value)
  {
    match s.build
    case None => s
    case Some(job) =>
      var c := BuildClosedStep(s.(effects := s.effects + [TerminateBuild(job)]), Builds.Aborted);
      c.(build := None)
  }

  /** `this.Simulation?.Terminate(); this.Simulation = undefined`, with the `close` it emits. */
  function EndSimulationStep(s: Conn): (r: Conn)
    ensures r.simulation.None? && r.build == s.build && r.connected == s.connected
    ensures s.simulation.None? ==> r == s
    ensures s.simulation.Some? ==>
      r.project.None? && |s.effects| < |r.effects| && s.effects <= r.effects &&
      r.effects[|s.effects|] == TerminateSimulation(s.simulation.value)
  {
    match s.simulation
    case None => s
    case Some(job) =>
      var c := SimulationClosedStep(s.(effects := s.effects + [TerminateSimulation(job)]));
      c.(simulation := None)
  }

  /** `Message`: dispatch on the type; an unparsable message is only logged. */
  function MessageStep(s: Conn, msg: ClientMessage, project: nat, job: nat, staging: Staging): (r: Conn)
    ensures r.connected == s.connected && s.outbox <= r.outbox && s.effects <= r.effects
    ensures msg.Unparsable? ==> r == s
    ensures msg.BuildEndRequest? ==> r.build.None? && r.simulation == s.simulation
    ensures msg.IsimEndRequest? ==> r.simulation.None? && r.build == s.build
  {
    match msg
    case BuildBeginRequest => BeginStep(s, false, project, job, staging)
    case IsimBeginRequest => BeginStep(s, true, project, job, staging)
    case BuildEndRequest => EndBuildStep(s)
    case IsimEndRequest => EndSimulationStep(s)
    case Unparsable => s
  }

  /** The files of a held project go when no job holds them. */
  function ReleaseIdleProject(s: Conn): Conn
  {
    if s.build.None? && s.simulation.None? then
      var d := if s.project.Some? then s.(effects := s.effects + [DeleteProject(s.project.value.id)]) else s;
      d.(project := None)
    else s
  }

  /** `Closed`: the socket is gone; delete an idle project, then end both jobs. */
  function ClosedStep(s: Conn): (r: Conn)
    ensures !r.connected && r.outbox == s.outbox && s.effects <= r.effects
    ensures r.project.None? && r.build.None? && r.simulation.None?
  {
    EndSimulationStep(EndBuildStep(ReleaseIdleProject(s.(connected := false))))
  }

  /** The `isim-begin` URL: `<VncClientUrl>?token=<token>`. */
  function VncUrl(clientUrl: string, token: string): string
  {
    clientUrl + "?token=" + token
  }

  // -------------------------------------------------------------- properties

  /** A message the server cannot parse changes nothing and is not answered. */
  lemma UnparsableIgnored(s: Conn, project: nat, job: nat, staging: Staging)
    ensures MessageStep(s, Unparsable, project, job, staging) == s
  {
  }

  /**
   * A `build-begin` or `isim-begin` while a project is held is refused with
   * one `error` message and changes nothing else.
   */
  lemma BusyRefused(s: Conn, simulate: bool, project: nat, job: nat, staging: Staging)
    requires s.connected && s.project.Some?
    ensures BeginStep(s, simulate, project, job, staging)
      == s.(outbox := s.outbox + [ErrorMessage(ErrorText(BusyAction))])
  {
  }

  /**
   * On an idle connection a `build-begin` whose staging succeeds holds the
   * project with its directory, sends the mapping, creates the build and
   * runs the build queue; nothing else is sent.
   */
  lemma BuildBeginStarts(s: Conn, project: nat, job: nat, path: string, mapping: map<string, string>)
    requires s.connected && s.project.None? && s.build.None?
    ensures var r := BeginStep(s, false, project, job, Staged(path, mapping));
      && r.project == Some(Held(project, Some(path))) && r.build == Some(job) && r.simulation == s.simulation
      && r.outbox == s.outbox + [ProjectMapping(mapping)]
      && r.effects == s.effects + [StageProject(project), NewBuild(job, path), CheckBuildQueue]
  {
  }

  /**
   * Every `build-begin` or `isim-begin` on a connected socket sends exactly
   * one `error` if it fails and none if it succeeds: the message list grows
   * by at most the mapping and at most one error, and an error is last.
   */
  lemma BeginReportsOnce(s: Conn, simulate: bool, project: nat, job: nat, staging: Staging)
    requires s.connected && s.build != Some(job) && s.simulation != Some(job)
    ensures var r := BeginStep(s, simulate, project, job, staging);
      && |s.outbox| < |r.outbox| <= |s.outbox| + 2 && r.outbox[..|s.outbox|] == s.outbox
      && (forall i :: |s.outbox| <= i < |r.outbox| - 1 ==> r.outbox[i].ProjectMapping?)
      && (r.outbox[|r.outbox| - 1].ErrorMessage? <==> !StartedJob(s, r, simulate, job))
  {
    var (t, e) := SetupStep(s, project, staging);
    if e.None? {
      var (u, e2) := if simulate then StartSimulationStep(t, job) else StartBuildStep(t, job);
      assert t.outbox == s.outbox + [ProjectMapping(staging.mapping)];
      if e2.Some? {
        assert (u.outbox + [ErrorMessage(ErrorText(e2.value))])[..|s.outbox|] == s.outbox;
      } else {
        assert u.outbox[..|s.outbox|] == s.outbox;
      }
    }
  }

  /** `BeginStep` created the job it was given. */
  predicate StartedJob(s: Conn, r: Conn, simulate: bool, job: nat)
  {
    if simulate then r.simulation == Some(job) && s.simulation != Some(job)
    else r.build == Some(job) && s.build != Some(job)
  }

  /**
   * A `build-end` or `isim-end` terminates the held job and forgets it; the
   * job's own `close` handler, run inside the terminate, reports the end and
   * deletes and forgets the project.
   */
  lemma EndTerminatesHeldJob(s: Conn)
    ensures var r := EndBuildStep(s);
      && r.build.None? && r.simulation == s.simulation
      && (s.build.Some? ==>
            r.project.None? && TerminateBuild(s.build.value) in r.effects
            && (s.connected ==> r.outbox == s.outbox + [BuildEnd(Builds.Aborted)]))
      && (s.build.None? ==> r == s)
    ensures var r := EndSimulationStep(s);
      && r.simulation.None? && r.build == s.build
      && (s.simulation.Some? ==>
            r.project.None? && TerminateSimulation(s.simulation.value) in r.effects
            && (s.connected ==> r.outbox == s.outbox + [IsimEnd]))
      && (s.simulation.None? ==> r == s)
  {
  }

  /**
   * When the socket closes, nothing more is sent, the connection lets go of
   * its project and both jobs, terminates each job it held, and deletes the
   * project files whether or not a job held them.
   */
  lemma ClosedReleasesAll(s: Conn)
    ensures var r := ClosedStep(s);
      && !r.connected && r.outbox == s.outbox
      && r.project.None? && r.build.None? && r.simulation.None?
      && (s.build.Some? ==> TerminateBuild(s.build.value) in r.effects)
      && (s.simulation.Some? ==> TerminateSimulation(s.simulation.value) in r.effects)
      && (s.project.Some? ==> DeleteProject(s.project.value.id) in r.effects)
  {
    var a := s.(connected := false);
    var b := ReleaseIdleProject(a);
    var c := EndBuildStep(b);
    assert s.effects <= c.effects;
    assert s.project.Some? && (s.build.Some? || s.simulation.Some?) ==> b.project == s.project;
  }

  /**
   * The `close` listener of a build does not ask which build closed: the
   * late `close` of an earlier build (its process exiting after
   * `Terminate`) deletes the project of the job the connection now holds
   * and forgets that build, which goes on running unheld.
   */
  lemma LateBuildCloseDropsCurrent(s: Conn, result: Builds.BuildResult)
    requires s.project.Some? && s.build.Some?
    ensures var r := BuildClosedStep(s, result);
      && r.project.None? && r.build.None?
      && r.effects == s.effects + [DeleteProject(s.project.value.id)]
      && TerminateBuild(s.build.value) !in r.effects[|s.effects|..]
  {
    var r := BuildClosedStep(s, result);
    assert r.effects[|s.effects|..] == [DeleteProject(s.project.value.id)];
  }

  // ------------------------------------------- a failed setup, as written and as intended

  /**
   * As written, a setup whose staging fails leaves the new project held, so
   * every later `build-begin` or `isim-begin` on this connection is refused
   * with "Another action is already running" until the socket closes.
   */
  lemma FailedSetupBlocksConnection(s: Conn, simulate: bool, project: nat, job: nat, path: Option<string>, message: string,
                                    simulate2: bool, project2: nat, job2: nat, staging2: Staging)
    requires s.connected && s.project.None?
    ensures var t := BeginStep(s, simulate, project, job, StageFailed(path, message));
      && t.project == Some(Held(project, path))
      && t.outbox == s.outbox + [ErrorMessage(ErrorText(message))]
      && BeginStep(t, simulate2, project2, job2, staging2)
         == t.(outbox := t.outbox + [ErrorMessage(ErrorText(BusyAction))])
  {
  }

  /** `SetupProject` as evidently intended: a failed staging deletes and forgets the new project. */
  function SetupStepCorrected(s: Conn, project: nat, staging: Staging): (Conn, Option<string>)
  {
    var (t, e) := SetupStep(s, project, staging);
    if s.project.None? && staging.StageFailed? then
      (t.(project := None, effects := t.effects + [DeleteProject(project)]), e)
    else (t, e)
  }

  function BeginStepCorrected(s: Conn, simulate: bool, project: nat, job: nat, staging: Staging): Conn
  {
    var (t, setupError) := SetupStepCorrected(s, project, staging);
    if setupError.Some? then SendStep(t, ErrorMessage(ErrorText(setupError.value)))
    else
      var (u, startError) := if simulate then StartSimulationStep(t, job) else StartBuildStep(t, job);
      if startError.Some? then SendStep(u, ErrorMessage(ErrorText(startError.value))) else u
  }

  /**
   * Corrected, a failed staging is reported once, its files are deleted,
   * and the next `build-begin` with a successful staging starts a build.
   */
  lemma FailedSetupRecoversCorrected(s: Conn, simulate: bool, project: nat, job: nat, path: Option<string>, message: string,
                                     project2: nat, job2: nat, path2: string, mapping2: map<string, string>)
    requires s.connected && s.project.None? && s.build.None?
    ensures var t := BeginStepCorrected(s, simulate, project, job, StageFailed(path, message));
      var r := BeginStepCorrected(t, false, project2, job2, Staged(path2, mapping2));
      && t.project.None? && DeleteProject(project) in t.effects
      && t.outbox == s.outbox + [ErrorMessage(ErrorText(message))]
      && r.project == Some(Held(project2, Some(path2))) && r.build == Some(job2)
  {
  }

  // ------------------------------------- the simulation check, as written and as intended

  /**
   * As written, `StartSimulation` looks at `Build`: a connection that holds a
   * simulation but no project (a late build `close` cleared it) starts a
   * second simulation over the first, which is never terminated; and one that
   * holds a build is refused with the simulation message.
   */
  lemma SimulationCheckReadsBuild(s: Conn, project: nat, job: nat, path: string, mapping: map<string, string>)
    requires s.connected && s.project.None? && s.build.None? && s.simulation.Some? && s.simulation.value != job
    ensures var r := BeginStep(s, true, project, job, Staged(path, mapping));
      && r.simulation == Some(job)
      && r.effects == s.effects + [StageProject(project), NewSimulation(job, path), CheckSimulationQueue]
  {
  }

  /** `StartSimulation` as evidently intended: refuse while a simulation is held. */
  function StartSimulationStepCorrected(s: Conn, job: nat): (Conn, Option<string>)
  {
    if s.project.None? || s.project.value.path.None? then (s, Some(NoPath))
    else if s.simulation.Some? then (s, Some(BusySimulation))
    else (s.(simulation := Some(job), effects := s.effects + [NewSimulation(job, s.project.value.path.value), CheckSimulationQueue]), None)
  }

  /** Corrected, starting a simulation never replaces one the connection holds. */
  lemma StartSimulationKeepsHeldCorrected(s: Conn, job: nat)
    ensures var (r, e) := StartSimulationStepCorrected(s, job);
      && (s.simulation.Some? ==> e.Some? && r == s)
      && (e.None? <==> s.project.Some? && s.project.value.path.Some? && s.simulation.None?)
      && (e.None? ==> r.simulation == Some(job) && r.build == s.build && r.project == s.project)
  {
  }

  // ------------------------------------------------------------------ objects

  /** `Connection.Active`: the ids of the open connections, in order of arrival. */
  class ActiveConnections {
    var members: seq<nat>

    constructor()
      ensures members == []
    {
      members := [];
    }
  }

  /** One `Connection`, its fields updated in place. */
  class Connection {
    const id: nat
    const registry: ActiveConnections
    /** `Config.Simulation.VncClientUrl`. */
    const vncClientUrl: string
    var connected: bool
    var project: Option<Held>
    var build: Option<nat>
    var simulation: Option<nat>
    var outbox: seq<ServerMessage>
    var effects: seq<Effect>

    function Table(): Conn
      reads this
    {
      Conn(connected, project, build, simulation, outbox, effects)
    }

    /** The constructor: a new open connection joins `Connection.Active`. */
    constructor(id: nat, registry: ActiveConnections, vncClientUrl: string)
      modifies registry
      ensures this.id == id && this.registry == registry && this.vncClientUrl == vncClientUrl
      ensures Table() == Fresh && registry.members == old(registry.members) + [id]
    {
      this.id := id;
      this.registry := registry;
      this.vncClientUrl := vncClientUrl;
      connected, project, build, simulation, outbox, effects := true, None, None, None, [], [];
      registry.members := registry.members + [id];
    }

    method Send(m: ServerMessage)
      modifies this`outbox
      ensures Table() == SendStep(old(Table()), m)
    {
      if connected {
        outbox := outbox + [m];
      }
    }

    /**
     * `Message`; `project` and `job` name the objects a begin creates, and
     * `staging` is how the new project's `CreateDirectory` ends.
     */
    method Message(msg: ClientMessage, project: nat, job: nat, staging: Staging)
      modifies this
      ensures Table() == MessageStep(old(Table()), msg, project, job, staging)
    {
      match msg
      case BuildBeginRequest => Begin(false, project, job, staging);
      case IsimBeginRequest => Begin(true, project, job, staging);
      case BuildEndRequest => EndBuild();
      case IsimEndRequest => EndSimulation();
      case Unparsable =>
    }

    /** One `try`/`catch` of a begin request. */
    method Begin(simulate: bool, project: nat, job: nat, staging: Staging)
      modifies this
      ensures Table() == BeginStep(old(Table()), simulate, project, job, staging)
    {
      var setupError := SetupProject(project, staging);
      if setupError.Some? {
        Send(ErrorMessage(ErrorText(setupError.value)));
        return;
      }
      var startError;
      if simulate {
        startError := StartSimulation(job);
      } else {
        startError := StartBuild(job);
      }
      if startError.Some? {
        Send(ErrorMessage(ErrorText(startError.value)));
      }
    }

    /** `SetupProject`; the message of what it throws, if it does. */
    method SetupProject(id: nat, staging: Staging) returns (error: Option<string>)
      modifies this`project, this`effects, this`outbox
      ensures (Table(), error) == SetupStep(old(Table()), id, staging)
    {
      if project.Some? {
        return Some(BusyAction);
      }
      project := Some(Held(id, None));
      effects := effects + [StageProject(id)];
      match staging
      case StageFailed(dir, message) =>
        project := Some(Held(id, dir));
        error := Some(message);
      case Staged(path, mapping) =>
        project := Some(Held(id, Some(path)));
        Send(ProjectMapping(mapping));
        error := None;
    }

    method StartBuild(job: nat) returns (error: Option<string>)
      modifies this`build, this`effects
      ensures (Table(), error) == StartBuildStep(old(Table()), job)
    {
      if project.None? || project.value.path.None? {
        return Some(NoPath);
      }
      if build.Some? {
        return Some(BusyBuild);
      }
      build := Some(job);
      effects := effects + [NewBuild(job, project.value.path.value), CheckBuildQueue];
      error := None;
    }

    method StartSimulation(job: nat) returns (error: Option<string>)
      modifies this`simulation, this`effects
      ensures (Table(), error) == StartSimulationStep(old(Table()), job)
    {
      if project.None? || project.value.path.None? {
        return Some(NoPath);
      }
      if build.Some? {
        return Some(BusySimulation);
      }
      simulation := Some(job);
      effects := effects + [NewSimulation(job, project.value.path.value), CheckSimulationQueue];
      error := None;
    }

    /** The build's `ready` listener. */
    method OnBuildReady()
      modifies this`outbox
      ensures Table() == SendStep(old(Table()), BuildBegin)
    {
      Send(BuildBegin);
    }

    /** The build's `stdout` and `stderr` listeners. */
    method OnBuildOutput(stderr: bool, line: string)
      modifies this`outbox
      ensures Table() == SendStep(old(Table()), BuildOutput(stderr, line))
    {
      Send(BuildOutput(stderr, line));
    }

    /** The build's `queue` listener; `queueLength` is `Build.Queue.length` at that moment. */
    method OnBuildQueue(pos: nat, queueLength: nat)
      modifies this`outbox
      ensures Table() == SendStep(old(Table()), BuildQueue(pos, queueLength))
    {
      Send(BuildQueue(pos, queueLength));
    }

    /** The build's `close` listener. */
    method OnBuildClose(result: Builds.BuildResult)
      modifies this`outbox, this`effects, this`project, this`build
      ensures Table() == BuildClosedStep(old(Table()), result)
    {
      Send(BuildEnd(result));
      if project.Some? {
        effects := effects + [DeleteProject(project.value.id)];
      }
      project := None;
      build := None;
    }

    /** The simulation's `ready` listener; `token` is its display's token. */
    method OnSimulationReady(token: string)
      modifies this`outbox
      ensures Table() == SendStep(old(Table()), IsimBegin(VncUrl(vncClientUrl, token)))
    {
      Send(IsimBegin(VncUrl(vncClientUrl, token)));
    }

    /** The simulation's `isimout` and `isimerr` listeners. */
    method OnSimulationOutput(stderr: bool, line: string)
      modifies this`outbox
      ensures Table() == SendStep(old(Table()), IsimOutput(stderr, line))
    {
      Send(IsimOutput(stderr, line));
    }

    /** The simulation's `queue` listener; `queueLength` is `Simulation.Queue.length` at that moment. */
    method OnSimulationQueue(pos: nat, queueLength: nat)
      modifies this`outbox
      ensures Table() == SendStep(old(Table()), IsimQueue(pos, queueLength))
    {
      Send(IsimQueue(pos, queueLength));
    }

    /** The simulation's `close` listener. */
    method OnSimulationClose()
      modifies this`outbox, this`effects, this`project, this`simulation
      ensures Table() == SimulationClosedStep(old(Table()))
    {
      Send(IsimEnd);
      if project.Some? {
        effects := effects + [DeleteProject(project.value.id)];
      }
      project := None;
      simulation := None;
    }

    method EndBuild()
      modifies this`outbox, this`effects, this`project, this`build
      ensures Table() == EndBuildStep(old(Table()))
    {
      if build.Some? {
        effects := effects + [TerminateBuild(build.value)];
        OnBuildClose(Builds.Aborted);
        build := None;
      }
    }

    method EndSimulation()
      modifies this`outbox, this`effects, this`project, this`simulation
      ensures Table() == EndSimulationStep(old(Table()))
    {
      if simulation.Some? {
        effects := effects + [TerminateSimulation(simulation.value)];
        OnSimulationClose();
        simulation := None;
      }
    }

    /** The socket's `close` handler. */
    method Closed()
      modifies this, registry
      ensures Table() == ClosedStep(old(Table()))
      ensures registry.members == Without(old(registry.members), id)
    {
      registry.members := Without(registry.members, id);
      connected := false;
      if build.None? && simulation.None? {
        if project.Some? {
          effects := effects + [DeleteProject(project.value.id)];
        }
        project := None;
      }
      EndBuild();
      EndSimulation();
    }
  }
}

/**
 * The legacy build task (src/build/Build.ts): the static `Build.Queue` and
 * `Build.Active` lists, the admission loop `CheckQueue`, `Start`, the result
 * assembled when `make` exits, `Terminate` and `Running`.
 *
 * Every build object is named by a unique id. The per-object fields
 * (`Terminated`, whether `Process` exists, `Process.killed`, whether the
 * `close` listeners were removed) become sets of ids, and everything the
 * build emits or does to its process is appended to `events`.
 *
 * `Registry` is the whole state as a value and the `...Step` functions say
 * what each operation does to it; `BuildRegistry` holds the same state in
 * fields and its methods are proved against those functions.
 */
module Builds {
  import opened Wrappers
  import opened Lists
  import Admissions

  /**
   * The `BuildResult` sent to listeners; binaries are base64 text. The exit
   * status is `None` (`null`) when a signal ended `make`.
   */
  datatype BuildResult = BuildResult(
    exitStatus: Option<int>,
    fpgaBinary: Option<string>,
    mcuV1Binary: Option<string>,
    mcuV2Binary: Option<string>)

  /** What a build emits (`queue`, `ready`, `close`) and does (spawn, kill). */
  datatype BuildEvent =
    | Queued(id: nat, pos: nat)
    | Ready(id: nat)
    | Spawned(id: nat)
    | Closed(id: nat, result: BuildResult)
    | Killed(id: nat)

  datatype Registry = Registry(
    queue: seq<nat>,
    active: seq<nat>,
    paths: map<nat, string>,
    terminated: set<nat>,
    started: set<nat>,
    killed: set<nat>,
    muted: set<nat>,
    exited: set<nat>,
    events: seq<BuildEvent>)

  const Empty := Registry([], [], map[], {}, {}, {}, {}, {}, [])

  /** The result `Terminate` reports. */
  const Aborted := BuildResult(Some(-1), None, None, None)

  /** The loop condition of `CheckQueue`, `<=` as written. */
  predicate Open(limit: int, active: seq<nat>)
  {
    limit == -1 || |active| <= limit
  }

  /** The constructor: a new build joins the end of the queue. */
  function CreateStep(s: Registry, id: nat, path: string): Registry
    requires id !in s.paths
  {
    s.(queue := s.queue + [id], paths := s.paths[id := path])
  }

  type Admission = Admissions.Admission

  /**
   * The `while` loop of `CheckQueue`: shift the head, push it, and `Start`
   * it, which filters it out of the queue and pushes it a second time.
   */
  function Admit(queue: seq<nat>, active: seq<nat>, limit: int): (r: Admission)
    decreases |queue|
  {
    if !Open(limit, active) || queue == [] then Admissions.Admission(queue, active, [])
    else
      var first := queue[0];
      var r := Admit(Without(queue[1..], first), active + [first, first], limit);
      Admissions.Admission(r.queue, r.active, [first] + r.taken)
  }

  /** `ready` then the spawn of `make`, for each started build in turn. */
  function StartEvents(taken: seq<nat>): (r: seq<BuildEvent>)
    ensures |r| == 2 * |taken|
    ensures forall i :: 0 <= i < |r| ==> r[i].Ready? || r[i].Spawned?
    ensures forall i :: 0 <= i < |taken| ==> r[2 * i] == Ready(taken[i]) && r[2 * i + 1] == Spawned(taken[i])
  {
    if taken == [] then []
    else
      var init := taken[..|taken| - 1];
      var last := taken[|taken| - 1];
      var r := StartEvents(init) + [Ready(last), Spawned(last)];
      assert forall i :: 0 <= i < |init| ==> taken[i] == init[i];
      r
  }

  /** `queue(i + 1)` to the build at index `i` of the queue. */
  function Positions(queue: seq<nat>): (r: seq<BuildEvent>)
    ensures |r| == |queue|
    ensures forall i :: 0 <= i < |r| ==> r[i] == Queued(queue[i], i + 1)
  {
    seq(|queue|, i requires 0 <= i < |queue| => Queued(queue[i], i + 1))
  }

  /**
   * `CheckQueue`: the admission loop, then every queued build hears its
   * position. Only the lists, the started builds and the log change; the
   * log only grows, and by no `close` and no kill.
   */
  function CheckQueueStep(s: Registry, limit: int): (r: Registry)
    ensures r.paths == s.paths && r.terminated == s.terminated && r.killed == s.killed
    ensures r.muted == s.muted && r.exited == s.exited && s.started <= r.started
    ensures |s.events| <= |r.events| && r.events[..|s.events|] == s.events
    ensures forall i :: |s.events| <= i < |r.events| ==> !r.events[i].Closed? && !r.events[i].Killed?
  {
    var a := Admit(s.queue, s.active, limit);
    s.(queue := a.queue, active := a.active, started := s.started + Members(a.taken),
       events := s.events + PassEvents(a))
  }

  /** What a pass emits: the starts in order, then the positions of those still queued. */
  function PassEvents(a: Admission): (r: seq<BuildEvent>)
    ensures forall i :: 0 <= i < |r| ==> !r[i].Closed? && !r[i].Killed?
  {
    StartEvents(a.taken) + Positions(a.queue)
  }

  /**
   * `Terminate`: flag, leave both lists, re-check the queue, emit
   * `close(-1)`, kill. The build ends terminated, a spawned process ends
   * killed, the log only grows, and attached listeners hear `close(-1)`.
   */
  function TerminateStep(s: Registry, id: nat, limit: int): (r: Registry)
    ensures id in r.terminated && s.terminated <= r.terminated && r.muted == s.muted
    ensures id in r.started ==> id in r.killed
    ensures |s.events| <= |r.events| && r.events[..|s.events|] == s.events
    ensures id !in s.muted ==> Closed(id, Aborted) in r.events[|s.events|..]
  {
    var t := s.(terminated := s.terminated + {id},
                 active := Without(s.active, id), queue := Without(s.queue, id));
    var c := CheckQueueStep(t, limit);
    var r := Closing(c, id);
    assert id !in s.muted ==> r.events[|s.events|..][|c.events| - |s.events|] == Closed(id, Aborted);
    r
  }

  /**
   * The end of `Terminate`: emit `close(-1)` to listeners still attached,
   * kill unless killed. Nothing but the log and this build's kill changes.
   */
  function Closing(c: Registry, id: nat): (r: Registry)
    ensures r.queue == c.queue && r.active == c.active && r.paths == c.paths && r.started == c.started
    ensures r.terminated == c.terminated && r.muted == c.muted && r.exited == c.exited
    ensures r.killed - {id} == c.killed - {id} && (id in c.killed ==> id in r.killed)
    ensures id in r.started ==> id in r.killed
    ensures |c.events| <= |r.events| <= |c.events| + 2 && r.events[..|c.events|] == c.events
    ensures id !in c.muted ==> |c.events| < |r.events| && r.events[|c.events|] == Closed(id, Aborted)
    ensures id in c.muted ==> forall i :: |c.events| <= i < |r.events| ==> !r.events[i].Closed?
  {
    var heard := c.(events := c.events + (if id in c.muted then [] else [Closed(id, Aborted)]));
    if id !in heard.started || id in heard.killed then heard
    else heard.(killed := heard.killed + {id}, events := heard.events + [Killed(id)])
  }

  /**
   * The result of an exit with `code` (`None` when a signal ended `make`);
   * `fpga`, `mcuV1` and `mcuV2` are the three binaries as read, `None` where
   * reading failed.
   */
  function ExitResult(code: Option<int>, fpga: Option<string>, mcuV1: Option<string>, mcuV2: Option<string>): (r: BuildResult)
    ensures r.exitStatus == code
    ensures code != Some(0) ==> r.fpgaBinary.None? && r.mcuV1Binary.None? && r.mcuV2Binary.None?
    ensures code == Some(0) ==> r.fpgaBinary == fpga && r.mcuV1Binary == mcuV1 && r.mcuV2Binary == mcuV2
  {
    if code == Some(0) then BuildResult(code, fpga, mcuV1, mcuV2)
    else BuildResult(code, None, None, None)
  }

  /**
   * `CloseEvent`: emit the result, drop the `close` listeners, terminate
   * unless already done. Afterwards the build has exited, is terminated and
   * muted; the log only grows, first by the result if anyone listened.
   */
  function CloseEventStep(s: Registry, id: nat, limit: int, code: Option<int>,
                          fpga: Option<string>, mcuV1: Option<string>, mcuV2: Option<string>): (r: Registry)
    ensures id in r.exited && id in r.terminated && id in r.muted
    ensures |s.events| <= |r.events| && r.events[..|s.events|] == s.events
    ensures id !in s.muted ==> |s.events| < |r.events| && r.events[|s.events|] == Closed(id, ExitResult(code, fpga, mcuV1, mcuV2))
  {
    var heard := if id in s.muted then [] else [Closed(id, ExitResult(code, fpga, mcuV1, mcuV2))];
    var c := s.(events := s.events + heard, muted := s.muted + {id}, exited := s.exited + {id});
    if id in c.terminated then c else TerminateStep(c, id, limit)
  }

  /** `Running`. */
  predicate Running(s: Registry, id: nat)
  {
    id in s.active
  }

  // ---------------------------------------------------------------- counting

  /** How many `close` events listeners of build `id` have heard. */
  function ClosesHeard(events: seq<BuildEvent>, id: nat): nat
  {
    if events == [] then 0
    else ClosesHeard(events[..|events| - 1], id)
         + (if events[|events| - 1].Closed? && events[|events| - 1].id == id then 1 else 0)
  }

  /** How many times the process of build `id` was killed. */
  function Kills(events: seq<BuildEvent>, id: nat): nat
  {
    if events == [] then 0
    else Kills(events[..|events| - 1], id)
         + (if events[|events| - 1].Killed? && events[|events| - 1].id == id then 1 else 0)
  }

  lemma {:induction false} CountsAppend(a: seq<BuildEvent>, b: seq<BuildEvent>, id: nat)
    ensures ClosesHeard(a + b, id) == ClosesHeard(a, id) + ClosesHeard(b, id)
    ensures Kills(a + b, id) == Kills(a, id) + Kills(b, id)
    decreases |b|
  {
    if b != [] {
      var b' := b[..|b| - 1];
      var e := b[|b| - 1];
      assert (a + b)[..|a + b| - 1] == a + b';
      assert (a + b)[|a + b| - 1] == e;
      CountsAppend(a, b', id);
      assert ClosesHeard(a + b, id) == ClosesHeard(a + b', id) + (if e.Closed? && e.id == id then 1 else 0);
      assert Kills(a + b, id) == Kills(a + b', id) + (if e.Killed? && e.id == id then 1 else 0);
    } else {
      assert a + b == a;
    }
  }

  /** Events that are neither closes nor kills do not move either count. */
  lemma {:induction false} QuietEvents(b: seq<BuildEvent>, id: nat)
    requires forall i :: 0 <= i < |b| ==> !b[i].Closed? && !b[i].Killed?
    ensures ClosesHeard(b, id) == 0 && Kills(b, id) == 0
    decreases |b|
  {
    if b != [] {
      QuietEvents(b[..|b| - 1], id);
    }
  }

  /** A queue pass neither closes nor kills anything. */
  lemma CheckQueueQuiet(s: Registry, limit: int, id: nat)
    ensures ClosesHeard(CheckQueueStep(s, limit).events, id) == ClosesHeard(s.events, id)
    ensures Kills(CheckQueueStep(s, limit).events, id) == Kills(s.events, id)
  {
    var a := Admit(s.queue, s.active, limit);
    QuietEvents(PassEvents(a), id);
    CountsAppend(s.events, PassEvents(a), id);
  }

  /**
   * `Terminate` as evidently intended: like the natural exit, it removes the
   * `close` listeners once it has emitted, so a later process exit is silent.
   */
  function TerminateStepCorrected(s: Registry, id: nat, limit: int): Registry
  {
    var t := TerminateStep(s, id, limit);
    t.(muted := t.muted + {id})
  }

  /** Corrected, a terminated build whose process then exits is heard closing once. */
  lemma TerminatedThenExitHeardOnceCorrected(s: Registry, id: nat, limit: int, code: Option<int>,
                                             fpga: Option<string>, mcuV1: Option<string>, mcuV2: Option<string>)
    requires Valid(s) && limit >= -1 && id !in s.muted
    ensures var t := TerminateStepCorrected(s, id, limit);
      var r := CloseEventStep(t, id, limit, code, fpga, mcuV1, mcuV2);
      ClosesHeard(r.events, id) == ClosesHeard(s.events, id) + 1 && id in t.muted
  {
    TerminateStops(s, id, limit);
    var t := TerminateStepCorrected(s, id, limit);
    assert id in t.terminated && id in t.muted;
    assert t.events + [] == t.events;
  }

  // ------------------------------------------------------ admission as written

  /** Each element twice in a row: what the double push leaves in `Active`. */
  function Doubled(xs: seq<nat>): (r: seq<nat>)
    ensures |r| == 2 * |xs|
    ensures forall x :: x in r <==> x in xs
  {
    if xs == [] then [] else [xs[0], xs[0]] + Doubled(xs[1..])
  }

  /** How many builds one pass admits as written. */
  function AdmittedAsWritten(queued: nat, running: nat, limit: int): nat
    requires limit >= -1
  {
    if limit == -1 then queued
    else if running > limit then 0
    else Min(queued, (limit - running) / 2 + 1)
  }

  /**
   * As written, a pass admits the first `AdmittedAsWritten(...)` queued
   * builds and each of them lands in `Active` twice: with `limit` L and
   * nothing running that is L / 2 + 1 builds, not L.
   */
  lemma {:induction false} AdmitAsWritten(queue: seq<nat>, active: seq<nat>, limit: int)
    requires limit >= -1 && Distinct(queue)
    ensures var k := AdmittedAsWritten(|queue|, |active|, limit);
      var r := Admit(queue, active, limit);
      && k <= |queue| && r.queue == queue[k..] && r.taken == queue[..k]
      && r.active == active + Doubled(queue[..k])
    decreases |queue|
  {
    var k := AdmittedAsWritten(|queue|, |active|, limit);
    if Open(limit, active) && queue != [] {
      AdmitHead(queue, active, limit);
      AdmitAsWritten(queue[1..], active + [queue[0], queue[0]], limit);
      AdmittedStep(|queue|, |active|, limit);
      SplitHead(queue, k);
    } else {
      assert k == 0;
    }
  }

  /** One turn of the admission loop. */
  lemma AdmitUnfold(queue: seq<nat>, active: seq<nat>, limit: int)
    requires Open(limit, active) && queue != []
    ensures var r := Admit(Without(queue[1..], queue[0]), active + [queue[0], queue[0]], limit);
      Admit(queue, active, limit) == Admissions.Admission(r.queue, r.active, [queue[0]] + r.taken)
  {
  }

  lemma SeqFacts(a: seq<BuildEvent>, b: seq<BuildEvent>, c: seq<BuildEvent>, active: seq<nat>, x: nat)
    ensures a + b + c == a + (b + c)
    ensures active + [x] + [x] == active + [x, x]
  {
  }

  /** The loop stops when the head may not start or the queue is empty. */
  lemma AdmitDone(queue: seq<nat>, active: seq<nat>, limit: int)
    requires !Open(limit, active) || queue == []
    ensures Admit(queue, active, limit) == Admissions.Admission(queue, active, [])
  {
  }

  /** One turn of the admission loop keeps what is left to admit. */
  lemma AdmitTurn(queue: seq<nat>, active: seq<nat>, taken: seq<nat>, total: Admission, limit: int)
    requires Open(limit, active) && queue != []
    requires var a := Admit(queue, active, limit);
      a.queue == total.queue && a.active == total.active && taken + a.taken == total.taken
    ensures var first := queue[0];
      var a := Admit(Without(queue[1..], first), active + [first, first], limit);
      a.queue == total.queue && a.active == total.active && (taken + [first]) + a.taken == total.taken
  {
    var first := queue[0];
    AdmitUnfold(queue, active, limit);
    var r := Admit(Without(queue[1..], first), active + [first, first], limit);
    assert taken + ([first] + r.taken) == (taken + [first]) + r.taken;
  }

  /** Starting one more build adds its `ready` and spawn, and the build, at the end. */
  lemma TakeOne(taken: seq<nat>, first: nat)
    ensures StartEvents(taken + [first]) == StartEvents(taken) + [Ready(first), Spawned(first)]
    ensures Members(taken + [first]) == Members(taken) + {first}
  {
    assert (taken + [first])[..|taken|] == taken;
  }

  /** On a distinct queue the filter in `Start` removes nothing more. */
  lemma AdmitHead(queue: seq<nat>, active: seq<nat>, limit: int)
    requires Open(limit, active) && queue != [] && Distinct(queue)
    ensures Distinct(queue[1..])
    ensures var r := Admit(queue[1..], active + [queue[0], queue[0]], limit);
      Admit(queue, active, limit) == Admissions.Admission(r.queue, r.active, [queue[0]] + r.taken)
  {
    assert Without(queue[1..], queue[0]) == queue[1..];
  }

  lemma SplitHead(q: seq<nat>, k: nat)
    requires 1 <= k <= |q|
    ensures q[..k] == [q[0]] + q[1..][..k - 1] && q[1..][k - 1..] == q[k..]
    ensures Doubled(q[..k]) == [q[0], q[0]] + Doubled(q[1..][..k - 1])
  {
    assert q[..k][1..] == q[1..][..k - 1];
  }

  /** Admitting one build takes one from the queue and two places in `Active`. */
  lemma AdmittedStep(queued: nat, running: nat, limit: int)
    requires limit >= -1 && queued >= 1 && (limit == -1 || running <= limit)
    ensures AdmittedAsWritten(queued, running, limit) == AdmittedAsWritten(queued - 1, running + 2, limit) + 1
  {
    if limit >= 0 {
      var n := limit - running;
      if n >= 2 {
        assert (n - 2) / 2 + 1 == n / 2;
      } else {
        assert n / 2 == 0;
      }
    }
  }

  /** With a limit of three and three builds waiting, only two run; the third waits. */
  lemma LimitThreeRunsTwo()
    ensures Admit([1, 2, 3], [], 3).queue == [3]
    ensures Admit([1, 2, 3], [], 3).active == [1, 1, 2, 2]
  {
    var q: seq<nat> := [1, 2, 3];
    assert Distinct([3]) && Distinct([2, 3]) && Distinct(q) by {
      assert q[1..] == [2, 3] && [2, 3][1..] == [3];
    }
    AdmitAsWritten(q, [], 3);
    assert AdmittedAsWritten(3, 0, 3) == 2;
    assert q[2..] == [3] && q[..2] == [1, 2];
    assert Doubled([2]) == [2, 2] by {
      assert [2][1..] == [];
    }
    assert Doubled([1, 2]) == [1, 1] + Doubled([2]) by {
      assert [1, 2][1..] == [2];
    }
  }

  // -------------------------------------------------------------- properties

  /** The lists as the source keeps them: a queued build is queued once and has not started. */
  ghost predicate Valid(s: Registry)
  {
    && Distinct(s.queue)
    && (forall x :: x in s.queue ==> x in s.paths && x !in s.started)
    && (forall x :: x in s.active ==> x in s.paths)
    && s.killed <= s.started
    && (forall id :: Kills(s.events, id) == (if id in s.killed then 1 else 0))
  }

  lemma EmptyValid()
    ensures Valid(Empty)
  {
    forall id ensures Kills(Empty.events, id) == 0 { }
  }

  lemma CreateKeepsValid(s: Registry, id: nat, path: string)
    requires Valid(s) && id !in s.paths && id !in s.started
    ensures Valid(CreateStep(s, id, path))
  {
    DistinctSnoc(s.queue, id);
  }

  lemma CheckQueueKeepsValid(s: Registry, limit: int)
    requires Valid(s) && limit >= -1
    ensures Valid(CheckQueueStep(s, limit))
  {
    var a := Admit(s.queue, s.active, limit);
    AdmitAsWritten(s.queue, s.active, limit);
    var k := AdmittedAsWritten(|s.queue|, |s.active|, limit);
    var r := CheckQueueStep(s, limit);
    DistinctSplit(s.queue, k);
    assert r.queue == s.queue[k..] && r.active == s.active + Doubled(s.queue[..k]);
    forall x | x in r.queue ensures x in r.paths && x !in r.started {
      assert x in s.queue && x !in s.queue[..k];
    }
    forall x | x in r.active ensures x in r.paths {
      if x !in s.active {
        assert x in Doubled(s.queue[..k]);
        assert x in s.queue;
      }
    }
    forall id ensures Kills(r.events, id) == (if id in r.killed then 1 else 0) {
      CheckQueueQuiet(s, limit, id);
    }
  }

  /**
   * After `Terminate` the build is neither running nor queued, its listeners
   * have heard one more `close` unless they were removed, and its process
   * has been killed exactly once if it was ever spawned.
   */
  lemma TerminateStops(s: Registry, id: nat, limit: int)
    requires Valid(s) && limit >= -1
    ensures var r := TerminateStep(s, id, limit);
      && Valid(r)
      && !Running(r, id) && id !in r.queue && id in r.terminated && r.muted == s.muted
      && ClosesHeard(r.events, id) == ClosesHeard(s.events, id) + (if id in s.muted then 0 else 1)
      && Kills(r.events, id) == (if id in s.started then 1 else 0)
      && |s.events| <= |r.events| && r.events[..|s.events|] == s.events
  {
    var t := s.(terminated := s.terminated + {id},
                 active := Without(s.active, id), queue := Without(s.queue, id));
    WithoutDistinct(s.queue, id);
    assert Valid(t);
    CheckQueueLeaves(t, limit, id);
    ClosingCounts(CheckQueueStep(t, limit), id);
  }

  /** A queue pass keeps the lists valid and never brings back a build that left both lists. */
  lemma CheckQueueLeaves(s: Registry, limit: int, id: nat)
    requires Valid(s) && limit >= -1 && id !in s.queue && id !in s.active
    ensures var r := CheckQueueStep(s, limit);
      && Valid(r) && id !in r.queue && id !in r.active
      && (id in r.started <==> id in s.started)
      && r.muted == s.muted && r.killed == s.killed && r.terminated == s.terminated
      && ClosesHeard(r.events, id) == ClosesHeard(s.events, id)
      && |s.events| <= |r.events| && r.events[..|s.events|] == s.events
  {
    CheckQueueKeepsValid(s, limit);
    CheckQueueQuiet(s, limit, id);
    AdmitAsWritten(s.queue, s.active, limit);
    var k := AdmittedAsWritten(|s.queue|, |s.active|, limit);
    var a := Admit(s.queue, s.active, limit);
    assert id !in s.queue[..k];
    assert id !in Doubled(s.queue[..k]);
  }

  /** `close(-1)` is heard unless the listeners are gone; the kill happens once. */
  lemma ClosingCounts(c: Registry, id: nat)
    requires Valid(c) && id !in c.queue
    ensures var r := Closing(c, id);
      && Valid(r)
      && r.queue == c.queue && r.active == c.active && r.muted == c.muted && r.terminated == c.terminated
      && ClosesHeard(r.events, id) == ClosesHeard(c.events, id) + (if id in c.muted then 0 else 1)
      && Kills(r.events, id) == (if id in c.started then 1 else 0)
      && |c.events| <= |r.events| && r.events[..|c.events|] == c.events
  {
    var closes := if id in c.muted then [] else [Closed(id, Aborted)];
    var heard := c.(events := c.events + closes);
    forall k ensures Kills(heard.events, k) == Kills(c.events, k)
      && ClosesHeard(heard.events, k) == ClosesHeard(c.events, k) + (if k == id && id !in c.muted then 1 else 0) {
      CountsAppend(c.events, closes, k);
    }
    if id in heard.started && id !in heard.killed {
      var r := heard.(killed := heard.killed + {id}, events := heard.events + [Killed(id)]);
      forall k ensures Kills(r.events, k) == (if k in r.killed then 1 else 0)
        && ClosesHeard(r.events, k) == ClosesHeard(heard.events, k) {
        CountsAppend(heard.events, [Killed(id)], k);
      }
      assert r.events[..|c.events|] == c.events;
    }
  }

  /**
   * On a natural exit of a build nobody terminated, its listeners hear
   * exactly one more `close`, carrying the exit result, because the
   * listeners are removed before `Terminate` emits its own.
   */
  lemma NaturalExitHeardOnce(s: Registry, id: nat, limit: int, code: Option<int>,
                             fpga: Option<string>, mcuV1: Option<string>, mcuV2: Option<string>)
    requires Valid(s) && limit >= -1 && id !in s.muted && id !in s.terminated
    ensures var r := CloseEventStep(s, id, limit, code, fpga, mcuV1, mcuV2);
      && Valid(r) && !Running(r, id) && id in r.muted
      && ClosesHeard(r.events, id) == ClosesHeard(s.events, id) + 1
      && r.events[|s.events|] == Closed(id, ExitResult(code, fpga, mcuV1, mcuV2))
  {
    var heard := [Closed(id, ExitResult(code, fpga, mcuV1, mcuV2))];
    var c := s.(events := s.events + heard, muted := s.muted + {id}, exited := s.exited + {id});
    forall k ensures Kills(c.events, k) == Kills(s.events, k) {
      CountsAppend(s.events, heard, k);
    }
    CountsAppend(s.events, heard, id);
    TerminateStops(c, id, limit);
    var r := TerminateStep(c, id, limit);
    assert r.events[|s.events|] == r.events[..|c.events|][|s.events|];
  }

  /**
   * A process exit after the build has already been terminated (a kill
   * makes `make` exit) is heard too: listeners see a second `close`.
   */
  lemma TerminatedThenExitHeardTwice(s: Registry, id: nat, limit: int, code: Option<int>,
                                      fpga: Option<string>, mcuV1: Option<string>, mcuV2: Option<string>)
    requires Valid(s) && limit >= -1 && id !in s.muted
    ensures var t := TerminateStep(s, id, limit);
      var r := CloseEventStep(t, id, limit, code, fpga, mcuV1, mcuV2);
      ClosesHeard(r.events, id) == ClosesHeard(s.events, id) + 2
  {
    TerminateStops(s, id, limit);
    var t := TerminateStep(s, id, limit);
    assert id in t.terminated && id !in t.muted;
    var heard := [Closed(id, ExitResult(code, fpga, mcuV1, mcuV2))];
    assert CloseEventStep(t, id, limit, code, fpga, mcuV1, mcuV2)
        == t.(events := t.events + heard, muted := t.muted + {id}, exited := t.exited + {id});
    assert ClosesHeard(heard, id) == 1 by {
      assert heard[..0] == [];
    }
    CountsAppend(t.events, heard, id);
  }

  // ------------------------------------------------------------------ objects

  /** The static lists and the per-build fields, updated in place. */
  class BuildRegistry {
    /** `Config.Build.MaxActiveTasks`; -1 means no limit. */
    const limit: int
    var queue: seq<nat>
    var active: seq<nat>
    var paths: map<nat, string>
    var terminated: set<nat>
    var started: set<nat>
    var killed: set<nat>
    var muted: set<nat>
    var exited: set<nat>
    var events: seq<BuildEvent>

    function Table(): Registry
      reads this
    {
      Registry(queue, active, paths, terminated, started, killed, muted, exited, events)
    }

    constructor(limit: int)
      ensures this.limit == limit && Table() == Empty
    {
      this.limit := limit;
      queue, active, paths := [], [], map[];
      terminated, started, killed, muted, exited := {}, {}, {}, {}, {};
      events := [];
    }

    /** `new Build(projectPath)`. */
    method Create(id: nat, path: string)
      requires id !in paths
      modifies this
      ensures Table() == CreateStep(old(Table()), id, path)
    {
      queue := queue + [id];
      paths := paths[id := path];
    }

    method Start(id: nat)
      modifies this`queue, this`active, this`started, this`events
      ensures queue == Without(old(queue), id) && active == old(active) + [id]
      ensures started == old(started) + {id} && events == old(events) + [Ready(id), Spawned(id)]
    {
      queue := Without(queue, id);
      active := active + [id];
      events := events + [Ready(id)];
      started := started + {id};
      events := events + [Spawned(id)];
    }

    method CheckQueue()
      modifies this
      ensures Table() == CheckQueueStep(old(Table()), limit)
    {
      ghost var s := Table();
      ghost var a := Admit(queue, active, limit);
      AdmitQueued();
      AnnouncePositions();
      SeqFacts(s.events, StartEvents(a.taken), Positions(a.queue), [], 0);
      assert events == s.events + PassEvents(a);
      assert Table() == s.(queue := a.queue, active := a.active, started := s.started + Members(a.taken),
                           events := s.events + PassEvents(a));
    }

    /** The admission loop of `CheckQueue`. */
    method AdmitQueued()
      modifies this`queue, this`active, this`started, this`events
      ensures var a := Admit(old(queue), old(active), limit);
        queue == a.queue && active == a.active && started == old(started) + Members(a.taken)
        && events == old(events) + StartEvents(a.taken)
    {
      ghost var total := Admit(queue, active, limit);
      ghost var taken: seq<nat> := [];
      while Open(limit, active)
        invariant var a := Admit(queue, active, limit);
          a.queue == total.queue && a.active == total.active && taken + a.taken == total.taken
        invariant events == old(events) + StartEvents(taken)
        invariant started == old(started) + Members(taken)
        decreases |queue|
      {
        if queue == [] {
          break;
        }
        var first := queue[0];
        ghost var q0, a0 := queue, active;
        AdmitTurn(queue, active, taken, total, limit);
        TakeOne(taken, first);
        queue := queue[1..];
        active := active + [first];
        Start(first);
        SeqFacts(old(events), StartEvents(taken), [Ready(first), Spawned(first)], a0, first);
        taken := taken + [first];
      }
      AdmitDone(queue, active, limit);
      assert taken + [] == taken;
    }

    /** The `for` loop of `CheckQueue`: `queue(i + 1)` to each queued build. */
    method AnnouncePositions()
      modifies this`events
      ensures events == old(events) + Positions(queue)
    {
      var i := 0;
      assert Positions(queue)[..i] == [];
      while i < |queue|
        invariant 0 <= i <= |queue|
        invariant events == old(events) + Positions(queue)[..i]
      {
        events := events + [Queued(queue[i], i + 1)];
        i := i + 1;
        assert Positions(queue)[..i] == Positions(queue)[..i - 1] + [Queued(queue[i - 1], i)];
      }
      assert Positions(queue)[..i] == Positions(queue);
    }

    method Terminate(id: nat)
      modifies this
      ensures Table() == TerminateStep(old(Table()), id, limit)
    {
      terminated := terminated + {id};
      active := Without(active, id);
      queue := Without(queue, id);
      CheckQueue();
      Close(id);
    }

    /** The last two statements of `Terminate`. */
    method Close(id: nat)
      modifies this`events, this`killed
      ensures Table() == Closing(old(Table()), id)
    {
      if id !in muted {
        events := events + [Closed(id, Aborted)];
      }
      if id in started && id !in killed {
        killed := killed + {id};
        events := events + [Killed(id)];
      }
    }

    /** The `close` handler of the `make` process, which closes once. */
    method CloseEvent(id: nat, code: Option<int>, fpga: Option<string>, mcuV1: Option<string>, mcuV2: Option<string>)
      requires id in started && id !in exited
      modifies this
      ensures Table() == CloseEventStep(old(Table()), id, limit, code, fpga, mcuV1, mcuV2)
    {
      var result := ExitResult(code, fpga, mcuV1, mcuV2);
      ghost var heard := if id in muted then [] else [Closed(id, result)];
      if id !in muted {
        events := events + [Closed(id, result)];
      }
      muted := muted + {id};
      exited := exited + {id};
      assert events == old(events) + heard;
      ghost var c := Table();
      assert c == old(Table()).(events := old(events) + heard, muted := old(muted) + {id}, exited := old(exited) + {id});
      if id !in terminated {
        Terminate(id);
      }
    }

    predicate IsRunning(id: nat)
      reads this
    {
      Running(Table(), id)
    }
  }
}

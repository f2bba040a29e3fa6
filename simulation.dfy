/**
 * The legacy simulation session (src/simulation/Simulation.ts): the static
 * `Simulation.Queue` and `Simulation.Active` lists, `CheckQueue`, `Start`,
 * `DisplayReady`, `ProcessClosed` and `Terminate`.
 *
 * Every simulation object is named by a unique id. Its fields become sets
 * of ids: `displayed` (its `Display` exists), `spawned` (its window manager
 * and isim exist), `terminated`, and whether the display process or the
 * two child processes have been killed. What the simulation emits and does
 * to its processes is appended to `events`.
 *
 * `Sessions` is the whole state as a value and the `...Step` functions say
 * what each operation does to it; `SimulationRegistry` holds the same state
 * in fields and its methods are proved against those functions.
 */
module Simulations {
  import opened Lists
  import opened Admissions

  /** What a simulation emits (`queue`, `ready`, `close`) and does to its processes. */
  datatype SimEvent =
    | Queued(id: nat, pos: nat)
    | DisplayStarted(id: nat)
    | ChildrenStarted(id: nat)
    | Ready(id: nat)
    | Closed(id: nat)
    | ChildrenKilled(id: nat)
    | DisplayKilled(id: nat)

  datatype Sessions = Sessions(
    queue: seq<nat>,
    active: seq<nat>,
    paths: map<nat, string>,
    terminated: set<nat>,
    displayed: set<nat>,
    spawned: set<nat>,
    childrenKilled: set<nat>,
    displayKilled: set<nat>,
    events: seq<SimEvent>)

  const Empty := Sessions([], [], map[], {}, {}, {}, {}, {}, [])

  /** The constructor: a new simulation joins the end of the queue. */
  function CreateStep(s: Sessions, id: nat, path: string): Sessions
    requires id !in s.paths
  {
    s.(queue := s.queue + [id], paths := s.paths[id := path])
  }

  /** `Start` creates the display, for each admitted simulation in turn. */
  function StartEvents(taken: seq<nat>): (r: seq<SimEvent>)
    ensures |r| == |taken|
    ensures forall i :: 0 <= i < |r| ==> r[i] == DisplayStarted(taken[i])
  {
    seq(|taken|, i requires 0 <= i < |taken| => DisplayStarted(taken[i]))
  }

  /** `queue(i + 1)` to the simulation at index `i` of the queue. */
  function Positions(queue: seq<nat>): (r: seq<SimEvent>)
    ensures |r| == |queue|
    ensures forall i :: 0 <= i < |r| ==> r[i] == Queued(queue[i], i + 1)
  {
    seq(|queue|, i requires 0 <= i < |queue| => Queued(queue[i], i + 1))
  }

  /**
   * `CheckQueue`: the admission loop, then every queued simulation hears
   * its position. Only the lists, the displays and the log change, and the
   * log only grows.
   */
  function CheckQueueStep(s: Sessions, limit: int): (r: Sessions)
    ensures r.paths == s.paths && r.terminated == s.terminated && r.spawned == s.spawned
    ensures r.childrenKilled == s.childrenKilled && r.displayKilled == s.displayKilled && s.displayed <= r.displayed
    ensures s.events <= r.events
  {
    var a := Admit(s.queue, s.active, limit);
    s.(queue := a.queue, active := a.active, displayed := s.displayed + Members(a.taken),
       events := s.events + StartEvents(a.taken) + Positions(a.queue))
  }

  /**
   * `DisplayReady`: a new window manager and isim, then `ready`. The lists
   * and flags stay; the new children are alive and `ready` is last.
   */
  function DisplayReadyStep(s: Sessions, id: nat): (r: Sessions)
    ensures r.queue == s.queue && r.active == s.active && r.terminated == s.terminated && r.displayed == s.displayed
    ensures id in r.spawned && id !in r.childrenKilled
    ensures |r.events| == |s.events| + 2 && s.events <= r.events && r.events[|r.events| - 1] == Ready(id)
  {
    s.(spawned := s.spawned + {id}, childrenKilled := s.childrenKilled - {id},
       events := s.events + [ChildrenStarted(id), Ready(id)])
  }

  /**
   * `Isim?.Terminate()`, `WindowManager?.Terminate()`, `Display?.Terminate()`:
   * each kills unless killed. Every process the simulation created ends
   * killed; the lists and the other simulations' processes stay.
   */
  function StopChildrenStep(s: Sessions, id: nat): (r: Sessions)
    ensures r.queue == s.queue && r.active == s.active && r.terminated == s.terminated
    ensures id in s.spawned ==> id in r.childrenKilled
    ensures id in s.displayed ==> id in r.displayKilled
    ensures r.childrenKilled - {id} == s.childrenKilled - {id} && r.displayKilled - {id} == s.displayKilled - {id}
    ensures |r.events| <= |s.events| + 2 && s.events <= r.events
  {
    StopDisplayStep(StopSpawnedStep(s, id), id)
  }

  /** The window manager and isim, if `DisplayReady` created them, are killed unless they were. */
  function StopSpawnedStep(s: Sessions, id: nat): Sessions
  {
    if id in s.spawned && id !in s.childrenKilled
    then s.(childrenKilled := s.childrenKilled + {id}, events := s.events + [ChildrenKilled(id)])
    else s
  }

  /** The display, if `Start` created it, is killed unless it was; at most one kill is logged. */
  function StopDisplayStep(s: Sessions, id: nat): (r: Sessions)
    ensures r.queue == s.queue && r.active == s.active && r.terminated == s.terminated
    ensures r.spawned == s.spawned && r.childrenKilled == s.childrenKilled && r.displayed == s.displayed
    ensures id in s.displayed ==> id in r.displayKilled
    ensures r.displayKilled - {id} == s.displayKilled - {id}
    ensures |r.events| <= |s.events| + 1 && s.events <= r.events
    ensures |r.events| == |s.events| + 1 <==> id in s.displayed && id !in s.displayKilled
  {
    if id in s.displayed && id !in s.displayKilled
    then s.(displayKilled := s.displayKilled + {id}, events := s.events + [DisplayKilled(id)])
    else s
  }

  /**
   * `Terminate`: flag, stop the children, leave both lists, re-check the
   * queue, emit `close`. The simulation ends terminated with every process
   * it created killed, and `close` is the last event.
   */
  function TerminateStep(s: Sessions, id: nat, limit: int): (r: Sessions)
    ensures id in r.terminated && s.terminated <= r.terminated
    ensures id in s.spawned ==> id in r.childrenKilled
    ensures id in s.displayed ==> id in r.displayKilled
    ensures |s.events| < |r.events| && s.events <= r.events && r.events[|r.events| - 1] == Closed(id)
  {
    var c := CheckQueueStep(LeaveStep(StopChildrenStep(s, id), id), limit);
    c.(events := c.events + [Closed(id)])
  }

  /** The flag and the two `filter` calls of `Terminate`. */
  function LeaveStep(s: Sessions, id: nat): Sessions
  {
    s.(terminated := s.terminated + {id}, active := Without(s.active, id), queue := Without(s.queue, id))
  }

  /**
   * `ProcessClosed`: a child's `close` terminates the simulation unless it
   * already is; a terminated simulation ignores it.
   */
  function ProcessClosedStep(s: Sessions, id: nat, limit: int): (r: Sessions)
    ensures id in r.terminated
    ensures id in s.terminated ==> r == s
    ensures id !in s.terminated ==> |s.events| < |r.events| && r.events[|r.events| - 1] == Closed(id)
  {
    if id in s.terminated then s else TerminateStep(s, id, limit)
  }

  /** `Running`. */
  predicate Running(s: Sessions, id: nat)
  {
    id in s.active
  }

  // ---------------------------------------------------------------- counting

  /** How many `close` events simulation `id` has emitted. */
  function Closes(events: seq<SimEvent>, id: nat): nat
  {
    if events == [] then 0
    else Closes(events[..|events| - 1], id)
         + (if events[|events| - 1] == Closed(id) then 1 else 0)
  }

  /** How many times the display process of simulation `id` was killed. */
  function DisplayKills(events: seq<SimEvent>, id: nat): nat
  {
    if events == [] then 0
    else DisplayKills(events[..|events| - 1], id)
         + (if events[|events| - 1] == DisplayKilled(id) then 1 else 0)
  }

  lemma {:induction false} CountsAppend(a: seq<SimEvent>, b: seq<SimEvent>, id: nat)
    ensures Closes(a + b, id) == Closes(a, id) + Closes(b, id)
    ensures DisplayKills(a + b, id) == DisplayKills(a, id) + DisplayKills(b, id)
    decreases |b|
  {
    if b != [] {
      var b' := b[..|b| - 1];
      var e := b[|b| - 1];
      assert (a + b)[..|a + b| - 1] == a + b';
      assert (a + b)[|a + b| - 1] == e;
      CountsAppend(a, b', id);
    } else {
      assert a + b == a;
    }
  }

  /** Starts and positions neither close nor kill. */
  lemma {:induction false} QuietEvents(b: seq<SimEvent>, id: nat)
    requires forall i :: 0 <= i < |b| ==> b[i].Queued? || b[i].DisplayStarted?
    ensures Closes(b, id) == 0 && DisplayKills(b, id) == 0
    decreases |b|
  {
    if b != [] {
      QuietEvents(b[..|b| - 1], id);
    }
  }

  // -------------------------------------------------------------- properties

  /** Every `ready` is preceded by the creation of that simulation's display. */
  ghost predicate Ordered(events: seq<SimEvent>)
  {
    forall i :: 0 <= i < |events| && events[i].Ready? ==> DisplayStarted(events[i].id) in events[..i]
  }

  /** Each display recorded as killed was killed once, and no other was. */
  ghost predicate KillsMatch(events: seq<SimEvent>, killed: set<nat>)
  {
    forall id :: DisplayKills(events, id) == (if id in killed then 1 else 0)
  }

  /**
   * The lists as the source keeps them: queued simulations are queued once
   * and have not started; running ones are listed once and have a display;
   * a terminated simulation is on neither list; at most `limit` run.
   */
  ghost predicate ListsOk(s: Sessions, limit: int)
  {
    && Distinct(s.queue) && Distinct(s.active)
    && (forall x :: x in s.queue ==> x in s.paths && x !in s.displayed && x !in s.terminated)
    && (forall x :: x in s.active ==> x in s.displayed && x !in s.terminated)
    && s.displayed <= s.paths.Keys && s.terminated <= s.paths.Keys
    && (limit >= 0 ==> |s.active| <= limit)
  }

  /** What the events record: every display's creation, each display killed at most once, `ready` after the display. */
  ghost predicate EventsOk(s: Sessions)
  {
    && s.displayKilled <= s.displayed
    && (forall x :: x in s.displayed ==> DisplayStarted(x) in s.events)
    && KillsMatch(s.events, s.displayKilled)
    && Ordered(s.events)
  }

  ghost predicate Valid(s: Sessions, limit: int)
  {
    ListsOk(s, limit) && EventsOk(s)
  }

  lemma EmptyValid(limit: int)
    ensures Valid(Empty, limit)
  {
    forall id ensures DisplayKills(Empty.events, id) == 0 { }
  }

  lemma CreateKeepsValid(s: Sessions, limit: int, id: nat, path: string)
    requires Valid(s, limit) && id !in s.paths
    ensures Valid(CreateStep(s, id, path), limit)
  {
    DistinctSnoc(s.queue, id);
  }

  /** Events without a `ready` or a display kill keep both records and add their closes. */
  lemma {:induction false} AppendQuiet(a: seq<SimEvent>, b: seq<SimEvent>, killed: set<nat>)
    requires Ordered(a) && KillsMatch(a, killed)
    requires forall i :: 0 <= i < |b| ==> !b[i].Ready? && !b[i].DisplayKilled?
    ensures Ordered(a + b) && KillsMatch(a + b, killed)
    ensures forall id :: Closes(a + b, id) == Closes(a, id) + Closes(b, id)
    ensures forall x :: DisplayStarted(x) in a ==> DisplayStarted(x) in a + b
  {
    forall id ensures DisplayKills(a + b, id) == DisplayKills(a, id) && Closes(a + b, id) == Closes(a, id) + Closes(b, id) {
      CountsAppend(a, b, id);
      NoKills(b, id);
    }
    forall i | 0 <= i < |a + b| && (a + b)[i].Ready? ensures DisplayStarted((a + b)[i].id) in (a + b)[..i] {
      assert i < |a|;
      assert (a + b)[..i] == a[..i];
    }
  }

  lemma {:induction false} NoKills(b: seq<SimEvent>, id: nat)
    requires forall i :: 0 <= i < |b| ==> !b[i].DisplayKilled?
    ensures DisplayKills(b, id) == 0
    decreases |b|
  {
    if b != [] {
      NoKills(b[..|b| - 1], id);
    }
  }

  /** Killing a display not yet killed records it. */
  lemma KillOne(a: seq<SimEvent>, killed: set<nat>, id: nat)
    requires Ordered(a) && KillsMatch(a, killed) && id !in killed
    ensures Ordered(a + [DisplayKilled(id)]) && KillsMatch(a + [DisplayKilled(id)], killed + {id})
    ensures forall k :: Closes(a + [DisplayKilled(id)], k) == Closes(a, k)
    ensures forall x :: DisplayStarted(x) in a ==> DisplayStarted(x) in a + [DisplayKilled(id)]
  {
    var r := a + [DisplayKilled(id)];
    forall k ensures DisplayKills(r, k) == (if k in killed + {id} then 1 else 0) && Closes(r, k) == Closes(a, k) {
      assert r[..|r| - 1] == a;
    }
    forall i | 0 <= i < |r| && r[i].Ready? ensures DisplayStarted(r[i].id) in r[..i] {
      assert i < |a| && r[..i] == a[..i];
    }
  }

  /** The lists after a queue pass. */
  lemma CheckQueueLists(s: Sessions, limit: int)
    requires ListsOk(s, limit)
    ensures var k := Admitted(|s.queue|, |s.active|, limit);
      var r := CheckQueueStep(s, limit);
      && ListsOk(r, limit)
      && r.queue == s.queue[k..] && r.active == s.active + s.queue[..k]
      && (limit >= 0 && r.queue != [] ==> |r.active| == limit)
      && r.displayed == s.displayed + Members(s.queue[..k])
  {
    AdmitFillsToLimit(s.queue, s.active, limit);
    var k := Admitted(|s.queue|, |s.active|, limit);
    var r := CheckQueueStep(s, limit);
    DistinctSplit(s.queue, k);
    DistinctPrefix(s.queue, k);
    DistinctAppend(s.active, s.queue[..k]);
    forall x | x in r.queue ensures x !in r.displayed {
      assert x !in s.queue[..k];
    }
  }

  /** The events after a queue pass: one display creation per admitted simulation, then positions. */
  lemma CheckQueueEvents(s: Sessions, limit: int)
    requires EventsOk(s)
    ensures var r := CheckQueueStep(s, limit);
      && EventsOk(r)
      && (forall id :: Closes(r.events, id) == Closes(s.events, id))
  {
    var a := Admit(s.queue, s.active, limit);
    var more := StartEvents(a.taken) + Positions(a.queue);
    PassAppends(s, limit);
    PassEventsQuiet(a.taken, a.queue);
    AppendQuiet(s.events, more, s.displayKilled);
    forall id ensures Closes(more, id) == 0 {
      QuietEvents(more, id);
    }
    PassRecordsDisplays(s, limit);
  }

  /** A queue pass appends the display creations and the positions, in one piece. */
  lemma PassAppends(s: Sessions, limit: int)
    ensures var a := Admit(s.queue, s.active, limit);
      var r := CheckQueueStep(s, limit);
      && r.events == s.events + (StartEvents(a.taken) + Positions(a.queue))
      && r.displayed == s.displayed + Members(a.taken) && r.displayKilled == s.displayKilled
  {
    var a := Admit(s.queue, s.active, limit);
    SeqAssoc(s.events, StartEvents(a.taken), Positions(a.queue));
  }

  /** Every display a pass admits is recorded as created. */
  lemma PassRecordsDisplays(s: Sessions, limit: int)
    requires forall x :: x in s.displayed ==> DisplayStarted(x) in s.events
    ensures var r := CheckQueueStep(s, limit);
      forall x :: x in r.displayed ==> DisplayStarted(x) in r.events
  {
    var a := Admit(s.queue, s.active, limit);
    var more := StartEvents(a.taken) + Positions(a.queue);
    var r := CheckQueueStep(s, limit);
    PassAppends(s, limit);
    forall x | x in r.displayed ensures DisplayStarted(x) in r.events {
      if x in s.displayed {
        assert r.events == s.events + more;
      } else {
        PassStartsDisplay(a.taken, a.queue, x);
        assert r.events == s.events + more;
      }
    }
  }

  /** A queue pass records only display creations and positions. */
  lemma PassEventsQuiet(taken: seq<nat>, queue: seq<nat>)
    ensures var more := StartEvents(taken) + Positions(queue);
            forall i :: 0 <= i < |more| ==> more[i].Queued? || more[i].DisplayStarted?
  {
    var more := StartEvents(taken) + Positions(queue);
    forall i | 0 <= i < |more|
      ensures more[i].Queued? || more[i].DisplayStarted?
    {
      if i < |taken| {
        assert more[i] == StartEvents(taken)[i];
      } else {
        assert more[i] == Positions(queue)[i - |taken|];
      }
    }
  }

  /** A queue pass records the creation of each admitted simulation's display. */
  lemma PassStartsDisplay(taken: seq<nat>, queue: seq<nat>, x: nat)
    requires x in Members(taken)
    ensures DisplayStarted(x) in StartEvents(taken) + Positions(queue)
  {
    var j :| 0 <= j < |taken| && taken[j] == x;
    assert (StartEvents(taken) + Positions(queue))[j] == DisplayStarted(x);
  }

  /**
   * A queue pass admits from the head of the queue, in order, until `limit`
   * simulations run or none is left waiting, creates each admitted
   * simulation's display, emits no `close`, and keeps the state valid.
   */
  lemma CheckQueueFills(s: Sessions, limit: int)
    requires Valid(s, limit)
    ensures var k := Admitted(|s.queue|, |s.active|, limit);
      var r := CheckQueueStep(s, limit);
      && Valid(r, limit)
      && r.queue == s.queue[k..] && r.active == s.active + s.queue[..k]
      && (limit >= 0 && r.queue != [] ==> |r.active| == limit)
      && r.displayed == s.displayed + Members(s.queue[..k])
      && (forall id :: Closes(r.events, id) == Closes(s.events, id))
  {
    CheckQueueLists(s, limit);
    CheckQueueEvents(s, limit);
  }

  /** Stopping the children kills the display once and changes nothing the lists hold. */
  lemma StopChildrenCounts(s: Sessions, id: nat)
    requires EventsOk(s)
    ensures var r := StopChildrenStep(s, id);
      && EventsOk(r)
      && r.queue == s.queue && r.active == s.active && r.paths == s.paths
      && r.terminated == s.terminated && r.displayed == s.displayed
      && (forall k :: Closes(r.events, k) == Closes(s.events, k))
      && DisplayKills(r.events, id) == (if id in s.displayed then 1 else 0)
  {
    StopSpawnedQuiet(s, id);
    var c := StopSpawnedStep(s, id);
    if id in c.displayed && id !in c.displayKilled {
      KillOne(c.events, c.displayKilled, id);
    }
  }

  /** Killing the window manager and isim records nothing the properties count. */
  lemma StopSpawnedQuiet(s: Sessions, id: nat)
    requires EventsOk(s)
    ensures var r := StopSpawnedStep(s, id);
      && EventsOk(r)
      && r.queue == s.queue && r.active == s.active && r.paths == s.paths
      && r.terminated == s.terminated && r.displayed == s.displayed && r.displayKilled == s.displayKilled
      && (forall k :: Closes(r.events, k) == Closes(s.events, k))
  {
    if id in s.spawned && id !in s.childrenKilled {
      AppendQuiet(s.events, [ChildrenKilled(id)], s.displayKilled);
      forall k ensures Closes([ChildrenKilled(id)], k) == 0 {
        NoCloses([ChildrenKilled(id)], k);
      }
    }
  }

  lemma NoCloses(b: seq<SimEvent>, id: nat)
    requires |b| <= 1 && forall i :: 0 <= i < |b| ==> !b[i].Closed?
    ensures Closes(b, id) == 0
  {
    if b != [] {
      assert b[..0] == [];
    }
  }

  /**
   * After `Terminate` the simulation is neither running nor queued, it has
   * emitted exactly one more `close`, whether or not it had been terminated
   * before, and its display has been killed exactly once if it ever had one.
   */
  lemma TerminateStops(s: Sessions, id: nat, limit: int)
    requires Valid(s, limit) && id in s.paths
    ensures var r := TerminateStep(s, id, limit);
      && Valid(r, limit)
      && !Running(r, id) && id !in r.queue && id in r.terminated
      && Closes(r.events, id) == Closes(s.events, id) + 1
      && DisplayKills(r.events, id) == (if id in s.displayed then 1 else 0)
  {
    var f := LeaveStep(StopChildrenStep(s, id), id);
    PrepareTerminate(s, id, limit);
    CheckQueueKeepsOut(f, limit, id);
    CheckQueueEvents(f, limit);
    var c := CheckQueueStep(f, limit);
    assert Valid(c, limit) && c.displayKilled == f.displayKilled;
    EmitClose(c, id, limit);
  }

  /** Everything `Terminate` does before it re-checks the queue. */
  lemma PrepareTerminate(s: Sessions, id: nat, limit: int)
    requires Valid(s, limit) && id in s.paths
    ensures var f := LeaveStep(StopChildrenStep(s, id), id);
      && ListsOk(f, limit) && EventsOk(f)
      && id !in f.queue && id !in f.active && id in f.terminated
      && Closes(f.events, id) == Closes(s.events, id)
      && (id in f.displayKilled <==> id in s.displayed)
  {
    StopChildrenCounts(s, id);
    var k := StopChildrenStep(s, id);
    LeaveLists(k, id, limit);
  }

  /** The `close` that ends `Terminate` is one more, and changes nothing else the state records. */
  lemma EmitClose(c: Sessions, id: nat, limit: int)
    requires Valid(c, limit)
    ensures var r := c.(events := c.events + [Closed(id)]);
      && Valid(r, limit)
      && Closes(r.events, id) == Closes(c.events, id) + 1
      && DisplayKills(r.events, id) == DisplayKills(c.events, id)
  {
    AppendQuiet(c.events, [Closed(id)], c.displayKilled);
    assert Closes([Closed(id)], id) == 1 by {
      assert [Closed(id)][..0] == [];
    }
  }

  /** Leaving both lists keeps them valid. */
  lemma LeaveLists(s: Sessions, id: nat, limit: int)
    requires ListsOk(s, limit) && id in s.paths
    ensures var f := LeaveStep(s, id);
      ListsOk(f, limit) && id !in f.queue && id !in f.active && id in f.terminated
  {
    WithoutDistinct(s.queue, id);
    WithoutDistinct(s.active, id);
  }

  /** A queue pass never brings back a simulation that is on neither list. */
  lemma CheckQueueKeepsOut(s: Sessions, limit: int, id: nat)
    requires ListsOk(s, limit) && id !in s.queue && id !in s.active
    ensures var r := CheckQueueStep(s, limit);
      ListsOk(r, limit) && id !in r.queue && id !in r.active && r.terminated == s.terminated
  {
    CheckQueueLists(s, limit);
    var n := Admitted(|s.queue|, |s.active|, limit);
    assert id !in s.queue[..n];
  }

  /** Nothing guards `Terminate`: a second call emits a second `close`. */
  lemma TerminateTwiceClosesTwice(s: Sessions, id: nat, limit: int)
    requires Valid(s, limit) && id in s.paths
    ensures var r := TerminateStep(TerminateStep(s, id, limit), id, limit);
      Closes(r.events, id) == Closes(s.events, id) + 2
  {
    TerminateStops(s, id, limit);
    TerminateStops(TerminateStep(s, id, limit), id, limit);
  }

  /**
   * Whatever closes first among the display, the window manager and isim
   * terminates the simulation; every later child close does nothing, so
   * child closes alone produce exactly one `close`.
   */
  lemma ChildClosesHeardOnce(s: Sessions, id: nat, limit: int)
    requires Valid(s, limit) && id in s.paths && id !in s.terminated
    ensures var t := ProcessClosedStep(s, id, limit);
      && Closes(t.events, id) == Closes(s.events, id) + 1
      && ProcessClosedStep(t, id, limit) == t
  {
    TerminateStops(s, id, limit);
  }

  /** `ready` is emitted once the display exists, and keeps the state valid. */
  lemma DisplayReadyKeepsValid(s: Sessions, id: nat, limit: int)
    requires Valid(s, limit) && id in s.displayed
    ensures var r := DisplayReadyStep(s, id);
      && Valid(r, limit) && id in r.spawned && r.events[|r.events| - 1] == Ready(id)
      && (forall k :: Closes(r.events, k) == Closes(s.events, k))
  {
    ReadyAfterStart(s.events, s.displayKilled, id);
  }

  /** Appending the children's start and `ready` after the display's creation keeps the log well formed. */
  lemma ReadyAfterStart(a: seq<SimEvent>, killed: set<nat>, id: nat)
    requires Ordered(a) && KillsMatch(a, killed) && DisplayStarted(id) in a
    ensures var r := a + [ChildrenStarted(id), Ready(id)];
      && Ordered(r) && KillsMatch(r, killed)
      && (forall k :: Closes(r, k) == Closes(a, k))
      && (forall x :: DisplayStarted(x) in a ==> DisplayStarted(x) in r)
  {
    var b := [ChildrenStarted(id), Ready(id)];
    var r := a + b;
    forall k ensures DisplayKills(r, k) == DisplayKills(a, k) && Closes(r, k) == Closes(a, k) {
      CountsAppend(a, b, k);
      ReadyCountsNothing(id, k);
    }
    ReadyOrdered(a, id);
  }

  lemma ReadyCountsNothing(id: nat, k: nat)
    ensures var b := [ChildrenStarted(id), Ready(id)];
      DisplayKills(b, k) == 0 && Closes(b, k) == 0
  {
    var b := [ChildrenStarted(id), Ready(id)];
    var c := [ChildrenStarted(id)];
    assert b[..|b| - 1] == c && c[..|c| - 1] == [];
    assert Closes(c, k) == 0 && DisplayKills(c, k) == 0;
  }

  lemma ReadyOrdered(a: seq<SimEvent>, id: nat)
    requires Ordered(a) && DisplayStarted(id) in a
    ensures Ordered(a + [ChildrenStarted(id), Ready(id)])
  {
    var r := a + [ChildrenStarted(id), Ready(id)];
    forall i | 0 <= i < |r| && r[i].Ready? ensures DisplayStarted(r[i].id) in r[..i] {
      if i < |a| {
        assert r[..i] == a[..i];
      } else {
        assert r[i].id == id && a <= r[..i];
      }
    }
  }

  /**
   * `DisplayReady` has no `Terminated` guard: a display whose `ready` comes
   * after `Terminate` still starts a window manager and isim and emits
   * `ready` after `close`, and since a later child close is ignored, those
   * two processes are never killed by the simulation.
   */
  lemma ReadyAfterTerminate(s: Sessions, id: nat, limit: int)
    requires Valid(s, limit) && id in s.displayed
    ensures var t := TerminateStep(s, id, limit);
      var r := DisplayReadyStep(t, id);
      && t.events[|t.events| - 1] == Closed(id) && r.events[|r.events| - 1] == Ready(id)
      && id in r.spawned && id !in r.childrenKilled && !Running(r, id)
      && ProcessClosedStep(r, id, limit) == r
  {
    TerminateStops(s, id, limit);
  }

  // ------------------------------------------------------------------ objects

  /** The static lists and the per-simulation fields, updated in place. */
  class SimulationRegistry {
    /** `Config.Simulation.MaxActiveSessions`; -1 means no limit. */
    const limit: int
    var queue: seq<nat>
    var active: seq<nat>
    var paths: map<nat, string>
    var terminated: set<nat>
    var displayed: set<nat>
    var spawned: set<nat>
    var childrenKilled: set<nat>
    var displayKilled: set<nat>
    var events: seq<SimEvent>

    function Table(): Sessions
      reads this
    {
      Sessions(queue, active, paths, terminated, displayed, spawned, childrenKilled, displayKilled, events)
    }

    constructor(limit: int)
      ensures this.limit == limit && Table() == Empty
    {
      this.limit := limit;
      queue, active, paths := [], [], map[];
      terminated, displayed, spawned, childrenKilled, displayKilled := {}, {}, {}, {}, {};
      events := [];
    }

    /** `new Simulation(projectPath)`. */
    method Create(id: nat, path: string)
      requires id !in paths
      modifies this
      ensures Table() == CreateStep(old(Table()), id, path)
    {
      queue := queue + [id];
      paths := paths[id := path];
    }

    /** `Start`: only the display is created here. */
    method Start(id: nat)
      modifies this`displayed, this`events
      ensures displayed == old(displayed) + {id} && events == old(events) + [DisplayStarted(id)]
    {
      displayed := displayed + {id};
      events := events + [DisplayStarted(id)];
    }

    method CheckQueue()
      modifies this
      ensures Table() == CheckQueueStep(old(Table()), limit)
    {
      AdmitQueued();
      AnnouncePositions();
    }

    /** The admission loop of `CheckQueue`. */
    method AdmitQueued()
      modifies this`queue, this`active, this`displayed, this`events
      ensures var a := Admit(old(queue), old(active), limit);
        queue == a.queue && active == a.active && displayed == old(displayed) + Members(a.taken)
        && events == old(events) + StartEvents(a.taken)
    {
      ghost var total := Admit(queue, active, limit);
      ghost var taken: seq<nat> := [];
      while Below(limit, active)
        invariant var a := Admit(queue, active, limit);
          a.queue == total.queue && a.active == total.active && taken + a.taken == total.taken
        invariant events == old(events) + StartEvents(taken)
        invariant displayed == old(displayed) + Members(taken)
        decreases |queue|
      {
        if queue == [] {
          break;
        }
        var first := queue[0];
        AdmitTurn(queue, active, taken, total, limit);
        queue := queue[1..];
        active := active + [first];
        Start(first);
        assert StartEvents(taken + [first]) == StartEvents(taken) + [DisplayStarted(first)];
        assert (taken + [first])[..|taken|] == taken;
        taken := taken + [first];
      }
      AdmitDone(queue, active, limit);
      assert taken + [] == taken;
    }

    /** The `for` loop of `CheckQueue`: `queue(i + 1)` to each queued simulation. */
    method AnnouncePositions()
      modifies this`events
      ensures events == old(events) + Positions(queue)
    {
      var i := 0;
      assert Positions(queue)[..i] == [];
      while i < |queue|
        invariant 0 <= i <= |queue|
        invariant events == old(events) + Positions(queue)[..i]
      {
        events := events + [Queued(queue[i], i + 1)];
        i := i + 1;
        assert Positions(queue)[..i] == Positions(queue)[..i - 1] + [Queued(queue[i - 1], i)];
      }
      assert Positions(queue)[..i] == Positions(queue);
    }

    /** The display's `ready` handler. */
    method DisplayReady(id: nat)
      requires id in displayed
      modifies this`spawned, this`childrenKilled, this`events
      ensures Table() == DisplayReadyStep(old(Table()), id)
    {
      spawned := spawned + {id};
      childrenKilled := childrenKilled - {id};
      events := events + [ChildrenStarted(id)];
      events := events + [Ready(id)];
    }

    /** The `close` handler of the display, the window manager and isim. */
    method ProcessClosed(id: nat)
      requires id in paths && id in displayed
      modifies this
      ensures Table() == ProcessClosedStep(old(Table()), id, limit)
    {
      if id !in terminated {
        Terminate(id);
      }
    }

    method Terminate(id: nat)
      requires id in paths
      modifies this
      ensures Table() == TerminateStep(old(Table()), id, limit)
    {
      terminated := terminated + {id};
      StopChildren(id);
      active := Without(active, id);
      queue := Without(queue, id);
      CheckQueue();
      events := events + [Closed(id)];
    }

    /** The three `Terminate` calls on the children. */
    method StopChildren(id: nat)
      modifies this`childrenKilled, this`displayKilled, this`events
      ensures Table() == StopChildrenStep(old(Table()), id)
    {
      if id in spawned && id !in childrenKilled {
        childrenKilled := childrenKilled + {id};
        events := events + [ChildrenKilled(id)];
      }
      assert Table() == StopSpawnedStep(old(Table()), id);
      if id in displayed && id !in displayKilled {
        displayKilled := displayKilled + {id};
        events := events + [DisplayKilled(id)];
      }
    }

    predicate IsRunning(id: nat)
      reads this
    {
      Running(Table(), id)
    }
  }
}

/**
 * The job admission queue of src/job/queue.ts: the pending and active job
 * lists (static arrays in the source, the fields of one `Queue` object
 * here), the FIFO admission pass with a global cap and per-pool caps, the
 * queue-position broadcast, and the cached statistics snapshot.
 */
module JobQueue {
  import opened Wrappers

  /**
   * What the queue reads of a job. Jobs are compared by identity in the
   * source (`!==`); the `id` makes two different jobs different values.
   */
  datatype QueuedJob = QueuedJob(
    id: nat,
    platform: string,
    name: string,
    displayName: string,
    queuePool: Option<string>)

  /** `config.queue`: `maxJobs <= 0` (default -1) means no global cap. */
  datatype QueueConfig = QueueConfig(maxJobs: int, pools: map<string, int>)

  const DefaultMaxJobs: int := -1

  /** How long a statistics snapshot stays valid, in milliseconds. */
  const CacheDeltaMs: int := 30000

  /** What the queue does to a job: `job.ready()` or `job.emit("queue", pos, size)`. */
  datatype Signal = JobReady(job: QueuedJob) | QueuePosition(job: QueuedJob, pos: nat, size: nat)

  // ---------------------------------------------------------------------
  // admission

  /** `if(job.config.queuePool)`: a pool name that is present and not empty. */
  predicate InPool(j: QueuedJob)
  {
    j.queuePool.Some? && j.queuePool.value != ""
  }

  /** Active jobs whose pool equals `pool` (`e.config.queuePool === job.config.queuePool`). */
  function PoolCount(active: seq<QueuedJob>, pool: Option<string>): nat
  {
    if active == [] then 0
    else PoolCount(active[..|active| - 1], pool) + (if active[|active| - 1].queuePool == pool then 1 else 0)
  }

  /** The global cap stops the pass. */
  predicate GlobalFull(active: seq<QueuedJob>, cfg: QueueConfig)
  {
    cfg.maxJobs > 0 && |active| >= cfg.maxJobs
  }

  /** The job's pool has a configured cap and the active jobs of that pool have reached it. */
  predicate PoolFull(j: QueuedJob, active: seq<QueuedJob>, cfg: QueueConfig)
  {
    InPool(j) && j.queuePool.value in cfg.pools && PoolCount(active, j.queuePool) >= cfg.pools[j.queuePool.value]
  }

  datatype PassResult = PassResult(pending: seq<QueuedJob>, active: seq<QueuedJob>, admitted: seq<QueuedJob>)

  /**
   * One admission pass over the pending jobs in FIFO order: stop at the
   * global cap, skip a job whose pool is full, admit every other job.
   */
  function Pass(queued: seq<QueuedJob>, active: seq<QueuedJob>, cfg: QueueConfig): (r: PassResult)
    ensures |r.pending| + |r.admitted| == |queued|
    ensures |r.active| == |active| + |r.admitted|
    ensures GlobalFull(active, cfg) ==> r == PassResult(queued, active, [])
    decreases |queued|
  {
    if queued == [] || GlobalFull(active, cfg) then PassResult(queued, active, [])
    else if PoolFull(queued[0], active, cfg) then
      var r := Pass(queued[1..], active, cfg);
      PassResult([queued[0]] + r.pending, r.active, r.admitted)
    else
      var r := Pass(queued[1..], active + [queued[0]], cfg);
      PassResult(r.pending, r.active, [queued[0]] + r.admitted)
  }

  /** `job.ready()` for each admitted job, in admission order. */
  function ReadySignals(admitted: seq<QueuedJob>): seq<Signal>
  {
    seq(|admitted|, k requires 0 <= k < |admitted| => JobReady(admitted[k]))
  }

  /** Every pending job i hears position i + 1 and the pending count. */
  function Positions(pending: seq<QueuedJob>): seq<Signal>
  {
    seq(|pending|, k requires 0 <= k < |pending| => QueuePosition(pending[k], k + 1, |pending|))
  }

  /** The loop of updateQueue that tells every waiting job its 1-based position. */
  method AnnouncePositions(pending: seq<QueuedJob>) returns (sent: seq<Signal>)
    ensures sent == Positions(pending)
  {
    sent := [];
    var k := 0;
    while k < |pending|
      invariant 0 <= k <= |pending|
      invariant sent == Positions(pending)[..k]
    {
      assert Positions(pending)[..k + 1] == Positions(pending)[..k] + [QueuePosition(pending[k], k + 1, |pending|)];
      sent := sent + [QueuePosition(pending[k], k + 1, |pending|)];
      k := k + 1;
    }
    assert Positions(pending)[..k] == Positions(pending);
  }

  /** The body of updateQueue: the admission pass, then the positions if anything was admitted. */
  method RunPass(queuedJobs: seq<QueuedJob>, activeJobs: seq<QueuedJob>, cfg: QueueConfig)
    returns (queued: seq<QueuedJob>, active: seq<QueuedJob>, sent: seq<Signal>)
    ensures var r := Pass(queuedJobs, activeJobs, cfg);
            queued == r.pending && active == r.active && sent == PassSignals(r)
  {
    var ready;
    queued, active, ready := AdmissionPass(queuedJobs, activeJobs, cfg);
    sent := ready;
    if ready != [] {
      var positions := AnnouncePositions(queued);
      sent := ready + positions;
    }
  }

  /** The signals of a pass: the ready calls, then positions unless nothing was admitted. */
  function PassSignals(r: PassResult): seq<Signal>
  {
    ReadySignals(r.admitted) + (if r.admitted == [] then [] else Positions(r.pending))
  }

  /** `q` is split into `p` and `a`, each keeping the order of `q`. */
  predicate Interleaving(q: seq<QueuedJob>, p: seq<QueuedJob>, a: seq<QueuedJob>)
    decreases |q|
  {
    if q == [] then p == [] && a == []
    else
      (p != [] && p[0] == q[0] && Interleaving(q[1..], p[1..], a)) ||
      (a != [] && a[0] == q[0] && Interleaving(q[1..], p, a[1..]))
  }

  /** No job occurs twice in `s`. */
  predicate Unique(s: seq<QueuedJob>)
  {
    forall j | j in s :: multiset(s)[j] <= 1
  }

  function Max(a: int, b: int): int
  {
    if a < b then b else a
  }

  /**
   * A pass moves jobs from pending to active and nothing else: the admitted
   * jobs are appended to the active list, the pending and admitted jobs
   * interleave to the old pending list (both keep their relative order).
   */
  lemma PassMovesJobs(queued: seq<QueuedJob>, active: seq<QueuedJob>, cfg: QueueConfig)
    ensures var r := Pass(queued, active, cfg);
            r.active == active + r.admitted &&
            Interleaving(queued, r.pending, r.admitted) &&
            multiset(r.pending) + multiset(r.admitted) == multiset(queued)
  {
    PassAppendsAdmitted(queued, active, cfg);
    PassInterleaves(queued, active, cfg);
    var r := Pass(queued, active, cfg);
    InterleavingPartitions(queued, r.pending, r.admitted);
  }

  lemma {:induction false} PassAppendsAdmitted(queued: seq<QueuedJob>, active: seq<QueuedJob>, cfg: QueueConfig)
    ensures var r := Pass(queued, active, cfg); r.active == active + r.admitted
    decreases |queued|
  {
    if queued != [] && !GlobalFull(active, cfg) {
      var q0, rest := queued[0], queued[1..];
      if PoolFull(q0, active, cfg) {
        SkipStep(queued, active, cfg);
        PassAppendsAdmitted(rest, active, cfg);
      } else {
        var r := Pass(rest, active + [q0], cfg);
        AdmitStep(queued, active, cfg);
        PassAppendsAdmitted(rest, active + [q0], cfg);
        assert active + ([q0] + r.admitted) == (active + [q0]) + r.admitted;
      }
    }
  }

  lemma {:induction false} PassInterleaves(queued: seq<QueuedJob>, active: seq<QueuedJob>, cfg: QueueConfig)
    ensures var r := Pass(queued, active, cfg); Interleaving(queued, r.pending, r.admitted)
    decreases |queued|
  {
    if queued == [] || GlobalFull(active, cfg) {
      InterleavingWithNothing(queued);
    } else {
      var q0, rest := queued[0], queued[1..];
      if PoolFull(q0, active, cfg) {
        var r := Pass(rest, active, cfg);
        SkipStep(queued, active, cfg);
        PassInterleaves(rest, active, cfg);
        assert ([q0] + r.pending)[1..] == r.pending;
      } else {
        var r := Pass(rest, active + [q0], cfg);
        AdmitStep(queued, active, cfg);
        PassInterleaves(rest, active + [q0], cfg);
        assert ([q0] + r.admitted)[1..] == r.admitted;
      }
    }
  }

  /** An interleaving splits the multiset of jobs. */
  lemma {:induction false} InterleavingPartitions(q: seq<QueuedJob>, p: seq<QueuedJob>, a: seq<QueuedJob>)
    requires Interleaving(q, p, a)
    ensures multiset(p) + multiset(a) == multiset(q)
    decreases |q|
  {
    if q != [] {
      assert q == [q[0]] + q[1..];
      if p != [] && p[0] == q[0] && Interleaving(q[1..], p[1..], a) {
        InterleavingPartitions(q[1..], p[1..], a);
        assert p == [p[0]] + p[1..];
      } else {
        InterleavingPartitions(q[1..], p, a[1..]);
        assert a == [a[0]] + a[1..];
      }
    }
  }

  lemma {:induction false} InterleavingWithNothing(q: seq<QueuedJob>)
    ensures Interleaving(q, q, [])
    decreases |q|
  {
    if q != [] {
      InterleavingWithNothing(q[1..]);
    }
  }

  /** A pass never puts a job in both lists, nor twice in one. */
  lemma PassKeepsJobsUnique(queued: seq<QueuedJob>, active: seq<QueuedJob>, cfg: QueueConfig)
    requires Unique(queued + active)
    ensures var r := Pass(queued, active, cfg); Unique(r.pending + r.active)
  {
    PassMovesJobs(queued, active, cfg);
    var r := Pass(queued, active, cfg);
    assert multiset(r.pending + r.active) == multiset(queued + active);
  }

  /** Removing a job keeps the lists free of repeats, and the pass after it never brings the job back. */
  lemma RemovalKeepsUnique(queued: seq<QueuedJob>, active: seq<QueuedJob>, job: QueuedJob, cfg: QueueConfig)
    requires Unique(queued + active)
    ensures Unique(Without(queued, job) + Without(active, job))
    ensures var r := Pass(Without(queued, job), Without(active, job), cfg);
            job !in r.pending && job !in r.active
  {
    var q, a := Without(queued, job), Without(active, job);
    assert multiset(q + a) == multiset(q) + multiset(a);
    assert multiset(queued + active) == multiset(queued) + multiset(active);
    UniqueShrinks(queued + active, q + a);
    PassMovesJobs(q, a, cfg);
    var r := Pass(q, a, cfg);
    assert multiset(r.active) == multiset(a) + multiset(r.admitted);
    assert multiset(q)[job] == 0 && multiset(a)[job] == 0;
  }

  /** A list whose jobs all come from a list without repeats has no repeats. */
  lemma UniqueShrinks(s: seq<QueuedJob>, t: seq<QueuedJob>)
    requires Unique(s) && multiset(t) <= multiset(s)
    ensures Unique(t)
  {
    forall j | j in t ensures multiset(t)[j] <= 1 {
      assert j in multiset(s);
    }
  }

  /** With a global cap, a pass never takes the active count above it. */
  lemma {:induction false} PassRespectsGlobalCap(queued: seq<QueuedJob>, active: seq<QueuedJob>, cfg: QueueConfig)
    requires cfg.maxJobs > 0 && |active| <= cfg.maxJobs
    ensures |Pass(queued, active, cfg).active| <= cfg.maxJobs
    decreases |queued|
  {
    if queued != [] && !GlobalFull(active, cfg) {
      if PoolFull(queued[0], active, cfg) {
        PassRespectsGlobalCap(queued[1..], active, cfg);
      } else {
        PassRespectsGlobalCap(queued[1..], active + [queued[0]], cfg);
      }
    }
  }

  lemma PoolCountAppend(active: seq<QueuedJob>, j: QueuedJob, pool: Option<string>)
    ensures PoolCount(active + [j], pool) == PoolCount(active, pool) + (if j.queuePool == pool then 1 else 0)
  {
    assert (active + [j])[..|active + [j]| - 1] == active;
  }

  lemma {:induction false} PoolCountGrows(active: seq<QueuedJob>, more: seq<QueuedJob>, pool: Option<string>)
    ensures PoolCount(active + more, pool) >= PoolCount(active, pool)
    decreases |more|
  {
    if more == [] {
      assert active + more == active;
    } else {
      var init := more[..|more| - 1];
      PoolCountGrows(active, init, pool);
      assert active + more == (active + init) + [more[|more| - 1]];
      PoolCountAppend(active + init, more[|more| - 1], pool);
    }
  }

  /**
   * A pass never raises a capped pool's active count above its cap (and
   * never raises it at all when it was already at or above the cap).
   */
  lemma {:induction false} PassRespectsPoolCap(queued: seq<QueuedJob>, active: seq<QueuedJob>, cfg: QueueConfig, pool: string)
    requires pool != "" && pool in cfg.pools
    ensures PoolCount(Pass(queued, active, cfg).active, Some(pool)) <= Max(PoolCount(active, Some(pool)), cfg.pools[pool])
    decreases |queued|
  {
    if queued != [] && !GlobalFull(active, cfg) {
      if PoolFull(queued[0], active, cfg) {
        PassRespectsPoolCap(queued[1..], active, cfg, pool);
      } else {
        var next := active + [queued[0]];
        PassRespectsPoolCap(queued[1..], next, cfg, pool);
        PoolCountAppend(active, queued[0], Some(pool));
      }
    }
  }

  /**
   * After a pass, every job still pending is held back: either the global
   * cap is reached or its own pool is full. Pool exhaustion never blocks
   * the jobs behind it.
   */
  lemma {:induction false} PassLeavesOnlyBlockedJobs(queued: seq<QueuedJob>, active: seq<QueuedJob>, cfg: QueueConfig)
    ensures var r := Pass(queued, active, cfg);
            forall k :: 0 <= k < |r.pending| ==> GlobalFull(r.active, cfg) || PoolFull(r.pending[k], r.active, cfg)
    decreases |queued|
  {
    if queued == [] || GlobalFull(active, cfg) {
    } else if PoolFull(queued[0], active, cfg) {
      var r := Pass(queued[1..], active, cfg);
      SkipStep(queued, active, cfg);
      PassLeavesOnlyBlockedJobs(queued[1..], active, cfg);
      PassAppendsAdmitted(queued[1..], active, cfg);
      PoolCountGrows(active, r.admitted, queued[0].queuePool);
      assert PoolFull(queued[0], r.active, cfg);
      var pending := [queued[0]] + r.pending;
      forall k | 0 <= k < |pending| ensures GlobalFull(r.active, cfg) || PoolFull(pending[k], r.active, cfg) {
        if k > 0 {
          assert pending[k] == r.pending[k - 1];
        }
      }
    } else {
      AdmitStep(queued, active, cfg);
      PassLeavesOnlyBlockedJobs(queued[1..], active + [queued[0]], cfg);
    }
  }

  /** A job whose pool is full is not admitted by a pass: the pool only fills further. */
  lemma {:induction false} PoolFullNotAdmitted(queued: seq<QueuedJob>, active: seq<QueuedJob>, cfg: QueueConfig, j: QueuedJob)
    requires PoolFull(j, active, cfg)
    ensures j !in Pass(queued, active, cfg).admitted
    decreases |queued|
  {
    if queued != [] && !GlobalFull(active, cfg) {
      if PoolFull(queued[0], active, cfg) {
        PoolFullNotAdmitted(queued[1..], active, cfg, j);
      } else {
        assert queued[0] != j;
        PoolCountAppend(active, queued[0], j.queuePool);
        PoolFullNotAdmitted(queued[1..], active + [queued[0]], cfg, j);
      }
    }
  }

  /**
   * Within one pool admission is FIFO: a later job of the pool is admitted
   * only if every earlier job of the same pool is.
   */
  lemma {:induction false} PassIsFifoWithinPool(queued: seq<QueuedJob>, active: seq<QueuedJob>, cfg: QueueConfig, i: nat, j: nat)
    requires Unique(queued)
    requires i < j < |queued| && queued[i].queuePool == queued[j].queuePool
    requires queued[j] in Pass(queued, active, cfg).admitted
    ensures queued[i] in Pass(queued, active, cfg).admitted
    decreases |queued|
  {
    var q0, rest := queued[0], queued[1..];
    assert queued == [q0] + rest;
    assert queued[j] == rest[j - 1];
    assert multiset(rest) <= multiset(queued);
    if GlobalFull(active, cfg) {
    } else if PoolFull(q0, active, cfg) {
      SkipStep(queued, active, cfg);
      if i == 0 {
        PoolFullNotAdmitted(rest, active, cfg, queued[j]);
      } else {
        assert queued[i] == rest[i - 1];
        PassIsFifoWithinPool(rest, active, cfg, i - 1, j - 1);
      }
    } else if i > 0 {
      AdmitStep(queued, active, cfg);
      assert queued[i] == rest[i - 1];
      assert q0 !in rest by {
        assert multiset(queued)[q0] == multiset(rest)[q0] + 1;
      }
      PassIsFifoWithinPool(rest, active + [q0], cfg, i - 1, j - 1);
    } else {
      AdmitStep(queued, active, cfg);
    }
  }

  /**
   * The admission loop of updateQueue: walks the pending list, splicing each
   * admitted job out of it and onto the active list, and calls `ready()` on it.
   */
  method AdmissionPass(queuedJobs: seq<QueuedJob>, activeJobs: seq<QueuedJob>, cfg: QueueConfig)
    returns (queued: seq<QueuedJob>, active: seq<QueuedJob>, ready: seq<Signal>)
    ensures var r := Pass(queuedJobs, activeJobs, cfg);
            queued == r.pending && active == r.active && ready == ReadySignals(r.admitted)
  {
    ghost var final := Pass(queuedJobs, activeJobs, cfg);
    ghost var admitted: seq<QueuedJob> := [];
    ghost var kept: seq<QueuedJob> := [];
    ghost var remaining := queuedJobs;
    queued, active, ready := queuedJobs, activeJobs, [];
    var i := 0;
    assert kept + remaining == remaining && admitted + final.admitted == final.admitted;
    while i < |queued|
      invariant i == |kept| && queued == kept + remaining
      invariant Tracks(final, kept, remaining, active, admitted, cfg)
      invariant ready == ReadySignals(admitted)
      decreases |queued| - i
    {
      if cfg.maxJobs > 0 && |active| >= cfg.maxJobs {
        break;
      }
      var job := queued[i];
      assert remaining[0] == job;
      if InPool(job) {
        var activeLen := PoolCount(active, job.queuePool);
        if job.queuePool.value in cfg.pools && activeLen >= cfg.pools[job.queuePool.value] {
          SkipTurn(final, kept, remaining, active, admitted, cfg);
          kept := kept + [job];
          remaining := remaining[1..];
          i := i + 1;
          continue;
        }
      }
      AdmitTurn(final, kept, remaining, active, admitted, cfg);
      active := active + [job];
      queued := queued[..i] + queued[i + 1..];
      ready := ready + [JobReady(job)];
      admitted := admitted + [job];
      remaining := remaining[1..];
      // the source decrements i here and the loop increments it again
    }
    PassDone(final, kept, remaining, active, admitted, cfg);
  }

  /** What is left of a pass, after `kept` were skipped and `admitted` admitted, completes `final`. */
  ghost predicate Tracks(final: PassResult, kept: seq<QueuedJob>, remaining: seq<QueuedJob>,
                         active: seq<QueuedJob>, admitted: seq<QueuedJob>, cfg: QueueConfig)
  {
    var r := Pass(remaining, active, cfg);
    kept + r.pending == final.pending && r.active == final.active && admitted + r.admitted == final.admitted
  }

  /** Skipping the job at the head of what is left. */
  lemma SkipTurn(final: PassResult, kept: seq<QueuedJob>, remaining: seq<QueuedJob>,
                 active: seq<QueuedJob>, admitted: seq<QueuedJob>, cfg: QueueConfig)
    requires Tracks(final, kept, remaining, active, admitted, cfg)
    requires remaining != [] && !GlobalFull(active, cfg) && PoolFull(remaining[0], active, cfg)
    ensures Tracks(final, kept + [remaining[0]], remaining[1..], active, admitted, cfg)
  {
    SkipStep(remaining, active, cfg);
    var r := Pass(remaining[1..], active, cfg);
    assert kept + ([remaining[0]] + r.pending) == (kept + [remaining[0]]) + r.pending;
  }

  /** Admitting the job at the head of what is left, spliced out at index `|kept|`. */
  lemma AdmitTurn(final: PassResult, kept: seq<QueuedJob>, remaining: seq<QueuedJob>,
                  active: seq<QueuedJob>, admitted: seq<QueuedJob>, cfg: QueueConfig)
    requires Tracks(final, kept, remaining, active, admitted, cfg)
    requires remaining != [] && !GlobalFull(active, cfg) && !PoolFull(remaining[0], active, cfg)
    ensures Tracks(final, kept, remaining[1..], active + [remaining[0]], admitted + [remaining[0]], cfg)
    ensures var q := kept + remaining; q[..|kept|] + q[|kept| + 1..] == kept + remaining[1..]
    ensures ReadySignals(admitted + [remaining[0]]) == ReadySignals(admitted) + [JobReady(remaining[0])]
  {
    AdmitStep(remaining, active, cfg);
    var r := Pass(remaining[1..], active + [remaining[0]], cfg);
    assert admitted + ([remaining[0]] + r.admitted) == (admitted + [remaining[0]]) + r.admitted;
    var q := kept + remaining;
    assert q[..|kept|] == kept && q[|kept| + 1..] == remaining[1..];
  }

  /** The pass is over when nothing is left or the global cap is reached. */
  lemma PassDone(final: PassResult, kept: seq<QueuedJob>, remaining: seq<QueuedJob>,
                 active: seq<QueuedJob>, admitted: seq<QueuedJob>, cfg: QueueConfig)
    requires Tracks(final, kept, remaining, active, admitted, cfg)
    requires remaining == [] || GlobalFull(active, cfg)
    ensures final.pending == kept + remaining && final.active == active && final.admitted == admitted
  {
    assert admitted + [] == admitted;
  }

  /** The first step of a pass that skips a job whose pool is full. */
  lemma SkipStep(q: seq<QueuedJob>, active: seq<QueuedJob>, cfg: QueueConfig)
    requires q != [] && !GlobalFull(active, cfg) && PoolFull(q[0], active, cfg)
    ensures var r := Pass(q[1..], active, cfg);
            Pass(q, active, cfg) == PassResult([q[0]] + r.pending, r.active, r.admitted)
  {
  }

  /** The first step of a pass that admits a job. */
  lemma AdmitStep(q: seq<QueuedJob>, active: seq<QueuedJob>, cfg: QueueConfig)
    requires q != [] && !GlobalFull(active, cfg) && !PoolFull(q[0], active, cfg)
    ensures var r := Pass(q[1..], active + [q[0]], cfg);
            Pass(q, active, cfg) == PassResult(r.pending, r.active, [q[0]] + r.admitted)
  {
  }

  // ---------------------------------------------------------------------
  // removal

  /** `s.filter(j => j !== job)`. */
  function Without(s: seq<QueuedJob>, job: QueuedJob): (r: seq<QueuedJob>)
    ensures job !in r
    ensures multiset(r) == multiset(s)[job := 0]
    decreases |s|
  {
    if s == [] then []
    else if s[0] == job then (assert s == [s[0]] + s[1..]; Without(s[1..], job))
    else (assert s == [s[0]] + s[1..]; [s[0]] + Without(s[1..], job))
  }

  /** Removing a job twice is the same as removing it once. */
  lemma {:induction false} WithoutIdempotent(s: seq<QueuedJob>, job: QueuedJob)
    ensures Without(Without(s, job), job) == Without(s, job)
    decreases |s|
  {
    if s != [] {
      WithoutIdempotent(s[1..], job);
    }
  }

  // ---------------------------------------------------------------------
  // statistics

  datatype JobStats = JobStats(displayName: string, running: nat, queue: nat)

  /** `stats.queue`: platform -> job name -> counters. */
  type Stats = map<string, map<string, JobStats>>

  /** The snapshot entry of (platform, name), if any. */
  function Entry(st: Stats, platform: string, name: string): Option<JobStats>
  {
    if platform in st && name in st[platform] then Some(st[platform][name]) else None
  }

  /** One iteration of a counting loop of getStats. */
  function Bump(st: Stats, j: QueuedJob, running: bool): Stats
  {
    var platform := if j.platform in st then st[j.platform] else map[];
    var entry := if j.name in platform then platform[j.name] else JobStats(j.displayName, 0, 0);
    var entry' := if running then entry.(running := entry.running + 1) else entry.(queue := entry.queue + 1);
    st[j.platform := platform[j.name := entry']]
  }

  function Tally(st: Stats, jobs: seq<QueuedJob>, running: bool): Stats
  {
    if jobs == [] then st else Bump(Tally(st, jobs[..|jobs| - 1], running), jobs[|jobs| - 1], running)
  }

  /** The freshly computed snapshot: active jobs count as running, pending ones as queued. */
  function ComputeStats(active: seq<QueuedJob>, queued: seq<QueuedJob>): (r: Stats)
    ensures forall platform, name :: Entry(r, platform, name).Some? <==>
              CountOf(active, platform, name) + CountOf(queued, platform, name) > 0
  {
    var st := Tally(Tally(map[], active, true), queued, false);
    assert forall platform, name :: Entry(st, platform, name).Some? <==>
              CountOf(active, platform, name) + CountOf(queued, platform, name) > 0 by {
      forall platform, name
        ensures Entry(st, platform, name).Some? <==>
                  CountOf(active, platform, name) + CountOf(queued, platform, name) > 0 {
        TallyEntry(map[], active, true, platform, name);
        TallyEntry(Tally(map[], active, true), queued, false, platform, name);
      }
    }
    st
  }

  /** Jobs of (platform, name) in `jobs`. */
  function CountOf(jobs: seq<QueuedJob>, platform: string, name: string): nat
  {
    if jobs == [] then 0
    else
      var last := jobs[|jobs| - 1];
      CountOf(jobs[..|jobs| - 1], platform, name) + (if last.platform == platform && last.name == name then 1 else 0)
  }

  /** The first job of (platform, name) in `jobs`; there is one exactly when some job matches. */
  function FirstOf(jobs: seq<QueuedJob>, platform: string, name: string): (r: Option<QueuedJob>)
    ensures r.Some? <==> CountOf(jobs, platform, name) > 0
    ensures r.Some? ==> r.value in jobs && r.value.platform == platform && r.value.name == name
  {
    if jobs == [] then None
    else
      var init := FirstOf(jobs[..|jobs| - 1], platform, name);
      var last := jobs[|jobs| - 1];
      if init.Some? then init
      else if last.platform == platform && last.name == name then Some(last)
      else None
  }

  function AddCount(e: JobStats, n: nat, running: bool): JobStats
  {
    if running then e.(running := e.running + n) else e.(queue := e.queue + n)
  }

  /** One counting loop of getStats: every job bumps its (platform, name) counter. */
  method TallyJobs(st: Stats, jobs: seq<QueuedJob>, running: bool) returns (queue: Stats)
    ensures queue == Tally(st, jobs, running)
  {
    queue := st;
    var i := 0;
    while i < |jobs|
      invariant 0 <= i <= |jobs|
      invariant queue == Tally(st, jobs[..i], running)
    {
      queue := BumpEntry(queue, jobs[i], running);
      assert jobs[..i + 1][..i] == jobs[..i];
      i := i + 1;
    }
    assert jobs[..i] == jobs;
  }

  /** The body of a counting loop: create the platform and job entries when missing, then count. */
  method BumpEntry(st: Stats, job: QueuedJob, running: bool) returns (queue: Stats)
    ensures queue == Bump(st, job, running)
  {
    queue := st;
    if job.platform !in queue {
      queue := queue[job.platform := map[]];
    }
    var platform := queue[job.platform];
    assert platform == if job.platform in st then st[job.platform] else map[];
    if job.name !in platform {
      platform := platform[job.name := JobStats(job.displayName, 0, 0)];
    }
    var entry := platform[job.name];
    ghost var initial: map<string, JobStats> := if job.platform in st then st[job.platform] else map[];
    assert entry == if job.name in initial then initial[job.name] else JobStats(job.displayName, 0, 0);
    var counted := if running then entry.(running := entry.running + 1) else entry.(queue := entry.queue + 1);
    platform := platform[job.name := counted];
    assert platform == initial[job.name := counted];
    queue := queue[job.platform := platform];
    assert queue == st[job.platform := platform];
  }

  /** What counting `jobs` into `st` does to the entry of (platform, name). */
  lemma {:induction false} TallyEntry(st: Stats, jobs: seq<QueuedJob>, running: bool, platform: string, name: string)
    ensures var c := CountOf(jobs, platform, name);
            Entry(Tally(st, jobs, running), platform, name) ==
              if c == 0 then Entry(st, platform, name)
              else Some(AddCount(Entry(st, platform, name).GetOr(
                     JobStats(FirstOf(jobs, platform, name).value.displayName, 0, 0)), c, running))
    decreases |jobs|
  {
    if jobs != [] {
      var init, last := jobs[..|jobs| - 1], jobs[|jobs| - 1];
      TallyEntry(st, init, running, platform, name);
      BumpEntryOf(Tally(st, init, running), last, running, platform, name);
    }
  }

  /** Counting one job touches only the entry of its own (platform, name). */
  lemma BumpEntryOf(st: Stats, j: QueuedJob, running: bool, platform: string, name: string)
    ensures Entry(Bump(st, j, running), platform, name) ==
              if j.platform == platform && j.name == name
              then Some(AddCount(Entry(st, platform, name).GetOr(JobStats(j.displayName, 0, 0)), 1, running))
              else Entry(st, platform, name)
  {
  }

  /**
   * The statistics snapshot has an entry for exactly the (platform, name)
   * pairs of the active and pending jobs; `running` counts the active ones,
   * `queue` the pending ones, and the display name is that of the first
   * job seen (active jobs first).
   */
  lemma StatsCountJobs(active: seq<QueuedJob>, queued: seq<QueuedJob>, platform: string, name: string)
    ensures var e := Entry(ComputeStats(active, queued), platform, name);
            (e.Some? <==> CountOf(active, platform, name) + CountOf(queued, platform, name) > 0) &&
            (e.Some? ==>
               e.value.running == CountOf(active, platform, name) &&
               e.value.queue == CountOf(queued, platform, name) &&
               e.value.displayName ==
                 (if CountOf(active, platform, name) > 0 then FirstOf(active, platform, name)
                  else FirstOf(queued, platform, name)).value.displayName)
  {
    TallyEntry(map[], active, true, platform, name);
    TallyEntry(Tally(map[], active, true), queued, false, platform, name);
  }

  // ---------------------------------------------------------------------
  // the queue object

  /** The static state of class Queue. */
  class Queue {
    var queuedJobs: seq<QueuedJob>
    var activeJobs: seq<QueuedJob>
    const cfg: QueueConfig
    var cachedStats: Option<Stats>
    var cachedStatsTime: int
    /** Jobs whose "end" event has `removeJob` as a listener. */
    var endListeners: seq<QueuedJob>
    /** The calls the queue made on jobs, in order. */
    var signals: seq<Signal>

    ghost predicate Valid()
      reads this`queuedJobs, this`activeJobs
    {
      Unique(queuedJobs + activeJobs)
    }

    /** The static initialisers: empty lists, no snapshot, time of loading. */
    constructor(cfg: QueueConfig, loadTime: int)
      ensures Valid()
      ensures this.cfg == cfg && queuedJobs == [] && activeJobs == []
      ensures cachedStats == None && cachedStatsTime == loadTime
      ensures endListeners == [] && signals == []
    {
      this.cfg := cfg;
      queuedJobs := [];
      activeJobs := [];
      cachedStats := None;
      cachedStatsTime := loadTime;
      endListeners := [];
      signals := [];
    }

    /** Append a new job, subscribe `removeJob` to its end, run one admission pass. */
    method QueueJob(job: QueuedJob)
      requires Valid() && job !in queuedJobs && job !in activeJobs
      modifies this`queuedJobs, this`activeJobs, this`signals, this`endListeners
      ensures Valid()
      ensures var r := Pass(old(queuedJobs) + [job], old(activeJobs), cfg);
              queuedJobs == r.pending && activeJobs == r.active &&
              signals == old(signals) + PassSignals(r)
      ensures endListeners == old(endListeners) + [job]
    {
      queuedJobs := queuedJobs + [job];
      endListeners := endListeners + [job];
      assert multiset(queuedJobs + activeJobs) == multiset(old(queuedJobs) + old(activeJobs)) + multiset{job};
      UpdateQueue();
    }

    /** A job ended: drop every occurrence from both lists, then run a pass. */
    method RemoveJob(job: QueuedJob)
      requires Valid()
      modifies this`queuedJobs, this`activeJobs, this`signals
      ensures Valid()
      ensures var r := Pass(Without(old(queuedJobs), job), Without(old(activeJobs), job), cfg);
              queuedJobs == r.pending && activeJobs == r.active &&
              signals == old(signals) + PassSignals(r)
      ensures job !in queuedJobs && job !in activeJobs
    {
      RemovalKeepsUnique(queuedJobs, activeJobs, job, cfg);
      queuedJobs := Without(queuedJobs, job);
      activeJobs := Without(activeJobs, job);
      UpdateQueue();
    }

    /** The admission pass, then the position broadcast if anything was admitted. */
    method UpdateQueue()
      requires Valid()
      modifies this`queuedJobs, this`activeJobs, this`signals
      ensures Valid()
      ensures var r := Pass(old(queuedJobs), old(activeJobs), cfg);
              queuedJobs == r.pending && activeJobs == r.active &&
              signals == old(signals) + PassSignals(r)
    {
      PassKeepsJobsUnique(queuedJobs, activeJobs, cfg);
      var queued, active, sent := RunPass(queuedJobs, activeJobs, cfg);
      queuedJobs, activeJobs, signals := queued, active, signals + sent;
    }

    /**
     * The statistics snapshot: the stored one while it is younger than the
     * cache window, otherwise a freshly counted one, which is stored.
     */
    method GetStats(now: int) returns (stats: Stats)
      modifies this`cachedStats, this`cachedStatsTime
      ensures var hit := old(cachedStatsTime) + CacheDeltaMs > now && old(cachedStats).Some?;
              (hit ==> stats == old(cachedStats).value &&
                       cachedStats == old(cachedStats) && cachedStatsTime == old(cachedStatsTime)) &&
              (!hit ==> stats == ComputeStats(activeJobs, queuedJobs) &&
                        cachedStats == Some(stats) && cachedStatsTime == now)
    {
      if cachedStatsTime + CacheDeltaMs > now && cachedStats.Some? {
        return cachedStats.value;
      }
      var queue := TallyJobs(map[], activeJobs, true);
      queue := TallyJobs(queue, queuedJobs, false);
      cachedStats := Some(queue);
      cachedStatsTime := now;
      stats := queue;
    }
  }
}

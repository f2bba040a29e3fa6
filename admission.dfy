/**
 * The admission loop of `Simulation.CheckQueue`
 * (src/simulation/Simulation.ts): while no limit is set or fewer than
 * `limit` jobs run, shift the head of the queue and push it onto the
 * active list once. It is also the loop `Build.CheckQueue` was evidently
 * meant to be.
 */
module Admissions {
  import opened Lists

  /** What one run of an admission loop leaves in both lists, and whom it started, in order. */
  datatype Admission = Admission(queue: seq<nat>, active: seq<nat>, taken: seq<nat>)

  /** The loop condition, `limit === -1 || Active.length < limit`. */
  predicate Below(limit: int, active: seq<nat>)
  {
    limit == -1 || |active| < limit
  }

  function Admit(queue: seq<nat>, active: seq<nat>, limit: int): Admission
    decreases |queue|
  {
    if !Below(limit, active) || queue == [] then Admission(queue, active, [])
    else
      var r := Admit(queue[1..], active + [queue[0]], limit);
      Admission(r.queue, r.active, [queue[0]] + r.taken)
  }

  /** How many queued jobs one pass admits. */
  function Admitted(queued: nat, running: nat, limit: int): nat
  {
    if limit == -1 then queued
    else if running >= limit then 0
    else Min(queued, limit - running)
  }

  /**
   * A pass admits queued jobs from the head, in order, each once, until
   * `limit` run or the queue is empty; it never pushes the active list past
   * the limit, and it stops short of the limit only when the queue is empty.
   */
  lemma {:induction false} AdmitFillsToLimit(queue: seq<nat>, active: seq<nat>, limit: int)
    ensures var k := Admitted(|queue|, |active|, limit);
      var r := Admit(queue, active, limit);
      && k <= |queue| && r.queue == queue[k..] && r.taken == queue[..k] && r.active == active + queue[..k]
      && (limit >= 0 && |active| <= limit ==> |r.active| <= limit)
      && (limit >= 0 && |active| <= limit && r.queue != [] ==> |r.active| == limit)
    decreases |queue|
  {
    var k := Admitted(|queue|, |active|, limit);
    if Below(limit, active) && queue != [] {
      var a2 := active + [queue[0]];
      AdmitFillsToLimit(queue[1..], a2, limit);
      var k2 := Admitted(|queue| - 1, |a2|, limit);
      assert k == k2 + 1;
      assert queue[..k] == [queue[0]] + queue[1..][..k2];
      assert queue[1..][k2..] == queue[k..];
    } else {
      assert k == 0;
    }
  }

  /** The loop stops when the limit is reached or the queue is empty. */
  lemma AdmitDone(queue: seq<nat>, active: seq<nat>, limit: int)
    requires !Below(limit, active) || queue == []
    ensures Admit(queue, active, limit) == Admission(queue, active, [])
  {
  }

  /** One turn of the loop keeps what is left to admit. */
  lemma AdmitTurn(queue: seq<nat>, active: seq<nat>, taken: seq<nat>, total: Admission, limit: int)
    requires Below(limit, active) && queue != []
    requires var a := Admit(queue, active, limit);
      a.queue == total.queue && a.active == total.active && taken + a.taken == total.taken
    ensures var a := Admit(queue[1..], active + [queue[0]], limit);
      a.queue == total.queue && a.active == total.active && (taken + [queue[0]]) + a.taken == total.taken
  {
    var r := Admit(queue[1..], active + [queue[0]], limit);
    assert taken + ([queue[0]] + r.taken) == (taken + [queue[0]]) + r.taken;
  }
}

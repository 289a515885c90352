/** The batch scheduler (crates/agent/src/lib.rs `execute_batch`): maximal adjacent groups of
    parallel-safe calls run concurrently under a semaphore, everything else runs alone in place. */
module Schedulers {
  import opened Wrappers

  /** What an observer sees: the i-th call of the batch begins, and ends. */
  datatype Tick = Began(i: nat) | Ended(i: nat)

  datatype Output = Output(text: string, isError: bool)

  /** The calls that have begun and not ended. */
  function InFlight(trace: seq<Tick>): set<nat> {
    if trace == [] then {}
    else
      var before := InFlight(trace[..|trace| - 1]);
      var last := trace[|trace| - 1];
      if last.Began? then before + {last.i} else before - {last.i}
  }

  ghost predicate Capped(trace: seq<Tick>, cap: nat) {
    forall k :: 0 <= k <= |trace| ==> |InFlight(trace[..k])| <= cap
  }

  ghost predicate BeginsThenEnds(trace: seq<Tick>, i: nat) {
    exists b, e :: 0 <= b < e < |trace| && trace[b] == Began(i) && trace[e] == Ended(i)
  }

  /** Exactly the calls `lo..hi` run, each exactly once. */
  ghost predicate EachOnce(trace: seq<Tick>, lo: nat, hi: nat) {
    && (forall k :: 0 <= k < |trace| ==> lo <= trace[k].i < hi)
    && (forall j, k :: 0 <= j < k < |trace| ==> trace[j] != trace[k])
    && (forall i :: lo <= i < hi ==> BeginsThenEnds(trace, i))
  }

  /** Nothing happens between the call's begin and its end, everything before belongs to earlier calls
      and everything after to later ones. */
  ghost predicate AloneAt(trace: seq<Tick>, i: nat, at: nat) {
    && at + 1 < |trace| && trace[at] == Began(i) && trace[at + 1] == Ended(i)
    && (forall k :: 0 <= k < at ==> trace[k].i < i)
    && (forall k :: at + 1 < k < |trace| ==> i < trace[k].i)
  }

  ghost predicate Alone(trace: seq<Tick>, i: nat) {
    exists at: nat :: AloneAt(trace, i, at)
  }

  /** The schedule of the calls `0..hi`. */
  ghost predicate Schedule(trace: seq<Tick>, parallel: seq<bool>, cap: nat, hi: nat)
    requires hi <= |parallel|
  {
    && EachOnce(trace, 0, hi)
    && Capped(trace, cap)
    && InFlight(trace) == {}
    && forall i :: 0 <= i < hi && !parallel[i] ==> Alone(trace, i)
  }

  lemma InFlightSnoc(trace: seq<Tick>, t: Tick)
    ensures InFlight(trace + [t]) == if t.Began? then InFlight(trace) + {t.i} else InFlight(trace) - {t.i}
  {
    assert (trace + [t])[..|trace|] == trace;
  }

  lemma CappedSnoc(trace: seq<Tick>, t: Tick, cap: nat)
    requires Capped(trace, cap) && |InFlight(trace + [t])| <= cap
    ensures Capped(trace + [t], cap)
  {
    var all := trace + [t];
    forall k | 0 <= k <= |all|
      ensures |InFlight(all[..k])| <= cap
    {
      if k <= |trace| {
        assert all[..k] == trace[..k];
      } else {
        assert all[..k] == all;
      }
    }
  }

  lemma {:induction false} InFlightConcat(a: seq<Tick>, b: seq<Tick>)
    requires InFlight(a) == {}
    ensures InFlight(a + b) == InFlight(b)
  {
    if b == [] {
      assert a + b == a;
    } else {
      InFlightConcat(a, b[..|b| - 1]);
      assert (a + b)[..|a + b| - 1] == a + b[..|b| - 1];
    }
  }

  lemma CappedConcat(a: seq<Tick>, b: seq<Tick>, cap: nat)
    requires InFlight(a) == {} && Capped(a, cap) && Capped(b, cap)
    ensures Capped(a + b, cap)
  {
    forall k | 0 <= k <= |a + b|
      ensures |InFlight((a + b)[..k])| <= cap
    {
      if k <= |a| {
        assert (a + b)[..k] == a[..k];
      } else {
        assert (a + b)[..k] == a + b[..k - |a|];
        InFlightConcat(a, b[..k - |a|]);
      }
    }
  }

  lemma BeginsThenEndsGrows(a: seq<Tick>, b: seq<Tick>, i: nat)
    requires BeginsThenEnds(a, i) || BeginsThenEnds(b, i)
    ensures BeginsThenEnds(a + b, i)
  {
    if BeginsThenEnds(a, i) {
      var x, y :| 0 <= x < y < |a| && a[x] == Began(i) && a[y] == Ended(i);
      assert (a + b)[x] == Began(i) && (a + b)[y] == Ended(i);
    } else {
      var x, y :| 0 <= x < y < |b| && b[x] == Began(i) && b[y] == Ended(i);
      assert (a + b)[|a| + x] == Began(i) && (a + b)[|a| + y] == Ended(i);
    }
  }

  lemma EachOnceConcat(a: seq<Tick>, b: seq<Tick>, lo: nat, mid: nat, hi: nat)
    requires lo <= mid <= hi && EachOnce(a, lo, mid) && EachOnce(b, mid, hi)
    ensures EachOnce(a + b, lo, hi)
  {
    forall i | lo <= i < hi
      ensures BeginsThenEnds(a + b, i)
    {
      BeginsThenEndsGrows(a, b, i);
    }
  }

  lemma AloneGrows(a: seq<Tick>, b: seq<Tick>, i: nat, mid: nat, hi: nat)
    requires Alone(a, i) && i < mid && EachOnce(b, mid, hi)
    ensures Alone(a + b, i)
  {
    var at: nat :| AloneAt(a, i, at);
    assert AloneAt(a + b, i, at);
  }

  /** A scheduled prefix followed by the complete run of the next calls. */
  lemma ScheduleConcat(a: seq<Tick>, b: seq<Tick>, parallel: seq<bool>, cap: nat, mid: nat, hi: nat)
    requires mid <= hi <= |parallel| && Schedule(a, parallel, cap, mid)
    requires EachOnce(b, mid, hi) && Capped(b, cap) && InFlight(b) == {}
    requires (forall i :: mid <= i < hi ==> parallel[i]) || (hi == mid + 1 && b == [Began(mid), Ended(mid)])
    ensures Schedule(a + b, parallel, cap, hi)
  {
    EachOnceConcat(a, b, 0, mid, hi);
    CappedConcat(a, b, cap);
    InFlightConcat(a, b);
    forall i | 0 <= i < hi && !parallel[i]
      ensures Alone(a + b, i)
    {
      if i < mid {
        AloneGrows(a, b, i, mid, hi);
      } else {
        assert AloneAt(a + b, i, |a|);
      }
    }
  }

  /** Where a group stands: who waits for a permit, who runs, what has come back. */
  ghost predicate GroupOk(trace: seq<Tick>, lo: nat, hi: nat, waiting: set<nat>, running: set<nat>,
                          done: map<nat, Output>, outcome: nat -> Output) {
    && (forall i :: lo <= i < hi <==> i in waiting || i in running || i in done)
    && (forall i :: i in waiting ==> i !in running && i !in done)
    && (forall i :: i in running ==> i !in done)
    && (forall k :: 0 <= k < |trace| ==> lo <= trace[k].i < hi)
    && (forall j, k :: 0 <= j < k < |trace| ==> trace[j] != trace[k])
    && (forall k :: 0 <= k < |trace| ==> trace[k].i !in waiting)
    && (forall k :: 0 <= k < |trace| && trace[k].i in running ==> trace[k].Began?)
    && (forall i :: i in running ==> exists b :: 0 <= b < |trace| && trace[b] == Began(i))
    && (forall i :: i in done ==> BeginsThenEnds(trace, i) && done[i] == outcome(i))
  }

  lemma GroupBegins(trace: seq<Tick>, lo: nat, hi: nat, waiting: set<nat>, running: set<nat>,
                    done: map<nat, Output>, outcome: nat -> Output, i: nat)
    requires GroupOk(trace, lo, hi, waiting, running, done, outcome) && i in waiting
    ensures GroupOk(trace + [Began(i)], lo, hi, waiting - {i}, running + {i}, done, outcome)
  {
    var all := trace + [Began(i)];
    forall j | j in running + {i}
      ensures exists b :: 0 <= b < |all| && all[b] == Began(j)
    {
      if j == i {
        assert all[|trace|] == Began(i);
      } else {
        var b :| 0 <= b < |trace| && trace[b] == Began(j);
        assert all[b] == Began(j);
      }
    }
    forall j | j in done
      ensures BeginsThenEnds(all, j)
    {
      BeginsThenEndsGrows(trace, [Began(i)], j);
    }
  }

  lemma GroupEnds(trace: seq<Tick>, lo: nat, hi: nat, waiting: set<nat>, running: set<nat>,
                  done: map<nat, Output>, outcome: nat -> Output, i: nat)
    requires GroupOk(trace, lo, hi, waiting, running, done, outcome) && i in running
    ensures GroupOk(trace + [Ended(i)], lo, hi, waiting, running - {i}, done[i := outcome(i)], outcome)
  {
    var all := trace + [Ended(i)];
    forall j | j in running - {i}
      ensures exists b :: 0 <= b < |all| && all[b] == Began(j)
    {
      var b :| 0 <= b < |trace| && trace[b] == Began(j);
      assert all[b] == Began(j);
    }
    forall j | j in done[i := outcome(i)]
      ensures BeginsThenEnds(all, j)
    {
      if j == i {
        var b :| 0 <= b < |trace| && trace[b] == Began(i);
        assert all[b] == Began(i) && all[|trace|] == Ended(i);
      } else {
        BeginsThenEndsGrows(trace, [Ended(i)], j);
      }
    }
  }

  function Range(lo: nat, hi: nat): (s: set<nat>)
    requires lo <= hi
    ensures forall i :: i in s <==> lo <= i < hi
    decreases hi - lo
  {
    if lo == hi then {} else {lo} + Range(lo + 1, hi)
  }

  lemma GroupStarts(lo: nat, hi: nat, permits: nat, outcome: nat -> Output)
    requires lo <= hi
    ensures GroupOk([], lo, hi, Range(lo, hi), {}, map[], outcome) && InFlight([]) == {} && Capped([], permits)
  {}

  lemma GroupReturns(trace: seq<Tick>, lo: nat, hi: nat, done: map<nat, Output>, outcome: nat -> Output)
    requires GroupOk(trace, lo, hi, {}, {}, done, outcome)
    ensures EachOnce(trace, lo, hi)
    ensures forall i :: lo <= i < hi ==> i in done && done[i] == outcome(i)
  {}

  /** What can happen next in a group. */
  predicate CanTick(t: Tick, waiting: set<nat>, running: set<nat>, permits: nat) {
    if t.Began? then t.i in waiting && |running| < permits else t.i in running
  }

  /** A complete run of the calls `lo..hi` under the permits. */
  ghost predicate GroupRun(part: seq<Tick>, lo: nat, hi: nat, permits: nat) {
    EachOnce(part, lo, hi) && Capped(part, permits)
  }

  lemma Happened(trace: seq<Tick>, t: Tick) returns (k: nat)
    requires BeginsThenEnds(trace, t.i)
    ensures k < |trace| && trace[k] == t
  {
    var b, e :| 0 <= b < e < |trace| && trace[b] == Began(t.i) && trace[e] == Ended(t.i);
    k := if t.Began? then b else e;
  }

  // A tick that has not happened is of a call that is not done, and a beginning of one that does not run.
  lemma NotYet(trace: seq<Tick>, lo: nat, hi: nat, waiting: set<nat>, running: set<nat>, done: map<nat, Output>,
               outcome: nat -> Output, t: Tick)
    requires GroupOk(trace, lo, hi, waiting, running, done, outcome) && forall k :: 0 <= k < |trace| ==> trace[k] != t
    ensures t.i !in done && (t.Began? ==> t.i !in running)
  {
    if t.i in done {
      var k := Happened(trace, t);
    }
  }

  /** A group can always take the next step of any complete run it has followed so far. */
  lemma CanFollow(trace: seq<Tick>, lo: nat, hi: nat, waiting: set<nat>, running: set<nat>, done: map<nat, Output>,
                  outcome: nat -> Output, permits: nat, part: seq<Tick>)
    requires GroupOk(trace, lo, hi, waiting, running, done, outcome) && InFlight(trace) == running
    requires GroupRun(part, lo, hi, permits) && trace <= part && (waiting != {} || running != {})
    ensures |trace| < |part| && CanTick(part[|trace|], waiting, running, permits)
  {
    var n := |trace|;
    Unfinished(trace, lo, hi, waiting, running, done, outcome, permits, part);
    var t := part[n];
    assert forall k :: 0 <= k < n ==> trace[k] == part[k] && trace[k] != t;
    NotYet(trace, lo, hi, waiting, running, done, outcome, t);
    if t.Began? {
      InFlightSnoc(trace, t);
      assert part[..n + 1] == trace + [t];
      assert |InFlight(part[..n + 1])| <= permits;
      assert |running + {t.i}| == |running| + 1;
    } else {
      assert BeginsThenEnds(part, t.i);
      var b, e :| 0 <= b < e < |part| && part[b] == Began(t.i) && part[e] == Ended(t.i);
      assert e == n && trace[b] == Began(t.i);
    }
  }

  lemma Unfinished(trace: seq<Tick>, lo: nat, hi: nat, waiting: set<nat>, running: set<nat>, done: map<nat, Output>,
                   outcome: nat -> Output, permits: nat, part: seq<Tick>)
    requires GroupOk(trace, lo, hi, waiting, running, done, outcome)
    requires GroupRun(part, lo, hi, permits) && trace <= part && (waiting != {} || running != {})
    ensures |trace| < |part|
  {
    var i :| i in waiting + running;
    var e := Occurs(part, lo, hi, Ended(i));
    NoEnd(trace, lo, hi, waiting, running, done, outcome, i);
  }

  lemma NoEnd(trace: seq<Tick>, lo: nat, hi: nat, waiting: set<nat>, running: set<nat>, done: map<nat, Output>,
              outcome: nat -> Output, i: nat)
    requires GroupOk(trace, lo, hi, waiting, running, done, outcome) && (i in waiting || i in running)
    ensures Ended(i) !in trace
  {
  }

  /** A complete run of a group is no prefix of another. */
  lemma NothingLeft(trace: seq<Tick>, part: seq<Tick>, lo: nat, hi: nat)
    requires EachOnce(trace, lo, hi) && EachOnce(part, lo, hi) && trace <= part
    ensures trace == part
  {
    if |trace| < |part| {
      var k := Occurs(trace, lo, hi, part[|trace|]);
    }
  }

  lemma Occurs(trace: seq<Tick>, lo: nat, hi: nat, t: Tick) returns (k: nat)
    requires EachOnce(trace, lo, hi) && lo <= t.i < hi
    ensures k < |trace| && trace[k] == t
  {
    assert BeginsThenEnds(trace, t.i);
    var b, e :| 0 <= b < e < |trace| && trace[b] == Began(t.i) && trace[e] == Ended(t.i);
    k := if t.Began? then b else e;
  }

  /** Whatever can happen next; what is asked for, if it can. */
  method NextTick(waiting: set<nat>, running: set<nat>, permits: nat, order: seq<Tick>, k: nat) returns (next: Tick)
    requires 1 <= permits && (waiting != {} || running != {})
    ensures CanTick(next, waiting, running, permits)
    ensures k < |order| && CanTick(order[k], waiting, running, permits) ==> next == order[k]
  {
    if k < |order| && CanTick(order[k], waiting, running, permits) {
      return order[k];
    }
    if
    case waiting != {} && |running| < permits =>
      var i :| i in waiting;
      next := Began(i);
    case running != {} =>
      var i :| i in running;
      next := Ended(i);
  }

  lemma GroupSteps(trace: seq<Tick>, next: Tick, lo: nat, hi: nat, waiting: set<nat>, running: set<nat>,
                   done: map<nat, Output>, outcome: nat -> Output, permits: nat)
    requires GroupOk(trace, lo, hi, waiting, running, done, outcome) && CanTick(next, waiting, running, permits)
    requires InFlight(trace) == running && Capped(trace, permits) && |running| <= permits
    ensures next.Began? ==>
      && GroupOk(trace + [next], lo, hi, waiting - {next.i}, running + {next.i}, done, outcome)
      && InFlight(trace + [next]) == running + {next.i} && |running + {next.i}| <= permits
    ensures next.Ended? ==>
      && GroupOk(trace + [next], lo, hi, waiting, running - {next.i}, done[next.i := outcome(next.i)], outcome)
      && InFlight(trace + [next]) == running - {next.i} && |running - {next.i}| <= permits
    ensures Capped(trace + [next], permits)
  {
    hide GroupOk, InFlight, Capped;
    InFlightSnoc(trace, next);
    if next.Began? {
      GroupBegins(trace, lo, hi, waiting, running, done, outcome, next.i);
    } else {
      GroupEnds(trace, lo, hi, waiting, running, done, outcome, next.i);
    }
    CappedSnoc(trace, next, permits);
  }

  lemma FollowedAll(trace: seq<Tick>, part: seq<Tick>, lo: nat, hi: nat, permits: nat)
    requires EachOnce(trace, lo, hi) && GroupRun(part, lo, hi, permits) && trace <= part
    ensures trace == part
  {
    NothingLeft(trace, part, lo, hi);
  }

  /** `join_all` over one group: a waiting call may begin whenever a permit is free, a running call may
      end at any time. `order` is what the runtime would have happen, from `at` on; what cannot happen it
      leaves open. Every interleaving is covered, and every complete run can be had. */
  method RunGroup(lo: nat, hi: nat, permits: nat, outcome: nat -> Output, order: seq<Tick>, at: nat, ghost part: seq<Tick>)
    returns (outputs: seq<Output>, steps: nat, ghost trace: seq<Tick>)
    requires lo <= hi && 1 <= permits
    requires at + |part| <= |order| && order[at..at + |part|] == part
    ensures |outputs| == hi - lo && forall k :: 0 <= k < hi - lo ==> outputs[k] == outcome(lo + k)
    ensures EachOnce(trace, lo, hi) && Capped(trace, permits) && InFlight(trace) == {}
    ensures steps == |trace| && (GroupRun(part, lo, hi, permits) ==> trace == part)
  {
    hide GroupOk, InFlight, Capped, EachOnce, GroupRun;
    var waiting := Range(lo, hi);
    var running: set<nat> := {};
    var done: map<nat, Output> := map[];
    steps := 0;
    trace := [];
    GroupStarts(lo, hi, permits, outcome);
    while waiting != {} || running != {}
      invariant GroupOk(trace, lo, hi, waiting, running, done, outcome)
      invariant InFlight(trace) == running && Capped(trace, permits) && |running| <= permits
      invariant steps == |trace| && (GroupRun(part, lo, hi, permits) ==> trace <= part)
      decreases |waiting|, |running|
    {
      var next := NextTick(waiting, running, permits, order, at + steps);
      if GroupRun(part, lo, hi, permits) {
        CanFollow(trace, lo, hi, waiting, running, done, outcome, permits, part);
        assert order[at..at + |part|][steps] == part[steps];
      }
      GroupSteps(trace, next, lo, hi, waiting, running, done, outcome, permits);
      if next.Began? {
        waiting := waiting - {next.i};
        running := running + {next.i};
      } else {
        running := running - {next.i};
        done := done[next.i := outcome(next.i)];
      }
      trace := trace + [next];
      steps := steps + 1;
    }
    GroupReturns(trace, lo, hi, done, outcome);
    if GroupRun(part, lo, hi, permits) {
      FollowedAll(trace, part, lo, hi, permits);
    }
    outputs := InOrder(lo, hi, done, outcome);
  }

  /** What came back, by request order. */
  method InOrder(lo: nat, hi: nat, done: map<nat, Output>, ghost outcome: nat -> Output) returns (outputs: seq<Output>)
    requires lo <= hi && forall i :: lo <= i < hi ==> i in done && done[i] == outcome(i)
    ensures |outputs| == hi - lo && forall k :: 0 <= k < hi - lo ==> outputs[k] == outcome(lo + k)
  {
    outputs := [];
    for k := lo to hi
      invariant |outputs| == k - lo
      invariant forall j :: 0 <= j < k - lo ==> outputs[j] == outcome(lo + j)
    {
      outputs := outputs + [done[k]];
    }
  }

  /** The next group of a schedule: the ticks behind `order[..t]`, in which the calls before `lo` ran, that
      belong to the calls `lo..hi`. */
  lemma NextPart(order: seq<Tick>, parallel: seq<bool>, cap: nat, t: nat, lo: nat, hi: nat) returns (part: seq<Tick>)
    requires Schedule(order, parallel, cap, |parallel|) && t <= |order| && lo < hi <= |parallel|
    requires EachOnce(order[..t], 0, lo) && InFlight(order[..t]) == {}
    requires (!parallel[lo] && hi == lo + 1) || hi == |parallel| || !parallel[hi]
    ensures t + |part| <= |order| && order[t..t + |part|] == part && GroupRun(part, lo, hi, cap)
  {
    hide InFlight, Capped;
    var c := Cut(order, t, hi);
    part := order[t..c];
    LaterTicks(order, parallel, cap, t, lo);
    NoneAfterCut(order, parallel, cap, c, hi);
    forall i | lo <= i < hi
      ensures BeginsThenEnds(part, i)
    {
      assert BeginsThenEnds(order, i);
      var b, e :| 0 <= b < e < |order| && order[b] == Began(i) && order[e] == Ended(i);
      assert order[..t] + part == order[..c];
      NotBefore(order, t, lo, b);
      NotBefore(order, t, lo, e);
      assert b < c && e < c;
      assert part[b - t] == Began(i) && part[e - t] == Ended(i);
    }
    assert EachOnce(part, lo, hi);
    CappedPart(order, cap, t, c) by {
      assert Capped(order, cap);
    }
  }

  /** The first position from `t` on whose call is not below `hi`. */
  lemma {:induction false} Cut(order: seq<Tick>, t: nat, hi: nat) returns (c: nat)
    requires t <= |order|
    ensures t <= c <= |order| && (forall k :: t <= k < c ==> order[k].i < hi) && (c < |order| ==> order[c].i >= hi)
    decreases |order| - t
  {
    if t == |order| || order[t].i >= hi {
      c := t;
    } else {
      c := Cut(order, t + 1, hi);
    }
  }

  lemma NotBefore(order: seq<Tick>, t: nat, lo: nat, k: nat)
    requires t <= |order| && EachOnce(order[..t], 0, lo) && k < |order|
    ensures k < t ==> order[k].i < lo
  {
    if k < t {
      assert order[..t][k] == order[k];
    }
  }

  lemma LaterTicks(order: seq<Tick>, parallel: seq<bool>, cap: nat, t: nat, lo: nat)
    requires Schedule(order, parallel, cap, |parallel|) && t <= |order| && EachOnce(order[..t], 0, lo)
    ensures forall k :: t <= k < |order| ==> order[k].i >= lo
  {
    hide InFlight, Capped, Alone;
    forall k | t <= k < |order|
      ensures order[k].i >= lo
    {
      if order[k].i < lo {
        var b, e := RanBefore(order, t, lo, order[k].i);
      }
    }
  }

  lemma RanBefore(order: seq<Tick>, t: nat, lo: nat, i: nat) returns (b: nat, e: nat)
    requires t <= |order| && EachOnce(order[..t], 0, lo) && i < lo
    ensures b < e < t && order[b] == Began(i) && order[e] == Ended(i)
  {
    assert BeginsThenEnds(order[..t], i);
    b, e :| 0 <= b < e < t && order[..t][b] == Began(i) && order[..t][e] == Ended(i);
  }

  // Behind a call of a later group there is none of an earlier one.
  lemma NoneAfterCut(order: seq<Tick>, parallel: seq<bool>, cap: nat, c: nat, hi: nat)
    requires Schedule(order, parallel, cap, |parallel|) && c <= |order| && 0 < hi <= |parallel|
    requires !parallel[hi - 1] || hi == |parallel| || !parallel[hi]
    requires c < |order| ==> order[c].i >= hi
    ensures forall k :: c <= k < |order| ==> order[k].i >= hi
  {
    hide InFlight, Capped, BeginsThenEnds;
    if c < |order| {
      var m := if parallel[hi - 1] then hi else hi - 1;
      assert !parallel[m] && Alone(order, m);
      var at: nat :| AloneAt(order, m, at);
      if m == hi {
        assert forall k :: c <= k < |order| ==> order[k].i >= hi by {
          if c > at {
            assert c == at + 1 || c > at + 1;
          }
        }
      } else {
        assert c > at + 1;
      }
    }
  }

  lemma CappedPart(order: seq<Tick>, cap: nat, t: nat, c: nat)
    requires Capped(order, cap) && t <= c <= |order| && InFlight(order[..t]) == {}
    ensures Capped(order[t..c], cap)
  {
    var part := order[t..c];
    forall k | 0 <= k <= |part|
      ensures |InFlight(part[..k])| <= cap
    {
      assert order[..t + k] == order[..t] + part[..k];
      InFlightConcat(order[..t], part[..k]);
    }
  }

  lemma SerialPart(part: seq<Tick>, i: nat, cap: nat)
    requires GroupRun(part, i, i + 1, cap)
    ensures part == [Began(i), Ended(i)]
  {
    assert BeginsThenEnds(part, i);
    var b, e :| 0 <= b < e < |part| && part[b] == Began(i) && part[e] == Ended(i);
    TicksOf(part, i);
  }

  lemma {:induction false} TicksOf(ts: seq<Tick>, i: nat)
    requires forall k :: 0 <= k < |ts| ==> ts[k].i == i
    requires forall j, k :: 0 <= j < k < |ts| ==> ts[j] != ts[k]
    ensures |ts| <= 2
  {
    var seen := set t | t in ts;
    Distinct(ts);
    assert seen <= {Began(i), Ended(i)};
    assert {Began(i), Ended(i)} == seen + ({Began(i), Ended(i)} - seen);
    assert |seen| <= |{Began(i), Ended(i)}| == 2;
  }

  lemma {:induction false} Distinct(ts: seq<Tick>)
    requires forall j, k :: 0 <= j < k < |ts| ==> ts[j] != ts[k]
    ensures |set t | t in ts| == |ts|
  {
    if ts != [] {
      var init, last := ts[..|ts| - 1], ts[|ts| - 1];
      Distinct(init);
      assert (set t | t in ts) == (set t | t in init) + {last};
    }
  }

  /** Outputs come back in request order. The trace is a schedule: a call that is not parallel-safe runs
      alone, at most `max(1, maxParallel)` calls run at once, and every call runs exactly once. And every
      schedule can happen: if `order`, the order in which the runtime would have calls begin and end, is a
      schedule, that is the trace. */
  method ExecuteBatch(parallel: seq<bool>, maxParallel: nat, outcome: nat -> Output, order: seq<Tick>)
    returns (outputs: seq<Output>, ghost trace: seq<Tick>)
    ensures |outputs| == |parallel| && forall i :: 0 <= i < |parallel| ==> outputs[i] == outcome(i)
    ensures Schedule(trace, parallel, if maxParallel > 1 then maxParallel else 1, |parallel|)
    ensures Schedule(order, parallel, if maxParallel > 1 then maxParallel else 1, |parallel|) ==> trace == order
  {
    hide Schedule, EachOnce, Capped, InFlight, Alone, GroupRun;
    var permits := if maxParallel > 1 then maxParallel else 1;
    outputs := [];
    trace := [];
    var idx := 0;
    var at := 0;
    ghost var follows := Schedule(order, parallel, permits, |parallel|);
    NothingScheduled(parallel, permits);
    while idx < |parallel|
      invariant 0 <= idx <= |parallel| && |outputs| == idx && at == |trace|
      invariant forall i :: 0 <= i < idx ==> outputs[i] == outcome(i)
      invariant Schedule(trace, parallel, permits, idx)
      invariant follows ==> trace <= order
    {
      ghost var part: seq<Tick> := [];
      if parallel[idx] {
        var end := idx + 1;
        while end < |parallel| && parallel[end]
          invariant idx < end <= |parallel|
          invariant forall i :: idx <= i < end ==> parallel[i]
        {
          end := end + 1;
        }
        if follows {
          ScheduledSoFar(trace, parallel, permits, idx);
          assert order[..at] == trace;
          part := NextPart(order, parallel, permits, at, idx, end);
        }
        var group, steps;
        ghost var ran;
        group, steps, ran := RunGroup(idx, end, permits, outcome, order, if at <= |order| then at else |order|, part);
        ScheduleConcat(trace, ran, parallel, permits, idx, end);
        assert forall j :: 0 <= j < |group| ==> group[j] == outcome(idx + j);
        forall i | idx <= i < end
          ensures (outputs + group)[i] == outcome(i)
        {
          assert (outputs + group)[i] == group[i - idx];
        }
        outputs := outputs + group;
        trace := trace + ran;
        at := at + steps;
        idx := end;
      } else {
        if follows {
          ScheduledSoFar(trace, parallel, permits, idx);
          assert order[..at] == trace;
          part := NextPart(order, parallel, permits, at, idx, idx + 1);
          SerialPart(part, idx, permits);
        }
        ghost var ran := [Began(idx), Ended(idx)];
        SerialRun(idx, permits);
        ScheduleConcat(trace, ran, parallel, permits, idx, idx + 1);
        outputs := outputs + [outcome(idx)];
        trace := trace + ran;
        at := at + 2;
        idx := idx + 1;
      }
    }
    if follows {
      ScheduledAll(trace, order, parallel, permits);
    }
  }

  lemma ScheduledSoFar(trace: seq<Tick>, parallel: seq<bool>, cap: nat, hi: nat)
    requires hi <= |parallel| && Schedule(trace, parallel, cap, hi)
    ensures EachOnce(trace, 0, hi) && InFlight(trace) == {}
  {}

  lemma ScheduledAll(trace: seq<Tick>, order: seq<Tick>, parallel: seq<bool>, cap: nat)
    requires Schedule(trace, parallel, cap, |parallel|) && Schedule(order, parallel, cap, |parallel|) && trace <= order
    ensures trace == order
  {
    NothingLeft(trace, order, 0, |parallel|);
  }

  lemma NothingScheduled(parallel: seq<bool>, cap: nat)
    ensures Schedule([], parallel, cap, 0)
  {}

  lemma SerialRun(i: nat, cap: nat)
    requires 1 <= cap
    ensures var part := [Began(i), Ended(i)];
            EachOnce(part, i, i + 1) && Capped(part, cap) && InFlight(part) == {}
  {
    var part := [Began(i), Ended(i)];
    assert part[0] == Began(i) && part[1] == Ended(i);
    InFlightSnoc([], Began(i));
    InFlightSnoc([Began(i)], Ended(i));
    assert [] + [Began(i)] == [Began(i)] && [Began(i)] + [Ended(i)] == part;
    CappedSnoc([], Began(i), cap);
    CappedSnoc([Began(i)], Ended(i), cap);
  }
}

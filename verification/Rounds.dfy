// The fully parallel executor: every round begins all the steps ReadySteps returns and
// carries each to success. After k rounds exactly the steps of dependency depth below k are done.
module Rounds {
  import opened Plans
  import opened Executor

  function BeginAll(steps: seq<Step>, idx: seq<nat>): seq<Action>
    requires InBounds(steps, idx)
  {
    seq(|idx|, k requires 0 <= k < |idx| => Begin(steps[idx[k]].id, 0))
  }

  function SucceedAll(steps: seq<Step>, idx: seq<nat>): seq<Action>
    requires InBounds(steps, idx)
  {
    seq(|idx|, k requires 0 <= k < |idx| => Succeed(steps[idx[k]].id, 0))
  }

  predicate InBounds(steps: seq<Step>, idx: seq<nat>) {
    forall k | 0 <= k < |idx| :: idx[k] < |steps|
  }

  lemma IndicesInBounds(steps: seq<Step>)
    ensures InBounds(steps, ReadyIndices(steps))
  {
    var idx := ReadyIndices(steps);
    assert forall k | 0 <= k < |idx| :: idx[k] in idx;
  }

  function RoundActions(steps: seq<Step>): seq<Action> {
    IndicesInBounds(steps);
    var idx := ReadyIndices(steps);
    BeginAll(steps, idx) + SucceedAll(steps, idx)
  }

  /** The moves of the first `k` rounds. */
  function Schedule(steps: seq<Step>, k: nat): seq<Action>
    decreases k, 0
  {
    if k == 0 then []
    else Schedule(steps, k - 1) + RoundActions(AfterRounds(steps, k - 1))
  }

  function AfterRounds(steps: seq<Step>, k: nat): seq<Step>
    decreases k, 1
  {
    Exec(steps, Schedule(steps, k))
  }

  lemma {:induction false} ExecAppend(s: seq<Step>, a: seq<Action>, b: seq<Action>)
    ensures Exec(s, a + b) == Exec(Exec(s, a), b)
    ensures Legal(s, a + b) <==> Legal(s, a) && Legal(Exec(s, a), b)
    decreases |b|
  {
    if b == [] {
      assert a + b == a;
    } else {
      ExecAppend(s, a, b[..|b| - 1]);
      assert (a + b)[..|a + b| - 1] == a + b[..|b| - 1];
    }
  }

  lemma PrefixSnoc(acts: seq<Action>, n: nat)
    requires n < |acts|
    ensures acts[..n + 1][..n] == acts[..n] && acts[..n + 1][n] == acts[n]
  {}

  /** `t` is `s` with the positions `idx[..n]` set to `now` and `idx[n..]` to `before`. */
  ghost predicate Half(s: seq<Step>, t: seq<Step>, idx: seq<nat>, n: nat, before: StepStatus, now: StepStatus) {
    && InBounds(s, idx) && n <= |idx| && SameShape(s, t)
    && (forall k | 0 <= k < n :: t[idx[k]].status == now)
    && (forall k | n <= k < |idx| :: t[idx[k]].status == before)
    && (forall i | 0 <= i < |s| && i !in idx :: t[i].status == s[i].status)
  }

  /** One move advances the frontier by one position. */
  lemma HalfStep(s: seq<Step>, t: seq<Step>, idx: seq<nat>, n: nat, before: StepStatus, a: Action)
    requires Ascending(idx) && n < |idx| && DistinctIds(t)
    requires Half(s, t, idx, n, before, Target(a))
    requires a.id == t[idx[n]].id
    ensures Half(s, Apply(t, a), idx, n + 1, before, Target(a))
  {
    UpdateAt(t, a, idx[n]);
    var u := Apply(t, a);
    assert forall k | 0 <= k < |idx| && k != n :: u[idx[k]] == t[idx[k]];
    assert forall i | 0 <= i < |s| && i !in idx :: u[i] == t[i];
  }

  /** Beginning some ready steps leaves the others ready. */
  lemma StillReady(s: seq<Step>, t: seq<Step>, idx: seq<nat>, n: nat)
    requires Half(s, t, idx, n, Pending, Running) && n < |idx|
    requires forall i | i in idx :: i < |s| && IsReady(s, s[i])
    ensures IsReady(t, t[idx[n]])
  {
    forall d | Completed(s, d) ensures Completed(t, d) {
      var j :| 0 <= j < |s| && s[j].id == d && Done(s[j].status);
      assert t[j].id == d && t[j].status == s[j].status;
    }
    assert idx[n] in idx;
  }

  lemma {:induction false} Begun(s: seq<Step>, n: nat)
    requires DistinctIds(s) && Topological(s)
    requires n <= |ReadyIndices(s)|
    ensures InBounds(s, ReadyIndices(s))
    ensures Legal(s, BeginAll(s, ReadyIndices(s))[..n])
    ensures Half(s, Exec(s, BeginAll(s, ReadyIndices(s))[..n]), ReadyIndices(s), n, Pending, Running)
    decreases n
  {
    IndicesInBounds(s);
    var idx := ReadyIndices(s);
    var acts := BeginAll(s, idx);
    assert forall k | 0 <= k < |idx| :: idx[k] in idx;
    if n > 0 {
      Begun(s, n - 1);
      PrefixSnoc(acts, n - 1);
      var t, a := Exec(s, acts[..n - 1]), acts[n - 1];
      StillReady(s, t, idx, n - 1);
      ShapeKeepsOrder(s, t);
      assert t[idx[n - 1]] in t;
      assert Enabled(t, a);
      HalfStep(s, t, idx, n - 1, Pending, a);
    }
  }

  lemma {:induction false} Ended(s: seq<Step>, t: seq<Step>, idx: seq<nat>, n: nat)
    requires Ascending(idx) && n <= |idx| && DistinctIds(s) && Topological(s)
    requires Half(s, t, idx, |idx|, Pending, Running)
    ensures InBounds(s, idx)
    ensures Legal(t, SucceedAll(s, idx)[..n])
    ensures Half(s, Exec(t, SucceedAll(s, idx)[..n]), idx, n, Running, Succeeded)
    decreases n
  {
    var acts := SucceedAll(s, idx);
    if n > 0 {
      Ended(s, t, idx, n - 1);
      PrefixSnoc(acts, n - 1);
      var u, a := Exec(t, acts[..n - 1]), acts[n - 1];
      ShapeKeepsOrder(s, u);
      assert u[idx[n - 1]] in u;
      assert Enabled(u, a);
      HalfStep(s, u, idx, n - 1, Running, a);
    }
  }

  lemma RoundIsHalves(s: seq<Step>)
    requires DistinctIds(s) && Topological(s)
    ensures Legal(s, RoundActions(s))
    ensures Half(s, Exec(s, RoundActions(s)), ReadyIndices(s), |ReadyIndices(s)|, Running, Succeeded)
  {
    var idx := ReadyIndices(s);
    IndicesInBounds(s);
    var begin, end := BeginAll(s, idx), SucceedAll(s, idx);
    assert Legal(s, begin) && Half(s, Exec(s, begin), idx, |idx|, Pending, Running) by {
      Begun(s, |idx|);
      assert begin[..|idx|] == begin;
    }
    var t := Exec(s, begin);
    assert Legal(t, end) && Half(s, Exec(t, end), idx, |idx|, Running, Succeeded) by {
      Ended(s, t, idx, |idx|);
      assert end[..|idx|] == end;
    }
    ExecAppend(s, begin, end);
  }

  /** A round is a legal run; it completes exactly the ready steps and touches no other. */
  lemma RoundEffect(s: seq<Step>)
    requires DistinctIds(s) && Topological(s)
    ensures Legal(s, RoundActions(s))
    ensures SameShape(s, Exec(s, RoundActions(s)))
    ensures forall i | 0 <= i < |s| ::
      Exec(s, RoundActions(s))[i].status == if IsReady(s, s[i]) then Succeeded else s[i].status
  {
    RoundIsHalves(s);
    RoundDone(s, Exec(s, RoundActions(s)));
  }

  lemma RoundDone(s: seq<Step>, u: seq<Step>)
    requires Half(s, u, ReadyIndices(s), |ReadyIndices(s)|, Running, Succeeded)
    ensures forall i | 0 <= i < |s| :: u[i].status == if IsReady(s, s[i]) then Succeeded else s[i].status
  {
    var idx := ReadyIndices(s);
    forall i | 0 <= i < |s|
      ensures u[i].status == if IsReady(s, s[i]) then Succeeded else s[i].status
    {
      if i in idx {
        var k :| 0 <= k < |idx| && idx[k] == i;
      }
    }
  }

  // ---- depth ----

  function Max(a: nat, b: nat): nat { if a < b then b else a }

  /** The length of the longest dependency chain below a step. */
  function Depth(steps: seq<Step>, b: nat): nat
    requires b < |steps|
    decreases b, b + 1
  {
    DepthOver(steps, b, b)
  }

  function DepthOver(steps: seq<Step>, b: nat, n: nat): nat
    requires n <= b < |steps|
    decreases b, n
  {
    if n == 0 then 0
    else if Dep(steps, b, n - 1) then Max(DepthOver(steps, b, n - 1), 1 + Depth(steps, n - 1))
    else DepthOver(steps, b, n - 1)
  }

  lemma {:induction false} DepthOverBound(steps: seq<Step>, b: nat, n: nat, m: nat)
    requires n <= b < |steps|
    ensures DepthOver(steps, b, n) <= m <==> forall k | 0 <= k < n && Dep(steps, b, k) :: Depth(steps, k) < m
    decreases n
  {
    if n > 0 { DepthOverBound(steps, b, n - 1, m); }
  }

  /** Depth is the least number above the depth of every direct dependency. */
  lemma DepthBound(steps: seq<Step>, b: nat, m: nat)
    requires b < |steps|
    ensures Depth(steps, b) <= m <==> forall k | 0 <= k < b && Dep(steps, b, k) :: Depth(steps, k) < m
  {
    DepthOverBound(steps, b, b, m);
  }

  /** The step that the next round completes are those of the next depth. */
  lemma ReadyAtDepth(s0: seq<Step>, s: seq<Step>, k: nat, i: nat)
    requires SameShape(s0, s) && DistinctIds(s) && Topological(s) && i < |s|
    requires forall j | 0 <= j < |s0| :: s[j].status == if Depth(s0, j) < k then Succeeded else Pending
    ensures IsReady(s, s[i]) <==> Depth(s0, i) == k
  {
    ReadyAt(s, i);
    DepthBound(s0, i, k);
    assert forall j | 0 <= j < i :: Dep(s, i, j) <==> Dep(s0, i, j);
  }

  /** After k rounds exactly the steps of depth below k are done, and nothing else has begun. */
  lemma {:induction false} RoundsFollowDepth(s0: seq<Step>, k: nat)
    requires Fresh(s0)
    ensures Legal(s0, Schedule(s0, k)) && SameShape(s0, AfterRounds(s0, k))
    ensures forall i | 0 <= i < |s0| ::
      AfterRounds(s0, k)[i].status == if Depth(s0, i) < k then Succeeded else Pending
    decreases k
  {
    if k > 0 {
      RoundsFollowDepth(s0, k - 1);
      var s := AfterRounds(s0, k - 1);
      ShapeKeepsOrder(s0, s);
      RoundEffect(s);
      ExecAppend(s0, Schedule(s0, k - 1), RoundActions(s));
      var t := Exec(s, RoundActions(s));
      assert AfterRounds(s0, k) == t;
      forall i | 0 <= i < |s0|
        ensures t[i].status == if Depth(s0, i) < k then Succeeded else Pending
      {
        ReadyAtDepth(s0, s, k - 1, i);
      }
    }
  }

  predicate AllDone(steps: seq<Step>) {
    forall i | 0 <= i < |steps| :: Done(steps[i].status)
  }

  predicate DepthBelow(steps: seq<Step>, k: nat) {
    forall i | 0 <= i < |steps| :: Depth(steps, i) < k
  }

  /** The plan is finished after k rounds exactly when k exceeds every depth. */
  lemma RoundsToFinish(s0: seq<Step>, k: nat)
    requires Fresh(s0)
    ensures AllDone(AfterRounds(s0, k)) <==> DepthBelow(s0, k)
  {
    RoundsFollowDepth(s0, k);
    var s := AfterRounds(s0, k);
    forall i | 0 <= i < |s0| ensures Done(s[i].status) <==> Depth(s0, i) < k {}
    if AllDone(s) {
      forall i | 0 <= i < |s0| ensures Depth(s0, i) < k {
        assert Done(s[i].status);
      }
    }
  }
}

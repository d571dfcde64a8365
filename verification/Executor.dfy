// Executors of a plan. The repository has none, but ReadySteps exists "enabling parallel
// execution" (docs/architecture.md): an executor may begin or skip a step only when ReadySteps
// returned it, and then reports a running step as succeeded or failed. Every interleaving of
// such moves is a run.
module Executor {
  import opened Options
  import opened Plans

  datatype Action =
    | Begin(id: StepID, now: Time)
    | Skip(id: StepID, now: Time)
    | Succeed(id: StepID, now: Time)
    | Fail(id: StepID, error: string, now: Time)

  function Target(a: Action): StepStatus {
    match a
    case Begin(_, _) => Running
    case Skip(_, _) => Skipped
    case Succeed(_, _) => Succeeded
    case Fail(_, _, _) => Failed
  }

  predicate Enabled(steps: seq<Step>, a: Action) {
    if a.Begin? || a.Skip?
    then exists s | s in Ready(steps) :: s.id == a.id
    else exists s | s in steps :: s.id == a.id && s.status.Running?
  }

  function Apply(steps: seq<Step>, a: Action): seq<Step> {
    Update(steps, a.id, Target(a), if a.Fail? then a.error else "", a.now)
  }

  function Exec(steps: seq<Step>, acts: seq<Action>): seq<Step> {
    if acts == [] then steps else Apply(Exec(steps, acts[..|acts| - 1]), acts[|acts| - 1])
  }

  predicate Legal(steps: seq<Step>, acts: seq<Action>) {
    acts == [] ||
    (Legal(steps, acts[..|acts| - 1]) && Enabled(Exec(steps, acts[..|acts| - 1]), acts[|acts| - 1]))
  }

  // ---- plans as graphs ----

  predicate DistinctIds(steps: seq<Step>) {
    forall i, j | 0 <= i < j < |steps| :: steps[i].id != steps[j].id
  }

  predicate Dep(steps: seq<Step>, b: nat, a: nat)
    requires a < |steps| && b < |steps|
  {
    steps[a].id in steps[b].dependsOn
  }

  /** Every dependency names a strictly earlier step. */
  predicate Topological(steps: seq<Step>) {
    forall b, d | 0 <= b < |steps| && d in steps[b].dependsOn :: HasID(steps[..b], d)
  }

  predicate Fresh(steps: seq<Step>) {
    && DistinctIds(steps) && Topological(steps)
    && forall i | 0 <= i < |steps| :: steps[i].status.Pending?
  }

  /** `a` is a direct or indirect dependency of `b`. */
  predicate Ancestor(steps: seq<Step>, a: nat, b: nat)
    requires a < |steps| && b < |steps|
    decreases b
  {
    exists k | 0 <= k < b && Dep(steps, b, k) :: k == a || Ancestor(steps, a, k)
  }

  predicate SameShape(s: seq<Step>, t: seq<Step>) {
    && |s| == |t|
    && forall i | 0 <= i < |s| ::
         s[i].id == t[i].id && s[i].kind == t[i].kind && s[i].params == t[i].params && s[i].dependsOn == t[i].dependsOn
  }

  lemma DepIndex(steps: seq<Step>, b: nat, d: StepID) returns (k: nat)
    requires b < |steps| && Topological(steps) && d in steps[b].dependsOn
    ensures k < b && steps[k].id == d && Dep(steps, b, k)
  {
    k :| 0 <= k < |steps[..b]| && steps[..b][k].id == d;
  }

  lemma CompletedAt(steps: seq<Step>, k: nat)
    requires DistinctIds(steps) && k < |steps|
    ensures Completed(steps, steps[k].id) <==> Done(steps[k].status)
  {
    forall j | 0 <= j < |steps| && steps[j].id == steps[k].id ensures j == k {}
  }

  /** Readiness of a position, in terms of the statuses of its direct dependencies. */
  lemma ReadyAt(steps: seq<Step>, b: nat)
    requires DistinctIds(steps) && Topological(steps) && b < |steps|
    ensures IsReady(steps, steps[b]) <==>
      steps[b].status.Pending? && forall k | 0 <= k < b && Dep(steps, b, k) :: Done(steps[k].status)
  {
    forall k | 0 <= k < b { CompletedAt(steps, k); }
    if forall k | 0 <= k < b && Dep(steps, b, k) :: Done(steps[k].status) {
      forall d | d in steps[b].dependsOn ensures Completed(steps, d) {
        var k := DepIndex(steps, b, d);
      }
    }
  }

  lemma {:induction false} ShapeKeepsAncestors(s: seq<Step>, t: seq<Step>, a: nat, b: nat)
    requires SameShape(s, t) && a < |s| && b < |s|
    ensures Ancestor(s, a, b) <==> Ancestor(t, a, b)
    decreases b
  {
    forall k | 0 <= k < b
      ensures Dep(s, b, k) <==> Dep(t, b, k)
      ensures Ancestor(s, a, k) <==> Ancestor(t, a, k)
    {
      ShapeKeepsAncestors(s, t, a, k);
    }
  }

  // ---- single moves ----

  lemma ApplyAt(steps: seq<Step>, a: Action) returns (i: nat)
    requires DistinctIds(steps) && Enabled(steps, a)
    ensures i < |steps| && steps[i].id == a.id
    ensures Apply(steps, a) == steps[i := Mark(steps[i], Target(a), if a.Fail? then a.error else "", a.now)]
    ensures if a.Begin? || a.Skip? then IsReady(steps, steps[i]) else steps[i].status.Running?
  {
    var s :| s in steps && s.id == a.id &&
             if a.Begin? || a.Skip? then IsReady(steps, s) else s.status.Running?;
    i :| 0 <= i < |steps| && steps[i] == s;
    assert HasID(steps, a.id);
    assert IndexOf(steps, a.id) == i;
  }

  lemma ShapeKeepsOrder(s: seq<Step>, t: seq<Step>)
    requires SameShape(s, t) && DistinctIds(s) && Topological(s)
    ensures DistinctIds(t) && Topological(t)
  {
    forall b, d | 0 <= b < |t| && d in t[b].dependsOn ensures HasID(t[..b], d) {
      var k := DepIndex(s, b, d);
      assert t[..b][k].id == d;
    }
  }

  lemma CompletionGrows(s: seq<Step>, i: nat, x: Step)
    requires i < |s| && x.id == s[i].id && !Done(s[i].status)
    ensures forall d :: Completed(s, d) ==> Completed(s[i := x], d)
  {
    forall d | Completed(s, d) ensures Completed(s[i := x], d) {
      var j :| 0 <= j < |s| && s[j].id == d && Done(s[j].status);
      assert s[i := x][j] == s[j];
    }
  }

  /** A move keeps the graph, and only lets the set of completed steps grow. */
  lemma ApplyKeeps(steps: seq<Step>, a: Action)
    requires DistinctIds(steps) && Topological(steps) && Enabled(steps, a)
    ensures SameShape(steps, Apply(steps, a))
    ensures DistinctIds(Apply(steps, a)) && Topological(Apply(steps, a))
    ensures forall d :: Completed(steps, d) ==> Completed(Apply(steps, a), d)
  {
    var i := ApplyAt(steps, a);
    var x := Mark(steps[i], Target(a), if a.Fail? then a.error else "", a.now);
    CompletionGrows(steps, i, x);
    ShapeKeepsOrder(steps, steps[i := x]);
  }

  /** Moves on different steps commute: neither disables the other, and the order is lost. */
  lemma MovesCommute(steps: seq<Step>, a: Action, b: Action)
    requires DistinctIds(steps) && Topological(steps) && Enabled(steps, a) && Enabled(steps, b) && a.id != b.id
    ensures Enabled(Apply(steps, a), b) && Enabled(Apply(steps, b), a)
    ensures Apply(Apply(steps, a), b) == Apply(Apply(steps, b), a)
  {
    StaysEnabled(steps, a, b);
    StaysEnabled(steps, b, a);
    var i := ApplyAt(steps, a);
    var j := ApplyAt(steps, b);
    UpdatesCommute(steps, a, b, i, j);
  }

  lemma UpdatesCommute(steps: seq<Step>, a: Action, b: Action, i: nat, j: nat)
    requires DistinctIds(steps) && i < |steps| && j < |steps| && i != j
    requires steps[i].id == a.id && steps[j].id == b.id
    ensures Apply(Apply(steps, a), b) == Apply(Apply(steps, b), a)
  {
    UpdateAt(steps, a, i);
    UpdateAt(steps, b, j);
    UpdateAt(Apply(steps, a), b, j);
    UpdateAt(Apply(steps, b), a, i);
  }

  lemma UpdateAt(steps: seq<Step>, a: Action, i: nat)
    requires DistinctIds(steps) && i < |steps| && steps[i].id == a.id
    ensures Apply(steps, a) == steps[i := Mark(steps[i], Target(a), if a.Fail? then a.error else "", a.now)]
    ensures DistinctIds(Apply(steps, a))
  {
    assert HasID(steps, a.id);
    assert IndexOf(steps, a.id) == i;
  }

  lemma StaysEnabled(steps: seq<Step>, a: Action, b: Action)
    requires DistinctIds(steps) && Topological(steps) && Enabled(steps, a) && Enabled(steps, b) && a.id != b.id
    ensures Enabled(Apply(steps, a), b)
  {
    var t := Apply(steps, a);
    var i := ApplyAt(steps, a);
    var j := ApplyAt(steps, b);
    ApplyKeeps(steps, a);
    assert t[j] == steps[j] && t[j] in t;
    assert b.Begin? || b.Skip? ==> IsReady(t, t[j]);
  }

  // ---- invariant of every run ----

  /** Nothing has started unless everything it depends on directly is complete. */
  ghost predicate Disciplined(steps: seq<Step>) {
    forall b, d | 0 <= b < |steps| && !steps[b].status.Pending? && d in steps[b].dependsOn :: Completed(steps, d)
  }

  lemma {:induction false} RunsAreDisciplined(s0: seq<Step>, acts: seq<Action>)
    requires Fresh(s0) && Legal(s0, acts)
    ensures var s := Exec(s0, acts);
      SameShape(s0, s) && DistinctIds(s) && Topological(s) && Disciplined(s)
    decreases |acts|
  {
    if acts != [] {
      var front, a := acts[..|acts| - 1], acts[|acts| - 1];
      RunsAreDisciplined(s0, front);
      var s := Exec(s0, front);
      var i := ApplyAt(s, a);
      ApplyKeeps(s, a);
    }
  }

  lemma {:induction false} AncestorsDone(steps: seq<Step>, a: nat, b: nat)
    requires DistinctIds(steps) && Topological(steps) && Disciplined(steps)
    requires a < |steps| && b < |steps| && Ancestor(steps, a, b)
    requires !steps[b].status.Pending? || IsReady(steps, steps[b])
    ensures Done(steps[a].status)
    decreases b
  {
    var k :| 0 <= k < b && Dep(steps, b, k) && (k == a || Ancestor(steps, a, k));
    CompletedAt(steps, k);
    if k != a {
      AncestorsDone(steps, a, k);
    }
  }

  /** Safety of every run: whatever has started, or may start now, has all its direct and
      indirect dependencies succeeded or skipped. */
  lemma NothingRunsEarly(s0: seq<Step>, acts: seq<Action>, a: nat, b: nat)
    requires Fresh(s0) && Legal(s0, acts) && a < |s0| && b < |s0| && Ancestor(s0, a, b)
    ensures var s := Exec(s0, acts);
      |s| == |s0| && (!s[b].status.Pending? || s[b] in Ready(s) ==> Done(s[a].status))
  {
    RunsAreDisciplined(s0, acts);
    var s := Exec(s0, acts);
    ShapeKeepsAncestors(s0, s, a, b);
    if !s[b].status.Pending? || s[b] in Ready(s) {
      AncestorsDone(s, a, b);
    }
  }

  /** Two steps returned together never depend on each other, directly or not. */
  lemma ReadyStepsIndependent(s0: seq<Step>, acts: seq<Action>, a: nat, b: nat)
    requires Fresh(s0) && Legal(s0, acts) && a < |s0| && b < |s0|
    requires |Exec(s0, acts)| == |s0|
    requires Exec(s0, acts)[a] in Ready(Exec(s0, acts)) && Exec(s0, acts)[b] in Ready(Exec(s0, acts))
    ensures !Ancestor(s0, a, b)
  {
    if Ancestor(s0, a, b) {
      NothingRunsEarly(s0, acts, a, b);
    }
  }

  // ---- what a step tells of the run ----

  /** The actions of a run on one step, in order. */
  function Own(acts: seq<Action>, id: StepID): seq<Action> {
    if acts == [] then []
    else Own(acts[..|acts| - 1], id) + if acts[|acts| - 1].id == id then [acts[|acts| - 1]] else []
  }

  /** At any point of a run a step is told by its own actions: untouched, running since its begin,
      skipped, or begun and then succeeded or failed, with the error of its own failure and the times
      of its own begin and end. */
  lemma {:induction false} StepTellsItsActions(s0: seq<Step>, acts: seq<Action>, b: nat)
    requires Fresh(s0) && Legal(s0, acts) && b < |s0|
    ensures |Exec(s0, acts)| == |s0|
    ensures var s, o := Exec(s0, acts)[b], Own(acts, s0[b].id);
      && (s.status.Pending? ==> o == [] && s == s0[b])
      && (s.status.Running? ==>
        && |o| == 1 && o[0].Begin?
        && s == s0[b].(status := Running, error := "", startedAt := Some(o[0].now)))
      && (s.status.Skipped? ==>
        && |o| == 1 && o[0].Skip?
        && s == s0[b].(status := Skipped, error := "", completedAt := Some(o[0].now)))
      && (s.status.Succeeded? ==>
        && |o| == 2 && o[0].Begin? && o[1].Succeed?
        && s == s0[b].(status := Succeeded, error := "",
                       startedAt := Some(o[0].now), completedAt := Some(o[1].now)))
      && (s.status.Failed? ==>
        && |o| == 2 && o[0].Begin? && o[1].Fail?
        && s == s0[b].(status := Failed, error := o[1].error,
                       startedAt := Some(o[0].now), completedAt := Some(o[1].now)))
    decreases |acts|
  {
    if acts != [] {
      var front, a := acts[..|acts| - 1], acts[|acts| - 1];
      StepTellsItsActions(s0, front, b);
      RunsAreDisciplined(s0, front);
      var i := ApplyAt(Exec(s0, front), a);
      assert i != b ==> a.id != s0[b].id;
    }
  }

  // ---- runs that have come to rest ----

  predicate Quiescent(steps: seq<Step>) {
    (forall s | s in steps :: !s.status.Running?) && Ready(steps) == []
  }

  /** A run is at rest exactly when no move is possible: there is no deadlock other than rest. */
  lemma RestIsNoMove(steps: seq<Step>)
    ensures Quiescent(steps) <==> forall a :: !Enabled(steps, a)
  {
    if !Quiescent(steps) {
      if s :| s in steps && s.status.Running? {
        assert Enabled(steps, Succeed(s.id, 0));
      } else {
        var s := Ready(steps)[0];
        assert Enabled(steps, Begin(s.id, 0));
      }
    }
  }

  function Weight(steps: seq<Step>): nat {
    if steps == [] then 0
    else Weight(steps[..|steps| - 1]) +
         (match steps[|steps| - 1].status case Pending => 2 case Running => 1 case _ => 0)
  }

  lemma {:induction false} WeightDrops(steps: seq<Step>, i: nat, s: Step)
    requires i < |steps|
    requires s.status.Running? || Done(s.status) || s.status.Failed?
    requires steps[i].status.Pending? || (steps[i].status.Running? && !s.status.Running?)
    ensures Weight(steps[i := s]) < Weight(steps)
    decreases |steps|
  {
    var n := |steps| - 1;
    if i < n {
      assert steps[i := s][..n] == steps[..n][i := s];
      WeightDrops(steps[..n], i, s);
    } else {
      assert steps[i := s][..n] == steps[..n];
    }
  }

  lemma {:induction false} WeightBound(steps: seq<Step>)
    ensures Weight(steps) <= 2 * |steps|
  {
    if steps != [] { WeightBound(steps[..|steps| - 1]); }
  }

  /** Every run ends: a plan of n steps allows at most 2n moves. */
  lemma {:induction false} RunsTerminate(s0: seq<Step>, acts: seq<Action>)
    requires Fresh(s0) && Legal(s0, acts)
    ensures |acts| + Weight(Exec(s0, acts)) <= 2 * |s0|
    decreases |acts|
  {
    if acts == [] {
      WeightBound(s0);
    } else {
      var front, a := acts[..|acts| - 1], acts[|acts| - 1];
      RunsTerminate(s0, front);
      RunsAreDisciplined(s0, front);
      var s := Exec(s0, front);
      var i := ApplyAt(s, a);
      WeightDrops(s, i, Apply(s, a)[i]);
    }
  }

  lemma {:induction false} BlockedHasFailedAncestor(s: seq<Step>, b: nat) returns (a: nat)
    requires DistinctIds(s) && Topological(s) && Quiescent(s)
    requires b < |s| && s[b].status.Pending?
    ensures a < |s| && Ancestor(s, a, b) && s[a].status.Failed?
    decreases b
  {
    ReadyAt(s, b);
    assert s[b] in s && s[b] !in Ready(s);
    var k :| 0 <= k < b && Dep(s, b, k) && !Done(s[k].status);
    if s[k].status.Failed? {
      a := k;
    } else {
      assert s[k] in s;
      a := BlockedHasFailedAncestor(s, k);
    }
  }

  /** Deadlock freedom: in a run at rest the steps left pending are exactly those that depend,
      directly or not, on a failed step. */
  lemma BlockedExactlyByFailures(s0: seq<Step>, acts: seq<Action>, b: nat)
    requires Fresh(s0) && Legal(s0, acts) && Quiescent(Exec(s0, acts)) && b < |s0|
    ensures |Exec(s0, acts)| == |s0|
    ensures Exec(s0, acts)[b].status.Pending? <==>
      exists a | 0 <= a < |s0| && Ancestor(s0, a, b) :: Exec(s0, acts)[a].status.Failed?
  {
    RunsAreDisciplined(s0, acts);
    var s := Exec(s0, acts);
    if s[b].status.Pending? {
      var a := BlockedHasFailedAncestor(s, b);
      ShapeKeepsAncestors(s0, s, a, b);
    } else {
      forall a | 0 <= a < |s0| && Ancestor(s0, a, b) ensures !s[a].status.Failed? {
        NothingRunsEarly(s0, acts, a, b);
      }
    }
  }

  /** Without failures a run at rest has done everything. */
  lemma NoFailureNoLoss(s0: seq<Step>, acts: seq<Action>)
    requires Fresh(s0) && Legal(s0, acts) && Quiescent(Exec(s0, acts))
    requires forall s | s in Exec(s0, acts) :: !s.status.Failed?
    ensures forall s | s in Exec(s0, acts) :: Done(s.status)
  {
    var t := Exec(s0, acts);
    RunsAreDisciplined(s0, acts);
    forall b | 0 <= b < |t| ensures Done(t[b].status) {
      BlockedExactlyByFailures(s0, acts, b);
      assert t[b] in t;
      forall a | 0 <= a < |t| ensures !t[a].status.Failed? { assert t[a] in t; }
    }
  }

  // ---- confluence ----

  /** What each step would report if it came to run. */
  type Oracle = StepID -> StepStatus

  ghost predicate Obeys(steps: seq<Step>, verdict: Oracle) {
    forall i | 0 <= i < |steps| && !steps[i].status.Pending? :: steps[i].status == verdict(steps[i].id)
  }

  /** The final status of a step, computed from the graph and the oracle alone. */
  function Fate(steps: seq<Step>, verdict: Oracle, b: nat): StepStatus
    requires b < |steps|
    decreases b
  {
    if forall k | 0 <= k < b && Dep(steps, b, k) :: Done(Fate(steps, verdict, k))
    then verdict(steps[b].id)
    else Pending
  }

  /** At rest a step is pending exactly when some direct dependency is not complete. */
  lemma RestAt(s: seq<Step>, b: nat)
    requires DistinctIds(s) && Topological(s) && Disciplined(s) && Quiescent(s) && b < |s|
    ensures s[b].status.Pending? <==> exists k | 0 <= k < b && Dep(s, b, k) :: !Done(s[k].status)
  {
    ReadyAt(s, b);
    assert s[b] in s && s[b] !in Ready(s);
    forall k | 0 <= k < b && Dep(s, b, k) && !s[b].status.Pending? ensures Done(s[k].status) {
      CompletedAt(s, k);
    }
  }

  lemma {:induction false} RestIsFate(s0: seq<Step>, s: seq<Step>, verdict: Oracle, b: nat)
    requires SameShape(s0, s) && DistinctIds(s) && Topological(s) && Disciplined(s)
    requires Quiescent(s) && Obeys(s, verdict) && b < |s|
    ensures s[b].status == Fate(s0, verdict, b)
    decreases b
  {
    RestAt(s, b);
    forall k | 0 <= k < b ensures s[k].status == Fate(s0, verdict, k) {
      RestIsFate(s0, s, verdict, k);
    }
    assert forall k | 0 <= k < b :: Dep(s, b, k) <==> Dep(s0, b, k);
  }

  /** Confluence: the statuses a run comes to rest in depend only on what each step reports,
      not on the interleaving, the parallelism or the times. */
  lemma RunsAgree(s0: seq<Step>, acts: seq<Action>, acts': seq<Action>, verdict: Oracle)
    requires Fresh(s0) && Legal(s0, acts) && Legal(s0, acts')
    requires Quiescent(Exec(s0, acts)) && Quiescent(Exec(s0, acts'))
    requires Obeys(Exec(s0, acts), verdict) && Obeys(Exec(s0, acts'), verdict)
    ensures |Exec(s0, acts)| == |Exec(s0, acts')| == |s0|
    ensures forall i | 0 <= i < |s0| ::
      Exec(s0, acts)[i].status == Exec(s0, acts')[i].status == Fate(s0, verdict, i)
  {
    RunsAreDisciplined(s0, acts);
    RunsAreDisciplined(s0, acts');
    forall i | 0 <= i < |s0|
      ensures Exec(s0, acts)[i].status == Exec(s0, acts')[i].status == Fate(s0, verdict, i)
    {
      RestIsFate(s0, Exec(s0, acts), verdict, i);
      RestIsFate(s0, Exec(s0, acts'), verdict, i);
    }
  }
}

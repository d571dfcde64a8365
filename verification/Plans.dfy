// The plan aggregate of internal/domain/plan/entity.go: its steps, the update of one step
// and the selection of the steps that may run.
module Plans {
  import opened Options

  type StepID = nat
  type Time = int

  datatype StepKind =
    | CreateNamespace | InstallCRDs | InstallDependency | InstallChart | UpgradeChart
    | RollbackChart | UninstallChart | InstallOperator | ValidateReadiness | ConfigureIngress
    | ConfigureStorage | RunHealthCheck | RunSecurityScan

  datatype StepStatus = Pending | Running | Succeeded | Failed | Skipped

  datatype Param = Text(text: string) | Number(n: int) | Flag(on: bool) | Nested(values: map<string, Param>)

  datatype Step = Step(id: StepID, kind: StepKind, params: map<string, Param>, status: StepStatus,
                       dependsOn: seq<StepID>, error: string, startedAt: Option<Time>, completedAt: Option<Time>)

  predicate Done(st: StepStatus) {
    st.Succeeded? || st.Skipped?
  }

  predicate HasID(steps: seq<Step>, id: StepID) {
    exists i | 0 <= i < |steps| :: steps[i].id == id
  }

  predicate Completed(steps: seq<Step>, id: StepID) {
    exists i | 0 <= i < |steps| :: steps[i].id == id && Done(steps[i].status)
  }

  predicate IsReady(steps: seq<Step>, s: Step) {
    s.status.Pending? && forall d | d in s.dependsOn :: Completed(steps, d)
  }

  /** The steps among the first `n` that may run, in plan order. */
  function ReadyBelow(steps: seq<Step>, n: nat): seq<Step>
    requires n <= |steps|
  {
    if n == 0 then []
    else if IsReady(steps, steps[n - 1]) then ReadyBelow(steps, n - 1) + [steps[n - 1]]
    else ReadyBelow(steps, n - 1)
  }

  lemma {:induction false} ReadyMembers(steps: seq<Step>, n: nat, s: Step)
    requires n <= |steps|
    ensures s in ReadyBelow(steps, n) <==> s in steps[..n] && IsReady(steps, s)
    decreases n
  {
    if n > 0 {
      ReadyMembers(steps, n - 1, s);
      assert steps[..n] == steps[..n - 1] + [steps[n - 1]];
    }
  }

  function Ready(steps: seq<Step>): (r: seq<Step>)
    ensures forall s :: s in r <==> s in steps && IsReady(steps, s)
  {
    assert forall s :: s in ReadyBelow(steps, |steps|) <==> s in steps && IsReady(steps, s) by {
      forall s ensures s in ReadyBelow(steps, |steps|) <==> s in steps && IsReady(steps, s) {
        ReadyMembers(steps, |steps|, s);
        assert steps[..|steps|] == steps;
      }
    }
    ReadyBelow(steps, |steps|)
  }

  /** The first step with the given id. */
  function IndexOf(steps: seq<Step>, id: StepID): (i: nat)
    requires HasID(steps, id)
    ensures i < |steps| && steps[i].id == id
    ensures forall j | 0 <= j < i :: steps[j].id != id
  {
    if steps[0].id == id then 0
    else
      assert HasID(steps[1..], id) by {
        var k :| 0 <= k < |steps| && steps[k].id == id;
        assert steps[1..][k - 1] == steps[k];
      }
      var i := IndexOf(steps[1..], id);
      assert forall j | 0 < j < 1 + i :: steps[j] == steps[1..][j - 1];
      1 + i
  }

  function Mark(s: Step, status: StepStatus, error: string, now: Time): Step {
    var t := s.(status := status, error := error);
    match status
    case Pending => t
    case Running => t.(startedAt := Some(now))
    case Succeeded | Failed | Skipped => t.(completedAt := Some(now))
  }

  function Update(steps: seq<Step>, id: StepID, status: StepStatus, error: string, now: Time): seq<Step> {
    if HasID(steps, id) then
      var i := IndexOf(steps, id);
      steps[i := Mark(steps[i], status, error, now)]
    else steps
  }

  class Plan {
    var steps: seq<Step>
    var updatedAt: Time

    constructor (steps: seq<Step>, now: Time)
      ensures this.steps == steps && updatedAt == now
    {
      this.steps, updatedAt := steps, now;
    }

    /** Fails, changing nothing, exactly when no step carries the id. Otherwise the first step that
        carries it takes the status and the error; it is stamped as started when it runs, as completed
        when it is over. Nothing else changes. */
    method UpdateStepStatus(id: StepID, status: StepStatus, error: string, now: Time) returns (found: bool)
      modifies this
      ensures found <==> exists i | 0 <= i < |old(steps)| :: old(steps)[i].id == id
      ensures !found ==> steps == old(steps) && updatedAt == old(updatedAt)
      ensures found ==> updatedAt == now && |steps| == |old(steps)|
      ensures found ==> exists i | 0 <= i < |old(steps)| ::
        && old(steps)[i].id == id && (forall j | 0 <= j < i :: old(steps)[j].id != id)
        && steps[i].status == status && steps[i].error == error
        && steps[i].startedAt == (if status == Running then Some(now) else old(steps)[i].startedAt)
        && steps[i].completedAt ==
          (if status in {Succeeded, Failed, Skipped} then Some(now) else old(steps)[i].completedAt)
        && steps[i].id == id && steps[i].kind == old(steps)[i].kind
        && steps[i].params == old(steps)[i].params && steps[i].dependsOn == old(steps)[i].dependsOn
        && forall j | 0 <= j < |steps| && j != i :: steps[j] == old(steps)[j]
      ensures steps == Update(old(steps), id, status, error, now)
    {
      var i := 0;
      while i < |steps|
        invariant 0 <= i <= |steps|
        invariant forall j | 0 <= j < i :: steps[j].id != id
        invariant steps == old(steps) && updatedAt == old(updatedAt)
      {
        if steps[i].id == id {
          assert i == IndexOf(steps, id);
          var s := steps[i].(status := status, error := error);
          match status {
            case Running => s := s.(startedAt := Some(now));
            case Succeeded | Failed | Skipped => s := s.(completedAt := Some(now));
            case Pending =>
          }
          steps := steps[i := s];
          updatedAt := now;
          return true;
        }
        i := i + 1;
      }
      return false;
    }

    /** The first loop of ReadySteps: the ids of the steps that are done. */
    method CompletedIDs() returns (completed: set<StepID>)
      ensures forall d :: d in completed <==> Completed(steps, d)
    {
      completed := {};
      for i := 0 to |steps|
        invariant forall d :: d in completed <==>
          exists j | 0 <= j < i :: steps[j].id == d && Done(steps[j].status)
      {
        if steps[i].status.Succeeded? || steps[i].status.Skipped? {
          completed := completed + {steps[i].id};
        }
      }
    }

    /** The inner loop of ReadySteps. */
    static method AllDepsMet(s: Step, completed: set<StepID>) returns (met: bool)
      ensures met <==> forall d | d in s.dependsOn :: d in completed
    {
      for i := 0 to |s.dependsOn|
        invariant forall e | 0 <= e < i :: s.dependsOn[e] in completed
      {
        if s.dependsOn[i] !in completed {
          return false;
        }
      }
      return true;
    }

    /** Exactly the pending steps whose dependencies are all done, in plan order. */
    method ReadySteps() returns (ready: seq<Step>)
      ensures ready == Ready(steps)
      ensures forall s :: s in ready <==>
        && s in steps && s.status == Pending
        && forall d | d in s.dependsOn ::
             exists j | 0 <= j < |steps| :: steps[j].id == d && steps[j].status in {Succeeded, Skipped}
    {
      var completed := CompletedIDs();
      ready := [];
      for i := 0 to |steps|
        invariant ready == ReadyBelow(steps, i)
      {
        var s := steps[i];
        if !s.status.Pending? {
          continue;
        }
        var allDepsMet := AllDepsMet(s, completed);
        if allDepsMet {
          ready := ready + [s];
        }
      }
    }
  }

  predicate Ascending(idx: seq<nat>) {
    forall j, k | 0 <= j < k < |idx| :: idx[j] < idx[k]
  }

  /** The ready positions below `n`. */
  function IndicesBelow(steps: seq<Step>, n: nat): seq<nat>
    requires n <= |steps|
  {
    if n == 0 then []
    else if IsReady(steps, steps[n - 1]) then IndicesBelow(steps, n - 1) + [n - 1]
    else IndicesBelow(steps, n - 1)
  }

  lemma {:induction false} IndicesAscend(steps: seq<Step>, n: nat)
    requires n <= |steps|
    ensures Ascending(IndicesBelow(steps, n))
    ensures forall k | 0 <= k < |IndicesBelow(steps, n)| :: IndicesBelow(steps, n)[k] < n
    decreases n
  {
    if n > 0 { IndicesAscend(steps, n - 1); }
  }

  lemma {:induction false} IndicesMembers(steps: seq<Step>, n: nat, i: nat)
    requires n <= |steps|
    ensures i in IndicesBelow(steps, n) <==> i < n && IsReady(steps, steps[i])
    decreases n
  {
    if n > 0 { IndicesMembers(steps, n - 1, i); }
  }

  function ReadyIndices(steps: seq<Step>): (r: seq<nat>)
    ensures Ascending(r) && forall i: nat :: i in r <==> i < |steps| && IsReady(steps, steps[i])
  {
    IndicesAscend(steps, |steps|);
    assert forall i: nat :: i in IndicesBelow(steps, |steps|) <==> i < |steps| && IsReady(steps, steps[i]) by {
      forall i: nat ensures i in IndicesBelow(steps, |steps|) <==> i < |steps| && IsReady(steps, steps[i]) {
        IndicesMembers(steps, |steps|, i);
      }
    }
    IndicesBelow(steps, |steps|)
  }

  predicate Selects(r: seq<Step>, steps: seq<Step>, idx: seq<nat>) {
    |r| == |idx| && forall k | 0 <= k < |idx| :: idx[k] < |steps| && r[k] == steps[idx[k]]
  }

  lemma SelectsSnoc(r: seq<Step>, steps: seq<Step>, idx: seq<nat>, i: nat)
    requires Selects(r, steps, idx) && i < |steps|
    ensures Selects(r + [steps[i]], steps, idx + [i])
  {}

  lemma {:induction false} SelectsBelow(steps: seq<Step>, n: nat)
    requires n <= |steps|
    ensures Selects(ReadyBelow(steps, n), steps, IndicesBelow(steps, n))
    decreases n
  {
    if n > 0 {
      SelectsBelow(steps, n - 1);
      var r, idx := ReadyBelow(steps, n - 1), IndicesBelow(steps, n - 1);
      SelectsSnoc(r, steps, idx, n - 1);
      if IsReady(steps, steps[n - 1]) {
        assert ReadyBelow(steps, n) == r + [steps[n - 1]] && IndicesBelow(steps, n) == idx + [n - 1];
      } else {
        assert ReadyBelow(steps, n) == r && IndicesBelow(steps, n) == idx;
      }
    }
  }

  /** The steps returned sit at strictly ascending positions of the plan, and no ready position
      is left out. */
  lemma ReadyInPlanOrder(steps: seq<Step>)
    ensures Selects(Ready(steps), steps, ReadyIndices(steps)) && Ascending(ReadyIndices(steps))
    ensures forall i: nat :: i in ReadyIndices(steps) <==> i < |steps| && IsReady(steps, steps[i])
  {
    SelectsBelow(steps, |steps|);
  }
}

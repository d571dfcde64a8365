// Plan construction of internal/application/planner/service.go: an arbitrary list of apps
// becomes a dependency-ordered list of steps.
module Planner {
  import opened Options
  import FreshIDs
  import opened Plans
  import opened Executor
  import opened Rounds

  datatype AppIntent = AppIntent(name: string, chartName: string, repoURL: string, version: string,
                                 values: map<string, Param>, persistence: bool, ingress: bool, ha: bool)

  datatype Intent = Intent(action: string, apps: seq<AppIntent>, namespace: string)

  datatype ClusterCheck = Unreachable | Valid | Invalid

  /** The version oracle: a resolved version, or a failure. */
  type Resolver = (string, string) -> Option<string>

  datatype Warning = ClusterNotValidated | VersionNotResolved(chart: string)

  datatype Built = Rejected | Built(steps: seq<Step>, warnings: seq<Warning>)

  const MINUTES_PER_STEP: nat := 2
  const HA_REPLICA_COUNT := 3

  function EstimateMinutes(steps: seq<Step>): nat {
    |steps| * MINUTES_PER_STEP
  }

  // ---- the plan an intent must become, by position ----

  function ActionKind(action: string): StepKind {
    if action == "upgrade" then UpgradeChart else InstallChart
  }

  function BlockSize(app: AppIntent): nat {
    3 + (if app.persistence then 1 else 0) + (if app.ingress then 1 else 0)
  }

  /** Position of the install step in its app's block. */
  function InstallPos(app: AppIntent): nat {
    if app.persistence then 2 else 1
  }

  /** Position of the first step of app `n`; with `n == |apps|`, the number of steps. */
  function Offset(apps: seq<AppIntent>, n: nat): nat
    requires n <= |apps|
  {
    if n == 0 then 1 else Offset(apps, n - 1) + BlockSize(apps[n - 1])
  }

  predicate Is(s: Step, kind: StepKind, dependsOn: seq<StepID>) {
    s.kind == kind && s.status.Pending? && s.dependsOn == dependsOn
  }

  /** From position `o`: namespace -> validate -> [storage] -> install. */
  predicate InstallLaid(steps: seq<Step>, o: nat, app: AppIntent, action: string) {
    && 0 < o && o + InstallPos(app) < |steps|
    && Is(steps[o], InstallCRDs, [steps[0].id])
    && if app.persistence
       then && Is(steps[o + 1], ConfigureStorage, [steps[o].id])
            && Is(steps[o + 2], ActionKind(action), [steps[o].id, steps[o + 1].id])
       else Is(steps[o + 1], ActionKind(action), [steps[o].id])
  }

  /** After the install step at `i`: install -> {[ingress], readiness}. */
  predicate ChecksLaid(steps: seq<Step>, i: nat, app: AppIntent) {
    if app.ingress
    then && i + 2 < |steps| && Is(steps[i + 1], ConfigureIngress, [steps[i].id])
         && Is(steps[i + 2], ValidateReadiness, [steps[i].id])
    else i + 1 < |steps| && Is(steps[i + 1], ValidateReadiness, [steps[i].id])
  }

  predicate BlockLaid(steps: seq<Step>, o: nat, app: AppIntent, action: string) {
    InstallLaid(steps, o, app, action) && ChecksLaid(steps, o + InstallPos(app), app)
  }

  /** The block of app `k` is in its place. */
  ghost predicate AppLaid(steps: seq<Step>, intent: Intent, k: nat)
    requires k < |intent.apps|
  {
    BlockLaid(steps, Offset(intent.apps, k), intent.apps[k], intent.action)
  }

  /** The plan for the first `n` apps, block after block behind the namespace step. */
  ghost predicate LaidOut(steps: seq<Step>, intent: Intent, n: nat)
    requires n <= |intent.apps|
  {
    && |steps| == Offset(intent.apps, n) && |steps| > 0 && DistinctIds(steps)
    && Is(steps[0], CreateNamespace, [])
    && forall k | 0 <= k < n :: AppLaid(steps, intent, k)
  }

  ghost predicate BuiltFor(steps: seq<Step>, intent: Intent) {
    LaidOut(steps, intent, |intent.apps|)
  }

  /** A rollback step undoes one app, to version 0, which means the previous one. */
  predicate RollsBack(s: Step, app: AppIntent, namespace: string) {
    && Is(s, RollbackChart, [])
    && s.params == map["release_name" := Text(app.name), "namespace" := Text(namespace), "version" := Number(0)]
  }

  ghost predicate RollbackFor(steps: seq<Step>, intent: Intent) {
    && |steps| == |intent.apps| && DistinctIds(steps)
    && forall i | 0 <= i < |steps| :: RollsBack(steps[i], intent.apps[i], intent.namespace)
  }

  // ---- the parameters its steps must carry ----

  function ResolvedVersion(app: AppIntent, resolve: Resolver): string {
    if app.version == "" || app.version == "latest" then
      match resolve(app.chartName, app.repoURL)
      case Some(v) => v
      case None => app.version
    else app.version
  }

  /** The app's values with the replica count of high availability and the persistence flag on top. */
  function HelmValues(app: AppIntent): map<string, Param> {
    var v := if app.ha then app.values["replicaCount" := Number(HA_REPLICA_COUNT)] else app.values;
    if app.persistence then v["persistence.enabled" := Flag(true)] else v
  }

  function ReleaseParams(namespace: string, app: AppIntent): map<string, Param> {
    map["release_name" := Text(app.name), "namespace" := Text(namespace)]
  }

  function AppParams(namespace: string, app: AppIntent): map<string, Param> {
    map["namespace" := Text(namespace), "app" := Text(app.name)]
  }

  function ChartParams(app: AppIntent, version: string): map<string, Param> {
    map["chart" := Text(app.chartName), "repo" := Text(app.repoURL), "version" := Text(version)]
  }

  function ReleaseChartParams(namespace: string, app: AppIntent, version: string): map<string, Param> {
    map["release_name" := Text(app.name), "namespace" := Text(namespace), "chart" := Text(app.chartName),
        "repo" := Text(app.repoURL), "version" := Text(version), "values" := Nested(HelmValues(app))]
  }

  predicate InstallParams(steps: seq<Step>, o: nat, app: AppIntent, namespace: string, version: string) {
    && o + InstallPos(app) < |steps|
    && steps[o].params == ChartParams(app, version)
    && (app.persistence ==> steps[o + 1].params == AppParams(namespace, app))
    && steps[o + InstallPos(app)].params == ReleaseChartParams(namespace, app, version)
  }

  predicate ChecksParams(steps: seq<Step>, i: nat, app: AppIntent, namespace: string) {
    if app.ingress
    then i + 2 < |steps| && steps[i + 1].params == AppParams(namespace, app)
      && steps[i + 2].params == ReleaseParams(namespace, app)
    else i + 1 < |steps| && steps[i + 1].params == ReleaseParams(namespace, app)
  }

  ghost predicate AppParamsLaid(steps: seq<Step>, intent: Intent, resolve: Resolver, k: nat)
    requires k < |intent.apps|
  {
    var o, app := Offset(intent.apps, k), intent.apps[k];
    && InstallParams(steps, o, app, intent.namespace, ResolvedVersion(app, resolve))
    && ChecksParams(steps, o + InstallPos(app), app, intent.namespace)
  }

  /** The steps of the first `n` apps carry their app's names, chart, resolved version and values. */
  ghost predicate ParamsLaid(steps: seq<Step>, intent: Intent, resolve: Resolver, n: nat)
    requires n <= |intent.apps|
  {
    && |steps| > 0 && steps[0].params == map["namespace" := Text(intent.namespace)]
    && forall k | 0 <= k < n :: AppParamsLaid(steps, intent, resolve, k)
  }

  function Warnings(intent: Intent, cluster: ClusterCheck, resolve: Resolver, n: nat): seq<Warning>
    requires n <= |intent.apps|
  {
    if n == 0 then if cluster.Unreachable? then [ClusterNotValidated] else []
    else
      var app := intent.apps[n - 1];
      Warnings(intent, cluster, resolve, n - 1) +
      if (app.version == "" || app.version == "latest") && resolve(app.chartName, app.repoURL).None?
      then [VersionNotResolved(app.chartName)] else []
  }

  /** All ids of the plan were issued, those from position `from` on not before `was`. */
  ghost predicate Issued(steps: seq<Step>, issued: set<StepID>, from: nat, was: set<StepID>) {
    && was <= issued
    && (forall i | 0 <= i < |steps| :: steps[i].id in issued)
    && (forall i | from <= i < |steps| :: steps[i].id !in was)
  }

  /** The planner; `issued` holds every step id handed out so far. */
  class Service {
    var issued: set<StepID>

    method NewStep(kind: StepKind, params: map<string, Param>, dependsOn: seq<StepID>) returns (s: Step)
      modifies this
      ensures s.id !in old(issued) && issued == old(issued) + {s.id}
      ensures s == Step(s.id, kind, params, Pending, dependsOn, "", None, None)
    {
      ghost var w := FreshIDs.UnusedExists(issued);
      assert w !in issued;
      var id: StepID :| id !in issued;
      issued := issued + {id};
      s := Step(id, kind, params, Pending, dependsOn, "", None, None);
    }

    /** A new pending step at the end of the plan. */
    method AddStep(before: seq<Step>, kind: StepKind, params: map<string, Param>, dependsOn: seq<StepID>)
      returns (steps: seq<Step>, s: Step)
      requires DistinctIds(before) && Issued(before, issued, |before|, issued)
      modifies this
      ensures steps == before + [s] && Is(s, kind, dependsOn) && s.params == params
      ensures DistinctIds(steps) && Issued(steps, issued, |before|, old(issued))
    {
      s := NewStep(kind, params, dependsOn);
      steps := before + [s];
    }

    /** The per-app loop body, first half: validate, storage when wanted, install or upgrade. */
    method AppendInstall(before: seq<Step>, namespaceID: StepID, intent: Intent, app: AppIntent, version: string)
      returns (steps: seq<Step>, installID: StepID)
      requires |before| > 0 && before[0].id == namespaceID
      requires DistinctIds(before) && Issued(before, issued, |before|, issued)
      modifies this
      ensures before <= steps && |steps| == |before| + InstallPos(app) + 1 && steps[|steps| - 1].id == installID
      ensures InstallLaid(steps, |before|, app, intent.action)
      ensures InstallParams(steps, |before|, app, intent.namespace, version)
      ensures DistinctIds(steps) && Issued(steps, issued, |before|, old(issued))
    {
      var validateStep, installStep;
      steps, validateStep := AddStep(
        before, InstallCRDs,
        map["chart" := Text(app.chartName), "repo" := Text(app.repoURL), "version" := Text(version)], [namespaceID]);
      var dependsOn := [validateStep.id];
      if app.persistence {
        var storageStep;
        steps, storageStep := AddStep(
          steps, ConfigureStorage,
          map["namespace" := Text(intent.namespace), "app" := Text(app.name)], [validateStep.id]);
        dependsOn := dependsOn + [storageStep.id];
      }
      var actionType := InstallChart;
      if intent.action == "upgrade" {
        actionType := UpgradeChart;
      }
      var params := ParamsForInstall(intent.namespace, app, version);
      steps, installStep := AddStep(steps, actionType, params, dependsOn);
      installID := installStep.id;
    }

    method ParamsForInstall(namespace: string, app: AppIntent, version: string) returns (params: map<string, Param>)
      ensures params == ReleaseChartParams(namespace, app, version)
    {
      var values := app.values;
      if app.ha {
        values := values["replicaCount" := Number(HA_REPLICA_COUNT)];
      }
      if app.persistence {
        values := values["persistence.enabled" := Flag(true)];
      }
      params := map["release_name" := Text(app.name), "namespace" := Text(namespace), "chart" := Text(app.chartName),
                    "repo" := Text(app.repoURL), "version" := Text(version), "values" := Nested(values)];
    }

    /** The per-app loop body, second half: ingress when wanted, readiness. */
    method AppendChecks(before: seq<Step>, installID: StepID, namespace: string, app: AppIntent)
      returns (steps: seq<Step>)
      requires |before| > 0 && before[|before| - 1].id == installID
      requires DistinctIds(before) && Issued(before, issued, |before|, issued)
      modifies this
      ensures before <= steps && |steps| == |before| + if app.ingress then 2 else 1
      ensures ChecksLaid(steps, |before| - 1, app) && ChecksParams(steps, |before| - 1, app, namespace)
      ensures DistinctIds(steps) && Issued(steps, issued, |before|, old(issued))
    {
      var s;
      steps := before;
      if app.ingress {
        steps, s := AddStep(
          steps, ConfigureIngress, map["namespace" := Text(namespace), "app" := Text(app.name)], [installID]);
      }
      steps, s := AddStep(
        steps, ValidateReadiness, map["release_name" := Text(app.name), "namespace" := Text(namespace)], [installID]);
    }

    /** The steps of app `n`, behind those of the apps before it. */
    method AppendApp(before: seq<Step>, namespaceID: StepID, intent: Intent, ghost resolve: Resolver, n: nat,
                     version: string)
      returns (steps: seq<Step>)
      requires n < |intent.apps| && LaidOut(before, intent, n) && before[0].id == namespaceID
      requires ParamsLaid(before, intent, resolve, n) && version == ResolvedVersion(intent.apps[n], resolve)
      requires Issued(before, issued, |before|, issued)
      modifies this
      ensures LaidOut(steps, intent, n + 1) && before <= steps
      ensures ParamsLaid(steps, intent, resolve, n + 1)
      ensures Issued(steps, issued, |before|, old(issued))
    {
      var installID;
      steps, installID := AppendInstall(before, namespaceID, intent, intent.apps[n], version);
      ghost var installed := steps;
      steps := AppendChecks(steps, installID, intent.namespace, intent.apps[n]);
      BlockAppended(before, installed, steps, intent, n);
      NewAppParams(installed, steps, intent, resolve, n);
      ParamsAppended(before, steps, intent, resolve, n);
    }

    /** Rejects exactly an invalid cluster; otherwise lays the plan out, whatever the oracles say,
        with ids never issued before. */
    method BuildSteps(intent: Intent, cluster: ClusterCheck, resolve: Resolver) returns (r: Built)
      modifies this
      ensures r.Rejected? <==> cluster.Invalid?
      ensures r.Built? ==>
        && BuiltFor(r.steps, intent)
        && ParamsLaid(r.steps, intent, resolve, |intent.apps|)
        && r.warnings == Warnings(intent, cluster, resolve, |intent.apps|)
        && Issued(r.steps, issued, 0, old(issued))
    {
      var warnings: seq<Warning> := [];
      if cluster.Unreachable? {
        warnings := warnings + [ClusterNotValidated];
      } else if cluster.Invalid? {
        return Rejected;
      }
      var steps, nsStep := AddStep([], CreateNamespace, map["namespace" := Text(intent.namespace)], []);
      for n := 0 to |intent.apps|
        invariant LaidOut(steps, intent, n) && steps[0] == nsStep
        invariant ParamsLaid(steps, intent, resolve, n)
        invariant warnings == Warnings(intent, cluster, resolve, n)
        invariant Issued(steps, issued, 0, old(issued))
      {
        var app := intent.apps[n];
        var version := app.version;
        if version == "" || version == "latest" {
          var resolved := resolve(app.chartName, app.repoURL);
          if resolved.Some? {
            version := resolved.value;
          } else {
            warnings := warnings + [VersionNotResolved(app.chartName)];
          }
        }
        steps := AppendApp(steps, nsStep.id, intent, resolve, n, version);
      }
      r := Built(steps, warnings);
    }

    /** One rollback step per app, with no dependency. */
    method BuildRollbackPlan(intent: Intent) returns (steps: seq<Step>)
      modifies this
      ensures RollbackFor(steps, intent) && Issued(steps, issued, 0, old(issued))
      ensures |steps| == |intent.apps|
      ensures forall i | 0 <= i < |steps| ::
        && steps[i].kind == RollbackChart && steps[i].status == Pending && steps[i].dependsOn == []
        && steps[i].params == map["release_name" := Text(intent.apps[i].name), "namespace" := Text(intent.namespace),
                                  "version" := Number(0)]
    {
      steps := [];
      for n := 0 to |intent.apps|
        invariant |steps| == n && DistinctIds(steps)
        invariant forall i | 0 <= i < n :: RollsBack(steps[i], intent.apps[i], intent.namespace)
        invariant Issued(steps, issued, 0, old(issued))
      {
        var s;
        steps, s := AddStep(
          steps, RollbackChart,
          map["release_name" := Text(intent.apps[n].name), "namespace" := Text(intent.namespace),
              "version" := Number(0)], []);
      }
    }
  }

  lemma {:induction false} OffsetsAscend(apps: seq<AppIntent>, k: nat, n: nat)
    requires k < n <= |apps|
    ensures 0 < Offset(apps, k) && Offset(apps, k) + BlockSize(apps[k]) <= Offset(apps, n)
    decreases n
  {
    if k < n - 1 { OffsetsAscend(apps, k, n - 1); }
    if k > 0 { OffsetsAscend(apps, 0, k); }
  }

  /** Appending leaves a laid block laid. */
  lemma BlockPrefix(s: seq<Step>, t: seq<Step>, o: nat, app: AppIntent, action: string)
    requires BlockLaid(s, o, app, action) && s <= t
    ensures BlockLaid(t, o, app, action)
  {}

  lemma BlockAppended(before: seq<Step>, installed: seq<Step>, steps: seq<Step>, intent: Intent, n: nat)
    requires n < |intent.apps| && LaidOut(before, intent, n)
    requires before <= installed <= steps && DistinctIds(steps)
    requires |installed| == |before| + InstallPos(intent.apps[n]) + 1
    requires |steps| == |before| + BlockSize(intent.apps[n])
    requires InstallLaid(installed, |before|, intent.apps[n], intent.action)
    requires ChecksLaid(steps, |installed| - 1, intent.apps[n])
    ensures LaidOut(steps, intent, n + 1)
  {
    forall k | 0 <= k < n ensures AppLaid(steps, intent, k) {
      assert AppLaid(before, intent, k);
      BlockPrefix(before, steps, Offset(intent.apps, k), intent.apps[k], intent.action);
    }
  }

  /** Appending leaves the parameters of laid steps as they are. */
  lemma ParamsPrefix(s: seq<Step>, t: seq<Step>, intent: Intent, resolve: Resolver, k: nat)
    requires k < |intent.apps| && AppParamsLaid(s, intent, resolve, k) && s <= t
    ensures AppParamsLaid(t, intent, resolve, k)
  {}

  lemma NewAppParams(installed: seq<Step>, steps: seq<Step>, intent: Intent, resolve: Resolver, n: nat)
    requires n < |intent.apps| && installed <= steps
    requires |installed| == Offset(intent.apps, n) + InstallPos(intent.apps[n]) + 1
    requires InstallParams(installed, Offset(intent.apps, n), intent.apps[n], intent.namespace,
                           ResolvedVersion(intent.apps[n], resolve))
    requires ChecksParams(steps, |installed| - 1, intent.apps[n], intent.namespace)
    ensures AppParamsLaid(steps, intent, resolve, n)
  {}

  lemma ParamsAppended(before: seq<Step>, steps: seq<Step>, intent: Intent, resolve: Resolver, n: nat)
    requires n < |intent.apps| && ParamsLaid(before, intent, resolve, n) && before <= steps
    requires AppParamsLaid(steps, intent, resolve, n)
    ensures ParamsLaid(steps, intent, resolve, n + 1)
  {
    assert steps[0] == before[0];
    forall k | 0 <= k < n + 1 ensures AppParamsLaid(steps, intent, resolve, k) {
      if k < n {
        assert AppParamsLaid(before, intent, resolve, k);
        ParamsPrefix(before, steps, intent, resolve, k);
      }
    }
  }

  // ---- what every built plan is ----

  predicate InBlock(apps: seq<AppIntent>, k: nat, i: nat)
    requires k < |apps|
  {
    Offset(apps, k) <= i < Offset(apps, k) + BlockSize(apps[k])
  }

  /** Every step but the first belongs to an app. */
  lemma {:induction false} OwnerOf(apps: seq<AppIntent>, n: nat, i: nat) returns (k: nat)
    requires n <= |apps| && 0 < i < Offset(apps, n)
    ensures k < n && InBlock(apps, k, i)
    decreases n
  {
    if i >= Offset(apps, n - 1) { k := n - 1; } else { k := OwnerOf(apps, n - 1, i); }
  }

  /** The positions the j-th step of the block at `o` depends on. */
  function BlockDeps(o: nat, app: AppIntent, j: nat): seq<nat> {
    if j == 0 then [0]
    else if j <= InstallPos(app) then if j == 2 then [o, o + 1] else [o]
    else [o + InstallPos(app)]
  }

  predicate AllBelow(idx: seq<nat>, b: nat) {
    forall j | 0 <= j < |idx| :: idx[j] < b
  }

  function IDsAt(steps: seq<Step>, idx: seq<nat>): seq<StepID>
    requires InBounds(steps, idx)
  {
    seq(|idx|, j requires 0 <= j < |idx| => steps[idx[j]].id)
  }

  lemma BlockStep(steps: seq<Step>, o: nat, app: AppIntent, action: string, b: nat)
    requires BlockLaid(steps, o, app, action) && o <= b < o + BlockSize(app)
    ensures b < |steps| && InBounds(steps, BlockDeps(o, app, b - o))
    ensures AllBelow(BlockDeps(o, app, b - o), b)
    ensures steps[b].dependsOn == IDsAt(steps, BlockDeps(o, app, b - o)) && steps[b].status.Pending?
  {}

  lemma DepsByPosition(steps: seq<Step>, b: nat, deps: seq<nat>)
    requires DistinctIds(steps) && b < |steps| && InBounds(steps, deps)
    requires steps[b].dependsOn == IDsAt(steps, deps)
    ensures forall a | 0 <= a < |steps| :: Dep(steps, b, a) <==> a in deps
  {
    forall a | 0 <= a < |steps| ensures Dep(steps, b, a) <==> a in deps {
      if Dep(steps, b, a) {
        var j :| 0 <= j < |deps| && steps[b].dependsOn[j] == steps[a].id;
        assert deps[j] == a;
      }
      if a in deps {
        var j :| 0 <= j < |deps| && deps[j] == a;
        assert steps[b].dependsOn[j] == steps[a].id;
      }
    }
  }

  lemma DepsAreEarlier(steps: seq<Step>, b: nat, deps: seq<nat>)
    requires b < |steps| && AllBelow(deps, b)
    requires steps[b].dependsOn == IDsAt(steps, deps)
    ensures forall d | d in steps[b].dependsOn :: HasID(steps[..b], d)
  {
    forall d | d in steps[b].dependsOn ensures HasID(steps[..b], d) {
      var j :| 0 <= j < |deps| && steps[b].dependsOn[j] == d;
      assert steps[..b][deps[j]].id == d;
    }
  }

  lemma LaidStep(steps: seq<Step>, o: nat, app: AppIntent, action: string, b: nat)
    requires DistinctIds(steps) && BlockLaid(steps, o, app, action) && o <= b < o + BlockSize(app)
    ensures b < |steps| && steps[b].status.Pending?
    ensures forall a | 0 <= a < |steps| :: Dep(steps, b, a) <==> a in BlockDeps(o, app, b - o)
    ensures forall d | d in steps[b].dependsOn :: HasID(steps[..b], d)
  {
    BlockStep(steps, o, app, action, b);
    DepsByPosition(steps, b, BlockDeps(o, app, b - o));
    DepsAreEarlier(steps, b, BlockDeps(o, app, b - o));
  }

  /** Position `b` of app `k`'s block: where its dependencies are. */
  lemma StepOfApp(steps: seq<Step>, intent: Intent, k: nat, b: nat)
    requires BuiltFor(steps, intent) && k < |intent.apps| && InBlock(intent.apps, k, b)
    ensures b < |steps| && steps[b].status.Pending?
    ensures forall a | 0 <= a < |steps| ::
      Dep(steps, b, a) <==> a in BlockDeps(Offset(intent.apps, k), intent.apps[k], b - Offset(intent.apps, k))
    ensures forall d | d in steps[b].dependsOn :: HasID(steps[..b], d)
  {
    assert AppLaid(steps, intent, k);
    LaidStep(steps, Offset(intent.apps, k), intent.apps[k], intent.action, b);
  }

  /** A built plan is fresh: distinct ids, all pending, each dependency a strictly earlier step. */
  lemma BuiltIsFresh(steps: seq<Step>, intent: Intent)
    requires BuiltFor(steps, intent)
    ensures Fresh(steps)
  {
    forall b | 0 <= b < |steps|
      ensures steps[b].status.Pending?
      ensures forall d | d in steps[b].dependsOn :: HasID(steps[..b], d)
    {
      if b > 0 {
        var k := OwnerOf(intent.apps, |intent.apps|, b);
        StepOfApp(steps, intent, k, b);
      }
    }
  }

  /** Dependencies never leave a block, except for the namespace step. */
  lemma {:induction false} AncestorsStayInBlock(steps: seq<Step>, intent: Intent, k: nat, b: nat, a: nat)
    requires BuiltFor(steps, intent) && k < |intent.apps| && InBlock(intent.apps, k, b)
    requires b < |steps| && a < |steps| && Ancestor(steps, a, b)
    ensures a == 0 || InBlock(intent.apps, k, a)
    decreases b
  {
    var d :| 0 <= d < b && Dep(steps, b, d) && (d == a || Ancestor(steps, a, d));
    StepOfApp(steps, intent, k, b);
    assert d == 0 || InBlock(intent.apps, k, d);
    if d == 0 {
      assert a == 0;
    } else if d != a {
      AncestorsStayInBlock(steps, intent, k, d, a);
    }
  }

  /** The namespace step comes before everything else. */
  lemma {:induction false} NamespaceIsRoot(steps: seq<Step>, intent: Intent, b: nat)
    requires BuiltFor(steps, intent) && 0 < b < |steps|
    ensures Ancestor(steps, 0, b)
    decreases b
  {
    var k := OwnerOf(intent.apps, |intent.apps|, b);
    var o := Offset(intent.apps, k);
    StepOfApp(steps, intent, k, b);
    OffsetsAscend(intent.apps, k, |intent.apps|);
    var d := BlockDeps(o, intent.apps[k], b - o)[0];
    assert Dep(steps, b, d);
    if d != 0 {
      NamespaceIsRoot(steps, intent, d);
    }
  }

  /** Failure isolation: at rest, a step of app `k` is pending exactly when the namespace step or
      an ancestor within that same app failed. */
  lemma FailuresStayInApp(steps: seq<Step>, intent: Intent, acts: seq<Action>, k: nat, b: nat)
    requires BuiltFor(steps, intent) && k < |intent.apps| && InBlock(intent.apps, k, b)
    requires Legal(steps, acts) && Quiescent(Exec(steps, acts))
    ensures b < |steps| == |Exec(steps, acts)|
    ensures Exec(steps, acts)[b].status.Pending? <==>
      exists a | 0 <= a < |steps| && Ancestor(steps, a, b) ::
        (a == 0 || InBlock(intent.apps, k, a)) && Exec(steps, acts)[a].status.Failed?
  {
    BuiltIsFresh(steps, intent);
    StepOfApp(steps, intent, k, b);
    BlockedExactlyByFailures(steps, acts, b);
    forall a | 0 <= a < |steps| && Ancestor(steps, a, b) ensures a == 0 || InBlock(intent.apps, k, a) {
      AncestorsStayInBlock(steps, intent, k, b, a);
    }
  }

  /** Whatever happens in other apps, an app none of whose own steps failed is complete at rest,
      provided the namespace step did not fail. */
  lemma AppCompletesDespiteOthers(steps: seq<Step>, intent: Intent, acts: seq<Action>, k: nat)
    requires BuiltFor(steps, intent) && k < |intent.apps|
    requires Legal(steps, acts) && Quiescent(Exec(steps, acts)) && |Exec(steps, acts)| == |steps|
    requires forall a | 0 <= a < |steps| && (a == 0 || InBlock(intent.apps, k, a)) ::
      !Exec(steps, acts)[a].status.Failed?
    ensures forall b | 0 <= b < |steps| && InBlock(intent.apps, k, b) :: Done(Exec(steps, acts)[b].status)
  {
    var s := Exec(steps, acts);
    forall b | 0 <= b < |steps| && InBlock(intent.apps, k, b) ensures Done(s[b].status) {
      FailuresStayInApp(steps, intent, acts, k, b);
      assert s[b] in s;
    }
  }

  /** Only a failed namespace step blocks every app: nothing else ever starts. */
  lemma NamespaceFailureBlocksAll(steps: seq<Step>, intent: Intent, acts: seq<Action>)
    requires BuiltFor(steps, intent) && Legal(steps, acts)
    ensures |Exec(steps, acts)| == |steps| > 0
    ensures Exec(steps, acts)[0].status.Failed? ==>
      forall b | 0 < b < |steps| :: Exec(steps, acts)[b].status.Pending?
  {
    BuiltIsFresh(steps, intent);
    RunsAreDisciplined(steps, acts);
    if Exec(steps, acts)[0].status.Failed? {
      forall b | 0 < b < |steps| ensures Exec(steps, acts)[b].status.Pending? {
        NamespaceIsRoot(steps, intent, b);
        NothingRunsEarly(steps, acts, 0, b);
      }
    }
  }

  // ---- depth of built plans ----

  /** Depth of the j-th step of a block: validate 1, storage 2, install 2 or 3, the rest one more. */
  function BlockDepth(app: AppIntent, j: nat): nat {
    if j <= InstallPos(app) then 1 + j else 2 + InstallPos(app)
  }

  /** A step whose dependencies reach depth m - 1, and no further, has depth m. */
  lemma DepthStep(steps: seq<Step>, b: nat, m: nat, k: nat)
    requires b < |steps| && m > 0 && k < b && Dep(steps, b, k) && Depth(steps, k) == m - 1
    requires forall d | 0 <= d < b && Dep(steps, b, d) :: Depth(steps, d) < m
    ensures Depth(steps, b) == m
  {
    DepthBound(steps, b, m);
    DepthBound(steps, b, m - 1);
  }

  /** The deepest dependency of a step is the last one it lists. */
  lemma {:induction false} BlockDepths(steps: seq<Step>, intent: Intent, k: nat, b: nat)
    requires BuiltFor(steps, intent) && k < |intent.apps| && InBlock(intent.apps, k, b)
    ensures b < |steps|
    ensures Depth(steps, b) == BlockDepth(intent.apps[k], b - Offset(intent.apps, k))
    decreases b
  {
    var app, o := intent.apps[k], Offset(intent.apps, k);
    StepOfApp(steps, intent, k, b);
    OffsetsAscend(intent.apps, k, |intent.apps|);
    var deps := BlockDeps(o, app, b - o);
    var last := deps[|deps| - 1];
    assert last in deps;
    if b == o {
      DepthBound(steps, 0, 0);
    } else {
      BlockDepths(steps, intent, k, o);
      BlockDepths(steps, intent, k, last);
    }
    DepthStep(steps, b, BlockDepth(app, b - o), last);
  }

  function RoundsNeeded(apps: seq<AppIntent>): nat {
    if apps == [] then 1
    else if exists a | a in apps :: a.persistence then 5
    else 4
  }

  /** Exact parallel depth: the fully parallel executor finishes a built plan in 5 rounds when
      some app wants persistence and in 4 otherwise, whatever the number of apps, and no sooner. */
  lemma ParallelDepth(steps: seq<Step>, intent: Intent, r: nat)
    requires BuiltFor(steps, intent)
    ensures AllDone(AfterRounds(steps, r)) <==> r >= RoundsNeeded(intent.apps)
  {
    var apps := intent.apps;
    BuiltIsFresh(steps, intent);
    RoundsToFinish(steps, r);
    DepthBound(steps, 0, 0);
    if r >= RoundsNeeded(apps) {
      forall i | 0 <= i < |steps| ensures Depth(steps, i) < r {
        if i > 0 {
          var k := OwnerOf(apps, |apps|, i);
          BlockDepths(steps, intent, k, i);
          assert apps[k] in apps;
        }
      }
    } else {
      var i := DeepStep(steps, intent);
    }
  }

  lemma DeepStep(steps: seq<Step>, intent: Intent) returns (i: nat)
    requires BuiltFor(steps, intent)
    ensures i < |steps| && Depth(steps, i) == RoundsNeeded(intent.apps) - 1
  {
    var apps := intent.apps;
    if apps == [] {
      DepthBound(steps, 0, 0);
      i := 0;
    } else {
      var k := 0;
      if a :| a in apps && a.persistence {
        k :| 0 <= k < |apps| && apps[k] == a;
      } else {
        assert apps[0] in apps;
      }
      i := Offset(apps, k) + BlockSize(apps[k]) - 1;
      BlockDepths(steps, intent, k, i);
    }
  }

  function PersistentApps(apps: seq<AppIntent>, n: nat): nat
    requires n <= |apps|
  {
    if n == 0 then 0 else PersistentApps(apps, n - 1) + if apps[n - 1].persistence then 1 else 0
  }

  function IngressApps(apps: seq<AppIntent>, n: nat): nat
    requires n <= |apps|
  {
    if n == 0 then 0 else IngressApps(apps, n - 1) + if apps[n - 1].ingress then 1 else 0
  }

  lemma {:induction false} OffsetCounts(apps: seq<AppIntent>, n: nat)
    requires n <= |apps|
    ensures Offset(apps, n) == 1 + 3 * n + PersistentApps(apps, n) + IngressApps(apps, n)
    ensures PersistentApps(apps, n) <= n && IngressApps(apps, n) <= n
  {
    if n > 0 { OffsetCounts(apps, n - 1); }
  }

  /** The number of steps and the bounds on the estimate for n apps. */
  lemma PlanSize(steps: seq<Step>, intent: Intent)
    requires BuiltFor(steps, intent)
    ensures |steps| ==
      1 + 3 * |intent.apps| + PersistentApps(intent.apps, |intent.apps|) + IngressApps(intent.apps, |intent.apps|)
    ensures 2 * (1 + 3 * |intent.apps|) <= EstimateMinutes(steps) <= 2 * (1 + 5 * |intent.apps|)
  {
    OffsetCounts(intent.apps, |intent.apps|);
  }

  /** A rollback plan is done after one round, however many apps it covers. */
  lemma RollbackIsOneRound(steps: seq<Step>, intent: Intent, r: nat)
    requires RollbackFor(steps, intent)
    ensures Fresh(steps)
    ensures AllDone(AfterRounds(steps, r)) <==> r >= 1 || intent.apps == []
  {
    RoundsToFinish(steps, r);
    forall i | 0 <= i < |steps| ensures Depth(steps, i) == 0 {
      DepthBound(steps, i, 0);
    }
    if |steps| > 0 { assert Depth(steps, 0) == 0; }
  }

  // ---- which steps a plan has ----

  function KindCount(steps: seq<Step>, n: nat, kind: StepKind): nat
    requires n <= |steps|
  {
    if n == 0 then 0 else KindCount(steps, n - 1, kind) + if steps[n - 1].kind == kind then 1 else 0
  }

  lemma KindStep(steps: seq<Step>, n: nat, kind: StepKind)
    requires n < |steps|
    ensures KindCount(steps, n + 1, kind) == KindCount(steps, n, kind) + if steps[n].kind == kind then 1 else 0
  {}

  lemma InstallKinds(steps: seq<Step>, o: nat, app: AppIntent, action: string, kind: StepKind)
    requires InstallLaid(steps, o, app, action)
    ensures KindCount(steps, o + InstallPos(app) + 1, kind) == KindCount(steps, o, kind) +
      match kind
      case InstallCRDs => 1
      case InstallChart => if action == "upgrade" then 0 else 1
      case UpgradeChart => if action == "upgrade" then 1 else 0
      case ConfigureStorage => if app.persistence then 1 else 0
      case _ => 0
  {
    KindStep(steps, o, kind);
    KindStep(steps, o + 1, kind);
    if app.persistence { KindStep(steps, o + 2, kind); }
  }

  lemma ChecksKinds(steps: seq<Step>, i: nat, app: AppIntent, kind: StepKind)
    requires ChecksLaid(steps, i, app)
    ensures KindCount(steps, i + (if app.ingress then 3 else 2), kind) == KindCount(steps, i + 1, kind) +
      match kind
      case ValidateReadiness => 1
      case ConfigureIngress => if app.ingress then 1 else 0
      case _ => 0
  {
    KindStep(steps, i + 1, kind);
    if app.ingress { KindStep(steps, i + 2, kind); }
  }

  lemma BlockKinds(steps: seq<Step>, o: nat, app: AppIntent, action: string, kind: StepKind)
    requires BlockLaid(steps, o, app, action) && o + BlockSize(app) <= |steps|
    ensures KindCount(steps, o + BlockSize(app), kind) == KindCount(steps, o, kind) +
      match kind
      case InstallCRDs | ValidateReadiness => 1
      case InstallChart => if action == "upgrade" then 0 else 1
      case UpgradeChart => if action == "upgrade" then 1 else 0
      case ConfigureStorage => if app.persistence then 1 else 0
      case ConfigureIngress => if app.ingress then 1 else 0
      case _ => 0
  {
    InstallKinds(steps, o, app, action, kind);
    ChecksKinds(steps, o + InstallPos(app), app, kind);
  }

  lemma {:induction false} KindsBelow(steps: seq<Step>, intent: Intent, n: nat, kind: StepKind)
    requires BuiltFor(steps, intent) && n <= |intent.apps| && Offset(intent.apps, n) <= |steps|
    ensures KindCount(steps, Offset(intent.apps, n), kind) ==
      match kind
      case CreateNamespace => 1
      case InstallCRDs | ValidateReadiness => n
      case InstallChart => if intent.action == "upgrade" then 0 else n
      case UpgradeChart => if intent.action == "upgrade" then n else 0
      case ConfigureStorage => PersistentApps(intent.apps, n)
      case ConfigureIngress => IngressApps(intent.apps, n)
      case _ => 0
    decreases n
  {
    if n == 0 {
      assert KindCount(steps, 1, kind) == KindCount(steps, 0, kind) + if steps[0].kind == kind then 1 else 0;
    } else {
      var k := n - 1;
      OffsetsAscend(intent.apps, k, n);
      KindsBelow(steps, intent, k, kind);
      assert AppLaid(steps, intent, k);
      BlockKinds(steps, Offset(intent.apps, k), intent.apps[k], intent.action, kind);
    }
  }

  /** What a plan consists of, for any intent: one namespace step; a validation and a readiness check
      for each app; an upgrade for each app if the action is "upgrade" and an install for each app
      otherwise, also for the actions "rollback" and "uninstall"; storage and ingress just for the
      apps that want them; and nothing else. */
  lemma KindsOfPlan(steps: seq<Step>, intent: Intent)
    requires BuiltFor(steps, intent)
    ensures KindCount(steps, |steps|, CreateNamespace) == 1
    ensures KindCount(steps, |steps|, InstallCRDs) == KindCount(steps, |steps|, ValidateReadiness) == |intent.apps|
    ensures intent.action == "upgrade" ==>
      KindCount(steps, |steps|, UpgradeChart) == |intent.apps| && KindCount(steps, |steps|, InstallChart) == 0
    ensures intent.action != "upgrade" ==>
      KindCount(steps, |steps|, InstallChart) == |intent.apps| && KindCount(steps, |steps|, UpgradeChart) == 0
    ensures KindCount(steps, |steps|, ConfigureStorage) == PersistentApps(intent.apps, |intent.apps|)
    ensures KindCount(steps, |steps|, ConfigureIngress) == IngressApps(intent.apps, |intent.apps|)
    ensures forall kind | kind in {InstallDependency, RollbackChart, UninstallChart, InstallOperator, RunHealthCheck,
                                   RunSecurityScan} :: KindCount(steps, |steps|, kind) == 0
  {
    forall kind { KindsBelow(steps, intent, |intent.apps|, kind); }
  }

  // ---- the pipeline of an app ----

  function Stage(kind: StepKind): nat {
    match kind
    case InstallCRDs => 1
    case ConfigureStorage => 2
    case InstallChart | UpgradeChart => 3
    case ConfigureIngress | ValidateReadiness => 4
    case _ => 0
  }

  lemma BlockStage(steps: seq<Step>, o: nat, app: AppIntent, action: string, b: nat)
    requires BlockLaid(steps, o, app, action) && o <= b < o + BlockSize(app) <= |steps|
    ensures Stage(steps[b].kind) ==
      if b == o then 1 else if b < o + InstallPos(app) then 2 else if b == o + InstallPos(app) then 3 else 4
  {}

  lemma StageAt(steps: seq<Step>, intent: Intent, k: nat, b: nat)
    requires BuiltFor(steps, intent) && k < |intent.apps| && InBlock(intent.apps, k, b)
    ensures b < |steps|
    ensures var o, i := Offset(intent.apps, k), Offset(intent.apps, k) + InstallPos(intent.apps[k]);
      Stage(steps[b].kind) == if b == o then 1 else if b < i then 2 else if b == i then 3 else 4
  {
    OffsetsAscend(intent.apps, k, |intent.apps|);
    assert AppLaid(steps, intent, k);
    BlockStage(steps, Offset(intent.apps, k), intent.apps[k], intent.action, b);
  }

  /** A direct dependency within the app is of an earlier stage. */
  lemma DependsOnEarlierStage(steps: seq<Step>, intent: Intent, k: nat, b: nat, d: nat)
    requires BuiltFor(steps, intent) && k < |intent.apps| && InBlock(intent.apps, k, b)
    requires b < |steps| && 0 < d < |steps| && Dep(steps, b, d)
    ensures InBlock(intent.apps, k, d) && d < b && Stage(steps[d].kind) < Stage(steps[b].kind)
  {
    var o, app := Offset(intent.apps, k), intent.apps[k];
    StepOfApp(steps, intent, k, b);
    OffsetsAscend(intent.apps, k, |intent.apps|);
    assert d in BlockDeps(o, app, b - o);
    StageAt(steps, intent, k, b);
    StageAt(steps, intent, k, d);
  }

  /** Within an app one step comes before another, directly or indirectly, exactly when it is of an
      earlier stage: validate, then storage, then install or upgrade, then ingress and readiness. */
  lemma {:induction false} PipelineOrder(steps: seq<Step>, intent: Intent, k: nat, a: nat, b: nat)
    requires BuiltFor(steps, intent) && k < |intent.apps| && InBlock(intent.apps, k, a) && InBlock(intent.apps, k, b)
    ensures a < |steps| && b < |steps|
    ensures Ancestor(steps, a, b) <==> Stage(steps[a].kind) < Stage(steps[b].kind)
    decreases b
  {
    var o, app := Offset(intent.apps, k), intent.apps[k];
    var i := o + InstallPos(app);
    StageAt(steps, intent, k, a);
    StageAt(steps, intent, k, b);
    StepOfApp(steps, intent, k, b);
    OffsetsAscend(intent.apps, k, |intent.apps|);
    if Stage(steps[a].kind) < Stage(steps[b].kind) {
      if b <= i || a == i {
        assert Dep(steps, b, a);
      } else {
        StageAt(steps, intent, k, i);
        PipelineOrder(steps, intent, k, a, i);
        assert Dep(steps, b, i);
      }
    }
    if Ancestor(steps, a, b) {
      var d :| 0 <= d < b && Dep(steps, b, d) && (d == a || Ancestor(steps, a, d));
      assert d != 0;
      DependsOnEarlierStage(steps, intent, k, b, d);
      if d != a { PipelineOrder(steps, intent, k, a, d); }
    }
  }

  // ---- what its steps are asked to do ----

  /** The parameter is there and is this text. */
  predicate Says(s: Step, key: string, text: string) {
    key in s.params && s.params[key] == Text(text)
  }

  lemma NamesDiffer()
    ensures "chart" != "repo" && "chart" != "version" && "repo" != "version" && "app" != "namespace"
    ensures "release_name" != "namespace" && "release_name" != "chart" && "release_name" != "repo"
    ensures "release_name" != "version" && "release_name" != "values" && "namespace" != "chart"
    ensures "namespace" != "repo" && "namespace" != "version" && "namespace" != "values" && "chart" != "values"
    ensures "repo" != "values" && "version" != "values" && "replicaCount" != "persistence.enabled"
  {
    assert "chart"[0] != "repo"[0];
  }

  /** The version asked for is that of the app, or for an open version the one resolved, if any. */
  predicate VersionFor(app: AppIntent, resolve: Resolver, version: string) {
    if app.version != "" && app.version != "latest" then version == app.version
    else if resolve(app.chartName, app.repoURL).Some? then version == resolve(app.chartName, app.repoURL).value
    else version == app.version
  }

  /** Each app has an install or upgrade step that names its release, namespace, chart, repository
      and version, with three replicas if it is to be highly available, persistence enabled if
      it is wanted, and every other value as given; its validation step names the same chart. */
  lemma InstallStepParams(steps: seq<Step>, intent: Intent, resolve: Resolver, k: nat) returns (o: nat, i: nat)
    requires BuiltFor(steps, intent) && ParamsLaid(steps, intent, resolve, |intent.apps|) && k < |intent.apps|
    ensures InBlock(intent.apps, k, o) && InBlock(intent.apps, k, i) && o < i < |steps|
    ensures steps[o].kind == InstallCRDs && steps[i].kind in {InstallChart, UpgradeChart}
    ensures var app, v, p := intent.apps[k], steps[o], steps[i];
      && Says(v, "chart", app.chartName) && Says(v, "repo", app.repoURL)
      && Says(p, "chart", app.chartName) && Says(p, "repo", app.repoURL)
      && Says(p, "release_name", app.name) && Says(p, "namespace", intent.namespace)
      && (exists version ::
            VersionFor(app, resolve, version) && Says(v, "version", version) && Says(p, "version", version))
      && "values" in p.params && p.params["values"].Nested?
      && var given, vals := app.values, p.params["values"].values;
        && (app.ha ==> "replicaCount" in vals && vals["replicaCount"] == Number(3))
        && (app.persistence ==> "persistence.enabled" in vals && vals["persistence.enabled"] == Flag(true))
        && forall key | !(app.ha && key == "replicaCount") && !(app.persistence && key == "persistence.enabled") ::
             (key in vals <==> key in given) && (key in given ==> vals[key] == given[key])
  {
    o := Offset(intent.apps, k);
    i := o + InstallPos(intent.apps[k]);
    assert AppLaid(steps, intent, k) && AppParamsLaid(steps, intent, resolve, k);
    var version := ResolvedVersion(intent.apps[k], resolve);
    NamesDiffer();
    assert VersionFor(intent.apps[k], resolve, version);
    assert Says(steps[o], "version", version) && Says(steps[i], "version", version);
  }

  /** The namespace step names the namespace; storage and ingress steps name the app, readiness checks
      the release, and all of them the namespace. */
  lemma OtherStepParams(steps: seq<Step>, intent: Intent, resolve: Resolver, k: nat, b: nat)
    requires BuiltFor(steps, intent) && ParamsLaid(steps, intent, resolve, |intent.apps|)
    requires k < |intent.apps| && InBlock(intent.apps, k, b)
    ensures b < |steps| && Says(steps[0], "namespace", intent.namespace)
    ensures steps[b].kind in {ConfigureStorage, ConfigureIngress} ==>
      Says(steps[b], "namespace", intent.namespace) && Says(steps[b], "app", intent.apps[k].name)
    ensures steps[b].kind == ValidateReadiness ==>
      Says(steps[b], "namespace", intent.namespace) && Says(steps[b], "release_name", intent.apps[k].name)
  {
    OffsetsAscend(intent.apps, k, |intent.apps|);
    assert AppLaid(steps, intent, k) && AppParamsLaid(steps, intent, resolve, k);
    BlockOthers(steps, Offset(intent.apps, k), intent.apps[k], intent, b);
  }

  lemma BlockOthers(steps: seq<Step>, o: nat, app: AppIntent, intent: Intent, b: nat)
    requires BlockLaid(steps, o, app, intent.action) && o <= b < o + BlockSize(app) <= |steps|
    requires app.persistence ==> steps[o + 1].params == AppParams(intent.namespace, app)
    requires ChecksParams(steps, o + InstallPos(app), app, intent.namespace)
    ensures steps[b].kind in {ConfigureStorage, ConfigureIngress} ==>
      Says(steps[b], "namespace", intent.namespace) && Says(steps[b], "app", app.name)
    ensures steps[b].kind == ValidateReadiness ==>
      Says(steps[b], "namespace", intent.namespace) && Says(steps[b], "release_name", app.name)
  {
    NamesDiffer();
  }

  // ---- what it warns of ----

  /** The plan warns exactly of an unreachable cluster and of the open versions that did not resolve. */
  lemma {:induction false} WarningsTell(intent: Intent, cluster: ClusterCheck, resolve: Resolver, n: nat, w: Warning)
    requires n <= |intent.apps|
    ensures w in Warnings(intent, cluster, resolve, n) <==>
      match w
      case ClusterNotValidated => cluster.Unreachable?
      case VersionNotResolved(chart) => exists k | 0 <= k < n ::
        && intent.apps[k].chartName == chart && intent.apps[k].version in {"", "latest"}
        && resolve(intent.apps[k].chartName, intent.apps[k].repoURL).None?
    decreases n
  {
    if n > 0 { WarningsTell(intent, cluster, resolve, n - 1, w); }
  }
}

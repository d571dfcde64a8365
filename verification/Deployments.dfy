// The deployment aggregate of internal/domain/deployment/entity.go and its events.
module Deployments {
  import opened Options
  import Names

  type ID = nat
  type Time = int
  type Values = map<string, string>

  datatype Status =
    | Pending | Planning | Validating | Deploying | Succeeded | Failed
    | RollingBack | RolledBack | Upgrading | Uninstalled

  datatype Source = RepoSource | OCISource | PathSource

  datatype Chart = Chart(name: string, repo: string, version: string, source: Source)

  datatype Entry = Entry(version: int, status: Status, chart: Chart, helmVersion: int, timestamp: Time, notes: string)

  datatype Event =
    | Created(id: ID, name: string, namespace: string, chart: Chart)
    | Started(id: ID, name: string, namespace: string)
    | SucceededEvent(id: ID, name: string, namespace: string, revision: int)
    | FailedEvent(id: ID, name: string, namespace: string, reason: string)
    | UpgradeStarted(id: ID, name: string, namespace: string, newChart: Chart)
    | RollbackStarted(id: ID, name: string, namespace: string, toVersion: int)
    | RolledBackEvent(id: ID, name: string, namespace: string, toVersion: int)

  /** Everything the aggregate holds. */
  datatype State = State(
    id: ID, name: string, namespace: string, chart: Chart, values: Values, status: Status,
    version: int, history: seq<Entry>, events: seq<Event>, createdAt: Time, updatedAt: Time,
    annotations: map<string, string>, labels: map<string, string>)

  // ---- construction ----

  /** White space as unicode.IsSpace has it. */
  predicate IsSpace(c: char) {
    || c in {'\t', '\n', '\U{000B}', '\U{000C}', '\r', ' ', '\U{0085}', '\U{00A0}', '\U{1680}'}
    || '\U{2000}' <= c <= '\U{200A}'
    || c in {'\U{2028}', '\U{2029}', '\U{202F}', '\U{205F}', '\U{3000}'}
  }

  predicate Blank(s: string) {
    forall i | 0 <= i < |s| :: IsSpace(s[i])
  }

  /** `semver` is the verdict of the semantic-version parser on the chart's version. */
  predicate ValidChart(c: Chart, semver: bool) {
    && !Blank(c.name)
    && (c.source.RepoSource? ==> !Blank(c.repo))
    && (c.version == "" || c.version == "latest" || semver)
  }

  predicate ValidRequest(name: string, namespace: string, chart: Chart, semver: bool) {
    && Names.ValidateReleaseName(name).Accepted?
    && Names.ValidateNamespace(namespace).Accepted?
    && ValidChart(chart, semver)
  }

  /** What a valid request is, character by character. */
  lemma ValidRequestExactly(name: string, namespace: string, chart: Chart, semver: bool)
    ensures ValidRequest(name, namespace, chart, semver) <==>
      && Names.IsLabel(name, 54) && Names.IsLabel(namespace, 63)
      && (exists i | 0 <= i < |chart.name| :: !IsSpace(chart.name[i]))
      && (chart.source == RepoSource ==> exists i | 0 <= i < |chart.repo| :: !IsSpace(chart.repo[i]))
      && (chart.version != "" && chart.version != "latest" ==> semver)
    ensures forall c | '!' <= c <= '~' :: !IsSpace(c)
    ensures IsSpace(' ') && IsSpace('\t') && IsSpace('\n') && IsSpace('\r')
  {
    Names.NamesAreLabels(name);
    Names.NamesAreLabels(namespace);
  }

  function NewState(id: ID, name: string, namespace: string, chart: Chart, values: Values, now: Time): State {
    State(id, name, namespace, chart, values, Pending, 1, [], [Created(id, name, namespace, chart)], now, now,
          map[], map[])
  }

  // ---- commands ----

  datatype Op =
    | StartDeployment(now: Time)
    | MarkSucceeded(revision: int, stamp: Time, now: Time)
    | MarkFailed(reason: string, now: Time)
    | StartUpgrade(chart: Chart, values: Values, now: Time)
    | StartRollback(toVersion: int, now: Time)
    | MarkRolledBack(toVersion: int, now: Time)
    | SetLabel(key: string, val: string, now: Time)
    | SetAnnotation(key: string, val: string, now: Time)
    | Drain

  datatype Outcome = Done | InvalidTransition(from: Status, to: Status)

  /** The guard of each command; MarkFailed and MarkRolledBack have none. */
  function Guard(st: Status, op: Op): Outcome {
    match op
    case StartDeployment(_) => if st in {Pending, Planning} then Done else InvalidTransition(st, Deploying)
    case MarkSucceeded(_, _, _) => if st in {Deploying, Upgrading} then Done else InvalidTransition(st, Succeeded)
    case StartUpgrade(_, _, _) => if st == Succeeded then Done else InvalidTransition(st, Upgrading)
    case StartRollback(_, _) => if st in {Failed, Succeeded} then Done else InvalidTransition(st, RollingBack)
    case _ => Done
  }

  predicate Accepts(s: State, op: Op) {
    Guard(s.status, op).Done?
  }

  /** The events a command records when it is accepted. */
  function EventsOf(s: State, op: Op): seq<Event> {
    if !Accepts(s, op) then []
    else
      match op
      case StartDeployment(_) => [Started(s.id, s.name, s.namespace)]
      case MarkSucceeded(rev, _, _) => [SucceededEvent(s.id, s.name, s.namespace, rev)]
      case MarkFailed(reason, _) => [FailedEvent(s.id, s.name, s.namespace, reason)]
      case StartUpgrade(c, _, _) => [UpgradeStarted(s.id, s.name, s.namespace, c)]
      case StartRollback(v, _) => [RollbackStarted(s.id, s.name, s.namespace, v)]
      case MarkRolledBack(v, _) => [RolledBackEvent(s.id, s.name, s.namespace, v)]
      case SetLabel(_, _, _) | SetAnnotation(_, _, _) | Drain => []
  }

  function Step(s: State, op: Op): State {
    if !Accepts(s, op) then s
    else
      var t := s.(events := s.events + EventsOf(s, op));
      match op
      case StartDeployment(now) => t.(status := Deploying, updatedAt := now)
      case MarkSucceeded(rev, stamp, now) =>
        t.(history := s.history + [Entry(s.version, s.status, s.chart, rev, stamp, "")],
           status := Succeeded, version := s.version + 1, updatedAt := now)
      case MarkFailed(_, now) => t.(status := Failed, updatedAt := now)
      case StartUpgrade(c, v, now) => t.(chart := c, values := v, status := Upgrading, updatedAt := now)
      case StartRollback(_, now) => t.(status := RollingBack, updatedAt := now)
      case MarkRolledBack(_, now) => t.(status := RolledBack, updatedAt := now)
      case SetLabel(k, v, now) => t.(labels := s.labels[k := v], updatedAt := now)
      case SetAnnotation(k, v, now) => t.(annotations := s.annotations[k := v], updatedAt := now)
      case Drain => t.(events := [])
  }

  class Deployment {
    var id: ID
    var name: string
    var namespace: string
    var chart: Chart
    var values: Values
    var status: Status
    var version: int
    var history: seq<Entry>
    var events: seq<Event>
    var createdAt: Time
    var updatedAt: Time
    var annotations: map<string, string>
    var labels: map<string, string>

    ghost function Snapshot(): (s: State)
      reads this
    {
      State.State(id, name, namespace, chart, values, status, version, history, events,
                        createdAt, updatedAt, annotations, labels)
    }

    constructor Reconstitute(id: ID, name: string, namespace: string, chart: Chart, values: Values, status: Status,
                             version: int, history: seq<Entry>, createdAt: Time, updatedAt: Time,
                             annotations: map<string, string>, labels: map<string, string>)
      ensures Snapshot() == State.State(id, name, namespace, chart, values, status, version, history, [],
                                           createdAt, updatedAt, annotations, labels)
    {
      this.id, this.name, this.namespace, this.chart, this.values := id, name, namespace, chart, values;
      this.status, this.version, this.history, this.events := status, version, history, [];
      this.createdAt, this.updatedAt, this.annotations, this.labels := createdAt, updatedAt, annotations, labels;
    }

    /** Refuses exactly the invalid requests. */
    static method New(id: ID, name: string, namespace: string, chart: Chart, values: Values, semver: bool, now: Time)
      returns (r: Option<Deployment>)
      ensures r.Some? <==> ValidRequest(name, namespace, chart, semver)
      ensures r.Some? ==> fresh(r.value) && r.value.Snapshot() == NewState(id, name, namespace, chart, values, now)
      ensures r.Some? ==>
        && r.value.id == id && r.value.name == name && r.value.namespace == namespace
        && r.value.chart == chart && r.value.values == values
        && r.value.status == Pending && r.value.version == 1 && r.value.history == []
        && r.value.events == [Created(id, name, namespace, chart)]
        && r.value.createdAt == now && r.value.updatedAt == now
        && r.value.annotations == map[] && r.value.labels == map[]
    {
      if !Names.ValidateReleaseName(name).Accepted? {
        return None;
      }
      if !Names.ValidateNamespace(namespace).Accepted? {
        return None;
      }
      if !ValidChart(chart, semver) {
        return None;
      }
      var d := new Deployment.Reconstitute(id, name, namespace, chart, values, Pending, 1, [], now, now, map[], map[]);
      d.Record(Created(id, name, namespace, chart));
      return Some(d);
    }

    method Record(e: Event)
      modifies `events
      ensures events == old(events) + [e]
    {
      events := events + [e];
    }

    method StartDeployment(now: Time) returns (r: Outcome)
      modifies `status, `updatedAt, `events
      ensures r == if old(status) in {Pending, Planning} then Done else InvalidTransition(old(status), Deploying)
      ensures r.Done? ==>
        status == Deploying && updatedAt == now && events == old(events) + [Started(id, name, namespace)]
      ensures !r.Done? ==> status == old(status) && updatedAt == old(updatedAt) && events == old(events)
      ensures Snapshot() == Step(old(Snapshot()), Op.StartDeployment(now))
    {
      if status != Pending && status != Planning {
        return InvalidTransition(status, Deploying);
      }
      status := Deploying;
      updatedAt := now;
      Record(Started(id, name, namespace));
      return Done;
    }

    method MarkSucceeded(revision: int, stamp: Time, now: Time) returns (r: Outcome)
      modifies `history, `status, `version, `updatedAt, `events
      ensures r == if old(status) in {Deploying, Upgrading} then Done else InvalidTransition(old(status), Succeeded)
      ensures r.Done? ==>
        && history == old(history) + [Entry(old(version), old(status), chart, revision, stamp, "")]
        && status == Succeeded && version == old(version) + 1 && updatedAt == now
        && events == old(events) + [SucceededEvent(id, name, namespace, revision)]
      ensures !r.Done? ==> Snapshot() == old(Snapshot())
      ensures Snapshot() == Step(old(Snapshot()), Op.MarkSucceeded(revision, stamp, now))
    {
      if status != Deploying && status != Upgrading {
        return InvalidTransition(status, Succeeded);
      }
      history := history + [Entry(version, status, chart, revision, stamp, "")];
      status := Succeeded;
      version := version + 1;
      updatedAt := now;
      Record(SucceededEvent(id, name, namespace, revision));
      return Done;
    }

    method MarkFailed(reason: string, now: Time)
      modifies `status, `updatedAt, `events
      ensures status == Failed && updatedAt == now && events == old(events) + [FailedEvent(id, name, namespace, reason)]
      ensures Snapshot() == Step(old(Snapshot()), Op.MarkFailed(reason, now))
    {
      status := Failed;
      updatedAt := now;
      Record(FailedEvent(id, name, namespace, reason));
    }

    method StartUpgrade(newChart: Chart, newValues: Values, now: Time) returns (r: Outcome)
      modifies `chart, `values, `status, `updatedAt, `events
      ensures r == if old(status) == Succeeded then Done else InvalidTransition(old(status), Upgrading)
      ensures r.Done? ==>
        && chart == newChart && values == newValues && status == Upgrading && updatedAt == now
        && events == old(events) + [UpgradeStarted(id, name, namespace, newChart)]
      ensures !r.Done? ==> Snapshot() == old(Snapshot())
      ensures Snapshot() == Step(old(Snapshot()), Op.StartUpgrade(newChart, newValues, now))
    {
      if status != Succeeded {
        return InvalidTransition(status, Upgrading);
      }
      chart := newChart;
      values := newValues;
      status := Upgrading;
      updatedAt := now;
      Record(UpgradeStarted(id, name, namespace, newChart));
      return Done;
    }

    method StartRollback(toVersion: int, now: Time) returns (r: Outcome)
      modifies `status, `updatedAt, `events
      ensures r == if old(status) in {Failed, Succeeded} then Done else InvalidTransition(old(status), RollingBack)
      ensures r.Done? ==>
        && status == RollingBack && updatedAt == now
        && events == old(events) + [RollbackStarted(id, name, namespace, toVersion)]
      ensures !r.Done? ==> Snapshot() == old(Snapshot())
      ensures Snapshot() == Step(old(Snapshot()), Op.StartRollback(toVersion, now))
    {
      if status != Failed && status != Succeeded {
        return InvalidTransition(status, RollingBack);
      }
      status := RollingBack;
      updatedAt := now;
      Record(RollbackStarted(id, name, namespace, toVersion));
      return Done;
    }

    method MarkRolledBack(toVersion: int, now: Time)
      modifies `status, `updatedAt, `events
      ensures status == RolledBack && updatedAt == now
      ensures events == old(events) + [RolledBackEvent(id, name, namespace, toVersion)]
      ensures Snapshot() == Step(old(Snapshot()), Op.MarkRolledBack(toVersion, now))
    {
      status := RolledBack;
      updatedAt := now;
      Record(RolledBackEvent(id, name, namespace, toVersion));
    }

    method SetLabel(key: string, val: string, now: Time)
      modifies `labels, `updatedAt
      ensures labels == old(labels)[key := val] && updatedAt == now
      ensures Snapshot() == Step(old(Snapshot()), Op.SetLabel(key, val, now))
    {
      labels := labels[key := val];
      updatedAt := now;
    }

    method SetAnnotation(key: string, val: string, now: Time)
      modifies `annotations, `updatedAt
      ensures annotations == old(annotations)[key := val] && updatedAt == now
      ensures Snapshot() == Step(old(Snapshot()), Op.SetAnnotation(key, val, now))
    {
      annotations := annotations[key := val];
      updatedAt := now;
    }

    method DrainEvents() returns (evts: seq<Event>)
      modifies `events
      ensures evts == old(events) && events == []
      ensures Snapshot() == Step(old(Snapshot()), Op.Drain)
    {
      evts := events;
      events := [];
    }
  }
}

// Whole runs of the aggregate: any sequence of commands and drains.
module AggregateRuns {
  import opened Options
  import opened Deployments

  function Run(s: State, ops: seq<Op>): State {
    if ops == [] then s else Step(Run(s, ops[..|ops| - 1]), ops[|ops| - 1])
  }

  /** The batches handed out by DrainEvents, one after the other. */
  function Drained(s: State, ops: seq<Op>): seq<Event> {
    if ops == [] then []
    else
      var front, op := ops[..|ops| - 1], ops[|ops| - 1];
      Drained(s, front) + if op.Drain? then Run(s, front).events else []
  }

  /** Everything recorded, command by command. */
  function Recorded(s: State, ops: seq<Op>): seq<Event> {
    if ops == [] then []
    else
      var front, op := ops[..|ops| - 1], ops[|ops| - 1];
      Recorded(s, front) + EventsOf(Run(s, front), op)
  }

  lemma EventsGrow(s: State, op: Op)
    requires !op.Drain?
    ensures Step(s, op).events == s.events + EventsOf(s, op)
  {}

  /** Draining loses nothing and repeats nothing: the drained batches followed by the pending
      buffer are the initial buffer followed by everything recorded, in order. */
  lemma {:induction false} DrainingConserves(s: State, ops: seq<Op>)
    ensures Drained(s, ops) + Run(s, ops).events == s.events + Recorded(s, ops)
    decreases |ops|
  {
    if ops != [] {
      var front, op := ops[..|ops| - 1], ops[|ops| - 1];
      DrainingConserves(s, front);
      var d, r, added := Drained(s, front), Run(s, front), EventsOf(Run(s, front), op);
      if op.Drain? {
        assert Drained(s, ops) == d + r.events && added == [];
      } else {
        assert Drained(s, ops) == d;
        EventsGrow(r, op);
        assert d + (r.events + added) == d + r.events + added;
      }
      assert s.events + Recorded(s, front) + added == s.events + Recorded(s, ops);
    }
  }

  // ---- reading the events back ----

  datatype Past = Past(version: int, status: Status, chart: Chart, helmVersion: int)

  /** What events tell of a deployment: all but times, values, labels and annotations. */
  datatype View = View(id: ID, name: string, namespace: string, chart: Chart, status: Status, version: int,
                       past: seq<Past>)

  function PastOf(h: seq<Entry>): seq<Past> {
    seq(|h|, i requires 0 <= i < |h| => Past(h[i].version, h[i].status, h[i].chart, h[i].helmVersion))
  }

  function ViewOf(s: State): View {
    View(s.id, s.name, s.namespace, s.chart, s.status, s.version, PastOf(s.history))
  }

  function Interpret(v: Option<View>, e: Event): Option<View> {
    match (v, e)
    case (_, Created(id, name, ns, c)) => Some(View(id, name, ns, c, Pending, 1, []))
    case (None, _) => None
    case (Some(w), Started(_, _, _)) => Some(w.(status := Deploying))
    case (Some(w), SucceededEvent(_, _, _, rev)) =>
      Some(w.(status := Succeeded, version := w.version + 1,
              past := w.past + [Past(w.version, w.status, w.chart, rev)]))
    case (Some(w), FailedEvent(_, _, _, _)) => Some(w.(status := Failed))
    case (Some(w), UpgradeStarted(_, _, _, c)) => Some(w.(status := Upgrading, chart := c))
    case (Some(w), RollbackStarted(_, _, _, _)) => Some(w.(status := RollingBack))
    case (Some(w), RolledBackEvent(_, _, _, _)) => Some(w.(status := RolledBack))
  }

  function Replay(v: Option<View>, es: seq<Event>): Option<View> {
    if es == [] then v else Interpret(Replay(v, es[..|es| - 1]), es[|es| - 1])
  }

  lemma {:induction false} ReplayAppend(v: Option<View>, a: seq<Event>, b: seq<Event>)
    ensures Replay(v, a + b) == Replay(Replay(v, a), b)
    decreases |b|
  {
    if b == [] {
      assert a + b == a;
    } else {
      ReplayAppend(v, a, b[..|b| - 1]);
      assert (a + b)[..|a + b| - 1] == a + b[..|b| - 1];
    }
  }

  lemma ReplayOne(v: Option<View>, e: Event)
    ensures Replay(v, [e]) == Interpret(v, e)
  {
    assert [e][..0] == [];
    assert Replay(v, []) == v;
  }

  /** One command and its events say the same. */
  lemma StepMatchesEvents(s: State, op: Op)
    ensures Replay(Some(ViewOf(s)), EventsOf(s, op)) == Some(ViewOf(Step(s, op)))
  {
    var es := EventsOf(s, op);
    if es != [] {
      ReplayOne(Some(ViewOf(s)), es[0]);
      assert PastOf(Step(s, op).history) ==
        PastOf(s.history) + if op.MarkSucceeded? then [Past(s.version, s.status, s.chart, op.revision)] else [];
    }
  }

  lemma {:induction false} RecordedReplays(s: State, ops: seq<Op>)
    ensures Replay(Some(ViewOf(s)), Recorded(s, ops)) == Some(ViewOf(Run(s, ops)))
    decreases |ops|
  {
    if ops != [] {
      var front, op := ops[..|ops| - 1], ops[|ops| - 1];
      RecordedReplays(s, front);
      StepMatchesEvents(Run(s, front), op);
      ReplayAppend(Some(ViewOf(s)), Recorded(s, front), EventsOf(Run(s, front), op));
    }
  }

  /** Event sourcing: from New, whatever the commands and drains, the drained batches followed by
      the pending buffer rebuild identity, status, version, chart and every history entry. */
  lemma EventsRebuildAggregate(id: ID, name: string, ns: string, chart: Chart, values: Values, now: Time, ops: seq<Op>)
    ensures var s := NewState(id, name, ns, chart, values, now);
      Replay(None, Drained(s, ops) + Run(s, ops).events) == Some(ViewOf(Run(s, ops)))
  {
    var s := NewState(id, name, ns, chart, values, now);
    DrainingConserves(s, ops);
    RecordedReplays(s, ops);
    ReplayAppend(None, s.events, Recorded(s, ops));
    ReplayOne(None, s.events[0]);
    assert s.events == [s.events[0]] && PastOf([]) == [];
  }

  // ---- the history law ----

  /** No command brings the deployment back from here. */
  predicate Dead(st: Status) {
    st in {Failed, RollingBack, RolledBack}
  }

  /** Numbering and statuses of a history written by MarkSucceeded alone. */
  predicate WellNumbered(version: int, history: seq<Entry>) {
    && version == |history| + 1
    && forall i | 0 <= i < |history| ::
      history[i].version == i + 1 && history[i].status == if i == 0 then Deploying else Upgrading
  }

  predicate StatusFitsHistory(st: Status, history: seq<Entry>) {
    && st !in {Planning, Validating, Uninstalled}
    && (st in {Pending, Deploying} ==> history == [])
    && (st in {Upgrading, Succeeded} ==> history != [])
  }

  predicate Lawful(s: State) {
    WellNumbered(s.version, s.history) && StatusFitsHistory(s.status, s.history)
  }

  lemma StepKeepsLaw(s: State, op: Op)
    requires Lawful(s)
    ensures Lawful(Step(s, op))
    ensures Dead(s.status) ==>
      Dead(Step(s, op).status) && Step(s, op).version == s.version && Step(s, op).history == s.history
    ensures Step(s, op).status == Deploying && s.status != Deploying ==> s.status == Pending
    ensures s.status != Pending ==> Step(s, op).status != Pending
    ensures s.history <= Step(s, op).history
  {}

  /** Every run from New: the history is numbered 1, 2, ..., its first entry was written while
      deploying and every later one while upgrading, and PLANNING, VALIDATING and UNINSTALLED are
      never reached. */
  lemma {:induction false} HistoryLaw(s: State, ops: seq<Op>)
    requires Lawful(s)
    ensures Lawful(Run(s, ops))
    decreases |ops|
  {
    if ops != [] {
      HistoryLaw(s, ops[..|ops| - 1]);
      StepKeepsLaw(Run(s, ops[..|ops| - 1]), ops[|ops| - 1]);
    }
  }

  /** Once FAILED, ROLLING_BACK or ROLLED_BACK is entered, version and history never change again. */
  lemma {:induction false} DeadIsForever(s: State, ops: seq<Op>)
    requires Lawful(s) && Dead(s.status)
    ensures Dead(Run(s, ops).status) && Run(s, ops).version == s.version && Run(s, ops).history == s.history
    decreases |ops|
  {
    if ops != [] {
      DeadIsForever(s, ops[..|ops| - 1]);
      HistoryLaw(s, ops[..|ops| - 1]);
      StepKeepsLaw(Run(s, ops[..|ops| - 1]), ops[|ops| - 1]);
    }
  }

  /** How often a run enters DEPLOYING. */
  function DeployingEntries(s: State, ops: seq<Op>): nat {
    if ops == [] then 0
    else
      var before, after := Run(s, ops[..|ops| - 1]), Run(s, ops);
      DeployingEntries(s, ops[..|ops| - 1]) + if before.status != Deploying && after.status == Deploying then 1 else 0
  }

  /** DEPLOYING is entered at most once, and only from PENDING. */
  lemma {:induction false} DeploysOnce(s: State, ops: seq<Op>)
    requires Lawful(s)
    ensures s.status != Pending ==> Run(s, ops).status != Pending
    ensures DeployingEntries(s, ops) <= if s.status == Pending && Run(s, ops).status != Pending then 1 else 0
    decreases |ops|
  {
    if ops != [] {
      DeploysOnce(s, ops[..|ops| - 1]);
      HistoryLaw(s, ops[..|ops| - 1]);
      StepKeepsLaw(Run(s, ops[..|ops| - 1]), ops[|ops| - 1]);
    }
  }

  /** The whole-run law of a deployment from its creation, unguarded commands included. */
  lemma LifecycleFromNew(id: ID, name: string, ns: string, chart: Chart, values: Values, now: Time, ops: seq<Op>)
    ensures var s := NewState(id, name, ns, chart, values, now);
      var d := Run(s, ops);
      && d.version == |d.history| + 1
      && (forall i | 0 <= i < |d.history| :: d.history[i].version == i + 1)
      && (forall i | 0 <= i < |d.history| :: d.history[i].status == if i == 0 then Deploying else Upgrading)
      && d.status !in {Planning, Validating, Uninstalled}
      && (d.status in {Pending, Deploying} ==> d.history == [])
      && (d.status in {Upgrading, Succeeded} ==> d.history != [])
      && DeployingEntries(s, ops) <= 1
  {
    var s := NewState(id, name, ns, chart, values, now);
    HistoryLaw(s, ops);
    DeploysOnce(s, ops);
  }
}

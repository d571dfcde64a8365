// The orchestration service of internal/application/deployment/service.go as a state machine
// whose atomic steps are its port calls. A call in flight is the port it waits on together with
// its aggregate; any port may fail, calls interleave freely, and a crash forgets them all.
module Machine {
  import opened Options
  import opened Deployments
  import opened Store

  datatype Cmd =
    | Install(name: string, namespace: string, chartName: string, repoURL: string, chartVersion: string,
              values: Values, createNS: bool, dryRun: bool)
    | Upgrade(name: string, namespace: string, chartName: string, repoURL: string, chartVersion: string,
              values: Values, dryRun: bool)
    | Rollback(name: string, namespace: string, toVersion: int, dryRun: bool)
    | Uninstall(name: string, namespace: string, dryRun: bool)

  function Requested(cmd: Cmd): Chart
    requires cmd.Install? || cmd.Upgrade?
  {
    Chart(cmd.chartName, cmd.repoURL, cmd.chartVersion, RepoSource)
  }

  /** What Helm is asked to do. */
  datatype HelmRequest =
    | InstallRequest(name: string, namespace: string, chartName: string, repoURL: string, version: string,
                     values: Values, createNS: bool, dryRun: bool)
    | UpgradeRequest(name: string, namespace: string, chartName: string, repoURL: string, version: string,
                     values: Values, dryRun: bool)
    | RollbackRequest(name: string, namespace: string, toVersion: int, dryRun: bool)

  /** What the outside world has seen; a Helm call is filed under the deployment it is made for. */
  datatype Effect =
    | Saved(row: Row)
    | Deleted(id: ID)
    | HelmCall(id: ID, request: HelmRequest, ok: bool)
    | NamespaceEnsured(namespace: string, ok: bool)
    | HelmUninstalled(name: string, namespace: string, dryRun: bool, ok: bool)
    | Published(events: seq<Event>)

  datatype World = World(store: Table, used: set<ID>, log: seq<Effect>)

  datatype Reply = Error | Success(id: ID, revision: int) | Removed

  /** The port call a command waits on, and its aggregate. */
  datatype Pc =
    | EnsureNamespace(g: State)
    | SaveInitial(g: State)
    | Find
    | SaveStarted(g: State)
    | CallHelm(g: State)
    | SaveFailed(g: State)
    | PublishFailed(g: State)
    | SaveDone(g: State, revision: int)
    | PublishDone(g: State, revision: int)
    | UninstallHelm
    | UninstallFind
    | UninstallDelete(id: ID)
    | Returned(reply: Reply)

  /** What a port answers, and the clock readings the service takes right after. */
  datatype Answer =
    | Ok(revision: int, at: Time, later: Time)
    | Fault(reason: string, at: Time)
    | Hit(id: ID, at: Time)

  // ---- one call ----

  function StartOp(cmd: Cmd, now: Time): Op
    requires !cmd.Uninstall?
  {
    match cmd
    case Install(_, _, _, _, _, _, _, _) => StartDeployment(now)
    case Upgrade(_, _, _, _, _, values, _) => StartUpgrade(Requested(cmd), values, now)
    case Rollback(_, _, v, _) => StartRollback(v, now)
  }

  function FinishOp(cmd: Cmd, revision: int, at: Time, later: Time): Op
    requires !cmd.Uninstall?
  {
    if cmd.Rollback? then MarkRolledBack(cmd.toVersion, at) else MarkSucceeded(revision, at, later)
  }

  function RequestOf(cmd: Cmd): HelmRequest
    requires !cmd.Uninstall?
  {
    match cmd
    case Install(name, ns, chart, repo, version, values, createNS, dryRun) =>
      InstallRequest(name, ns, chart, repo, version, values, createNS, dryRun)
    case Upgrade(name, ns, chart, repo, version, values, dryRun) =>
      UpgradeRequest(name, ns, chart, repo, version, values, dryRun)
    case Rollback(name, ns, toVersion, dryRun) => RollbackRequest(name, ns, toVersion, dryRun)
  }

  /** The first port a command calls; only an install can be refused before that. */
  function Begin(cmd: Cmd, semver: bool, id: ID, now: Time): (pc: Pc)
    ensures Fits(cmd, pc)
  {
    match cmd
    case Install(name, ns, _, _, _, values, createNS, dryRun) =>
      if !ValidRequest(name, ns, Requested(cmd), semver) then Returned(Error)
      else
        var g := NewState(id, name, ns, Requested(cmd), values, now);
        if createNS || !dryRun then EnsureNamespace(g) else SaveInitial(g)
    case Upgrade(_, _, _, _, _, _, _) => Find
    case Rollback(_, _, _, _) => Find
    case Uninstall(_, _, _) => UninstallHelm
  }

  predicate Searches(pc: Pc) {
    pc.Find? || pc.UninstallFind?
  }

  /** Which ports a command ever waits on. */
  predicate Fits(cmd: Cmd, pc: Pc) {
    match pc
    case EnsureNamespace(_) | SaveInitial(_) => cmd.Install?
    case Find => cmd.Upgrade? || cmd.Rollback?
    case UninstallHelm | UninstallFind | UninstallDelete(_) => cmd.Uninstall?
    case Returned(_) => true
    case _ => !cmd.Uninstall?
  }

  /** The answers a port may give: a fault at any time, and from a search any one matching row. */
  predicate Possible(w: World, cmd: Cmd, pc: Pc, a: Answer) {
    && !pc.Returned? && Fits(cmd, pc)
    && if Searches(pc)
       then a.Fault? || (a.Hit? && a.id in w.store && Matches(w.store[a.id], cmd.name, cmd.namespace))
       else a.Fault? || a.Ok?
  }

  function Log(w: World, e: Effect): World {
    w.(log := w.log + [e])
  }

  function Save(w: World, g: State): World {
    var t := Upsert(w.store, g);
    Log(w.(store := t), Saved(t[g.id]))
  }

  /** The guarded transition into DEPLOYING, UPGRADING or ROLLING_BACK. */
  function Launch(cmd: Cmd, g: State, now: Time): Pc
    requires !cmd.Uninstall?
  {
    var op := StartOp(cmd, now);
    if Accepts(g, op) then SaveStarted(Step(g, op)) else Returned(Error)
  }

  function AfterHelm(cmd: Cmd, g: State, a: Answer): Pc
    requires !cmd.Uninstall? && !a.Hit?
  {
    if a.Fault? then SaveFailed(Step(g, MarkFailed(a.reason, a.at)))
    else
      var op := FinishOp(cmd, a.revision, a.at, a.later);
      if Accepts(g, op) then SaveDone(Step(g, op), a.revision) else Returned(Error)
  }

  function Advance(w: World, cmd: Cmd, pc: Pc, a: Answer): (r: (World, Pc))
    requires Possible(w, cmd, pc, a)
    ensures Fits(cmd, r.1)
  {
    match pc
    case EnsureNamespace(g) =>
      (Log(w, NamespaceEnsured(cmd.namespace, a.Ok?)), if a.Fault? then Returned(Error) else SaveInitial(g))
    case SaveInitial(g) => if a.Fault? then (w, Returned(Error)) else (Save(w, g), Launch(cmd, g, a.at))
    case Find => (w, if a.Fault? then Returned(Error) else Launch(cmd, Load(w.store[a.id]), a.at))
    case SaveStarted(g) => if a.Fault? then (w, Returned(Error)) else (Save(w, g), CallHelm(g))
    case CallHelm(g) => (Log(w, HelmCall(g.id, RequestOf(cmd), a.Ok?)), AfterHelm(cmd, g, a))
    case SaveFailed(g) => (if a.Fault? then w else Save(w, g), PublishFailed(g))
    case PublishFailed(g) => (if a.Fault? then w else Log(w, Published(g.events)), Returned(Error))
    case SaveDone(g, rev) => if a.Fault? then (w, Returned(Error)) else (Save(w, g), PublishDone(g, rev))
    case PublishDone(g, rev) => (if a.Fault? then w else Log(w, Published(g.events)), Returned(Success(g.id, rev)))
    case UninstallHelm =>
      (Log(w, HelmUninstalled(cmd.name, cmd.namespace, cmd.dryRun, a.Ok?)),
       if a.Fault? then Returned(Error) else UninstallFind)
    case UninstallFind => (w, if a.Fault? then Returned(Removed) else UninstallDelete(a.id))
    case UninstallDelete(id) =>
      (if a.Fault? then w else Log(w.(store := w.store - {id}), Deleted(id)), Returned(Removed))
  }

  // ---- all calls ----

  datatype Call = Call(cmd: Cmd, pc: Pc)

  datatype Sys = Sys(w: World, live: map<nat, Call>)

  datatype Act =
    | Spawn(tid: nat, cmd: Cmd, semver: bool, id: ID, now: Time)
    | Port(tid: nat, a: Answer)
    | Crash

  const INITIAL: Sys := Sys(World(map[], {}, []), map[])

  /** Only an install draws a new id. */
  function Opened(w: World, cmd: Cmd, id: ID): World {
    if cmd.Install? then w.(used := w.used + {id}) else w
  }

  predicate Allowed(s: Sys, act: Act) {
    match act
    case Spawn(tid, cmd, _, id, _) => tid !in s.live && (cmd.Install? ==> id !in s.w.used)
    case Port(tid, a) => tid in s.live && Possible(s.w, s.live[tid].cmd, s.live[tid].pc, a)
    case Crash => true
  }

  function Next(s: Sys, act: Act): Sys
    requires Allowed(s, act)
  {
    match act
    case Spawn(tid, cmd, semver, id, now) =>
      Sys(Opened(s.w, cmd, id), s.live[tid := Call(cmd, Begin(cmd, semver, id, now))])
    case Port(tid, a) =>
      var c := s.live[tid];
      var (w, pc) := Advance(s.w, c.cmd, c.pc, a);
      Sys(w, s.live[tid := Call(c.cmd, pc)])
    case Crash => s.(live := map[])
  }

  /** The state a sequence of moves leads to, if every one of them was allowed. */
  function After(s: Sys, acts: seq<Act>): Option<Sys> {
    if acts == [] then Some(s)
    else
      var m := After(s, acts[..|acts| - 1]);
      if m.Some? && Allowed(m.value, acts[|acts| - 1]) then Some(Next(m.value, acts[|acts| - 1])) else None
  }

  /** Some interleaving of calls, faults and crashes leads from `s` to `t`. */
  predicate Reaches(s: Sys, acts: seq<Act>, t: Sys) {
    After(s, acts) == Some(t)
  }

  lemma AfterSnoc(s: Sys, acts: seq<Act>, act: Act)
    requires After(s, acts).Some? && Allowed(After(s, acts).value, act)
    ensures After(s, acts + [act]) == Some(Next(After(s, acts).value, act))
  {
    assert (acts + [act])[..|acts|] == acts;
  }

  lemma {:induction false} AfterAppend(s: Sys, a: seq<Act>, b: seq<Act>)
    ensures After(s, a + b) == if After(s, a).None? then None else After(After(s, a).value, b)
    decreases |b|
  {
    if b == [] {
      assert a + b == a;
    } else {
      AfterAppend(s, a, b[..|b| - 1]);
      assert (a + b)[..|a + b| - 1] == a + b[..|b| - 1];
    }
  }

  // ---- reading the log ----

  /** Helm installs and upgrades that returned success for a deployment. */
  function HelmWins(log: seq<Effect>, id: ID): nat {
    if log == [] then 0
    else
      var e := log[|log| - 1];
      HelmWins(log[..|log| - 1], id) + if e.HelmCall? && e.id == id && e.ok && !e.request.RollbackRequest? then 1 else 0
  }

  function HelmCalls(log: seq<Effect>, id: ID): nat {
    if log == [] then 0
    else
      var e := log[|log| - 1];
      HelmCalls(log[..|log| - 1], id) + if e.HelmCall? && e.id == id then 1 else 0
  }

  function Only(es: seq<Event>, id: ID): seq<Event> {
    if es == [] then []
    else if es[|es| - 1].id == id then Only(es[..|es| - 1], id) + [es[|es| - 1]]
    else Only(es[..|es| - 1], id)
  }

  /** Everything published about a deployment, in order. */
  function EventsFor(log: seq<Effect>, id: ID): seq<Event> {
    if log == [] then []
    else
      var e := log[|log| - 1];
      EventsFor(log[..|log| - 1], id) + if e.Published? then Only(e.events, id) else []
  }

  lemma LogSnoc(log: seq<Effect>, e: Effect, id: ID)
    ensures HelmWins(log + [e], id) ==
      HelmWins(log, id) + if e.HelmCall? && e.id == id && e.ok && !e.request.RollbackRequest? then 1 else 0
    ensures HelmCalls(log + [e], id) == HelmCalls(log, id) + if e.HelmCall? && e.id == id then 1 else 0
    ensures EventsFor(log + [e], id) == EventsFor(log, id) + if e.Published? then Only(e.events, id) else []
  {
    assert (log + [e])[..|log|] == log;
  }

  predicate AllFor(es: seq<Event>, id: ID) {
    forall i | 0 <= i < |es| :: es[i].id == id
  }

  lemma {:induction false} OnlySame(es: seq<Event>, id: ID, other: ID)
    requires AllFor(es, id)
    ensures Only(es, other) == if other == id then es else []
    decreases |es|
  {
    if es != [] { OnlySame(es[..|es| - 1], id, other); }
  }
}

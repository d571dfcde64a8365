// The four commands of internal/application/deployment/service.go, in the order and with the
// early returns of the source, against a store and an environment that decide what every port
// answers. Each command is proved to be a run of the port-call machine on exactly the answers its
// ports gave, to keep the service contract and to follow its story.
module DeploymentService {
  import opened Options
  import opened Deployments
  import opened Store
  import opened Machine
  import opened Interleaving
  import opened Ports
  import opened Sequential
  import opened Traces
  import FreshIDs

  // ---- what a call that returned did, read off the machine ----

  lemma AloneStep(w: World, cmd: Cmd, pc: Pc, a: Answer)
    requires Inv(Alone(w, cmd, pc)) && Possible(w, cmd, pc, a)
    ensures Inv(Alone(Advance(w, cmd, pc, a).0, cmd, Advance(w, cmd, pc, a).1))
  {
    PortOk(Alone(w, cmd, pc), Port(0, a));
    assert Next(Alone(w, cmd, pc), Port(0, a)).live == map[0 := Call(cmd, Advance(w, cmd, pc, a).1)];
  }

  lemma {:induction false} CallKeepsWorld(w: World, cmd: Cmd, pc: Pc, answers: seq<Answer>)
    requires Inv(Alone(w, cmd, pc)) && CallAfter(w, cmd, pc, answers).Some?
    ensures Inv(Alone(CallAfter(w, cmd, pc, answers).value.0, cmd, CallAfter(w, cmd, pc, answers).value.1))
    decreases |answers|
  {
    if answers != [] {
      var front, a := answers[..|answers| - 1], answers[|answers| - 1];
      CallKeepsWorld(w, cmd, pc, front);
      var m := CallAfter(w, cmd, pc, front).value;
      AloneStep(m.0, cmd, m.1, a);
    }
  }

  lemma ReturnedCall(w0: World, x: Session, w: World, reply: Reply)
    requires StoreOk(w0) && At(w0, x, w, Returned(reply))
    ensures Contract(w0, w, x.cmd, reply) && StoreOk(w)
  {
    var v, pc := Opened(w0, x.cmd, x.id), Begin(x.cmd, x.semver, x.id, x.now);
    CallStart(w0, x);
    CallInvHolds(w0, v, x.cmd, pc, x.answers);
    SpawnOk(Sys(w0, map[]), Spawn(0, x.cmd, x.semver, x.id, x.now));
    assert Next(Sys(w0, map[]), Spawn(0, x.cmd, x.semver, x.id, x.now)) == Alone(v, x.cmd, pc);
    CallKeepsWorld(v, x.cmd, pc, x.answers);
  }

  /** What every command promises of the world it found, its reply and the requests it put on record:
      it ran as the machine does, on the answers on record, kept the contract, followed its story, and
      saved a failure of Helm. */
  ghost predicate Promised(w0: World, x: Session, hs: seq<Heard>, w: World, reply: Reply) {
    && Follows(w0, x, hs, w, Returned(reply))
    && Contract(w0, w, x.cmd, reply) && Ending(x.cmd, w.log, |w0.log|, reply, x.answers)
    && FailureKept(hs, w.store) && (x.cmd.Uninstall? ==> UninstallKept(hs, w0.store, w.store)) && StoreOk(w)
  }

  lemma PromiseKept(w0: World, x: Session, hs: seq<Heard>, w: World, reply: Reply)
    requires StoreOk(w0) && Follows(w0, x, hs, w, Returned(reply))
    ensures Promised(w0, x, hs, w, reply)
  {
    ReturnedCall(w0, x, w, reply);
    CallsFollowTheirStory(w0, x);
    FailureIsKept(w0, x, hs, w, reply);
    if x.cmd.Uninstall? { UninstallIsKept(w0, x, hs, w, reply); }
  }

  class Service {
    const repo: Repository
    const env: Environment
    var used: set<ID>
    var asked: nat
    ghost var log: seq<Effect>
    ghost var heard: seq<Heard>

    ghost function World(): World
      reads this, repo
    {
      Machine.World.World(repo.table, used, log)
    }

    /** The record is true, and the world sound. */
    ghost predicate Valid()
      reads this, repo
    {
      Truthful(heard, repo.up, repo.asked, env, asked) && TableOk(repo.table)
    }

    /** Since position `from` of the record, session `x` begun in `w0` has come to wait on `pc`. */
    ghost predicate Since(w0: World, x: Session, from: nat, pc: Pc)
      reads this, repo
    {
      Valid() && from <= |heard| && Follows(w0, x, heard[from..], World(), pc)
    }

    constructor (repo: Repository, env: Environment)
      requires repo.table == map[] && repo.asked == 0
      ensures this.repo == repo && this.env == env && fresh(this)
      ensures World() == INITIAL.w && StoreOk(World()) && Valid() && heard == []
    {
      this.repo, this.env := repo, env;
      used, asked, log, heard := {}, 0, [], [];
    }

    // ---- ports: each puts on record what it was asked and what it answered ----

    method Clock() returns (now: Time)
    {
      now := *;
    }

    /** A deployment id never drawn before. */
    method NewID() returns (id: ID)
      requires Valid()
      modifies this`used
      ensures Valid()
      ensures id !in old(used) && World() == old(World()).(used := old(used) + {id})
    {
      ghost var n := FreshIDs.UnusedExists(used);
      assert n !in used;
      id :| id !in used;
      used := used + {id};
    }

    method EnsureNamespace(namespace: string) returns (ok: bool)
      requires Valid()
      modifies this`asked, this`log, this`heard
      ensures Valid() && heard == old(heard) + [AskedNamespace(namespace, ok)]
      ensures World() == Log(old(World()), NamespaceEnsured(namespace, ok))
    {
      ok := env.cluster(asked);
      RecordOutside(heard, AskedNamespace(namespace, ok), repo.up, repo.asked, env, asked);
      asked := asked + 1;
      log, heard := log + [NamespaceEnsured(namespace, ok)], heard + [AskedNamespace(namespace, ok)];
    }

    method CallHelm(id: ID, request: HelmRequest) returns (reply: HelmReply)
      requires Valid()
      modifies this`asked, this`log, this`heard
      ensures Valid() && heard == old(heard) + [AskedHelm(id, request, reply)]
      ensures World() == Log(old(World()), HelmCall(id, request, reply.HelmOk?))
    {
      reply := env.helm(asked);
      RecordOutside(heard, AskedHelm(id, request, reply), repo.up, repo.asked, env, asked);
      asked := asked + 1;
      log, heard := log + [HelmCall(id, request, reply.HelmOk?)], heard + [AskedHelm(id, request, reply)];
    }

    method UninstallRelease(name: string, namespace: string, dryRun: bool) returns (ok: bool)
      requires Valid()
      modifies this`asked, this`log, this`heard
      ensures Valid() && heard == old(heard) + [AskedUninstall(name, namespace, dryRun, ok)]
      ensures World() == Log(old(World()), HelmUninstalled(name, namespace, dryRun, ok))
    {
      ok := env.uninstaller(asked);
      RecordOutside(heard, AskedUninstall(name, namespace, dryRun, ok), repo.up, repo.asked, env, asked);
      asked := asked + 1;
      log := log + [HelmUninstalled(name, namespace, dryRun, ok)];
      heard := heard + [AskedUninstall(name, namespace, dryRun, ok)];
    }

    method Save(d: Deployment) returns (ok: bool)
      requires Valid()
      modifies repo, this`log, this`heard
      ensures Valid() && heard == old(heard) + [AskedSave(d.Snapshot(), ok)]
      ensures World() == if ok then Machine.Save(old(World()), d.Snapshot()) else old(World())
    {
      ghost var before := repo.asked;
      ok := repo.Save(d);
      RecordStore(heard, AskedSave(d.Snapshot(), ok), repo.up, before, env, asked);
      heard := heard + [AskedSave(d.Snapshot(), ok)];
      if ok {
        log := log + [Saved(repo.table[d.id])];
      }
    }

    method Find(name: string, namespace: string) returns (found: Search)
      requires Valid()
      modifies repo`asked, this`heard
      ensures Valid() && World() == old(World())
      ensures heard == old(heard) +
        [AskedFind(name, namespace, !found.SearchError?, if found.Found? then Some(found.d.id) else None)]
      ensures found.NotFound? ==> forall id | id in repo.table :: !Matches(repo.table[id], name, namespace)
      ensures found.Found? ==>
        && found.d.id in repo.table && Matches(repo.table[found.d.id], name, namespace)
        && fresh(found.d) && found.d.Snapshot() == Load(repo.table[found.d.id])
    {
      ghost var before := repo.asked;
      found := repo.FindByReleaseName(name, namespace);
      ghost var h := AskedFind(name, namespace, !found.SearchError?, if found.Found? then Some(found.d.id) else None);
      RecordStore(heard, h, repo.up, before, env, asked);
      heard := heard + [h];
    }

    method Delete(id: ID) returns (ok: bool)
      requires Valid()
      modifies repo, this`log, this`heard
      ensures Valid() && heard == old(heard) + [AskedDelete(id, ok)]
      ensures World() == if ok then Log(old(World()).(store := old(repo.table) - {id}), Deleted(id)) else old(World())
    {
      ghost var before := repo.asked;
      ok := repo.Delete(id);
      RecordStore(heard, AskedDelete(id, ok), repo.up, before, env, asked);
      heard := heard + [AskedDelete(id, ok)];
      if ok {
        log := log + [Deleted(id)];
      }
    }

    /** Drains the buffer whether or not the publisher takes it; an empty batch is not published. */
    method PublishEvents(d: Deployment) returns (ghost taken: bool)
      requires Valid()
      modifies d`events, this`asked, this`log, this`heard
      ensures Valid() && d.events == []
      ensures old(d.events) == [] ==> heard == old(heard) && World() == old(World())
      ensures old(d.events) != [] ==>
        && heard == old(heard) + [AskedPublish(old(d.events), taken)]
        && World() == if taken then Log(old(World()), Published(old(d.events))) else old(World())
    {
      var events := d.DrainEvents();
      if |events| > 0 {
        var ok := env.publisher(asked);
        RecordOutside(heard, AskedPublish(events, ok), repo.up, repo.asked, env, asked);
        asked := asked + 1;
        heard := heard + [AskedPublish(events, ok)];
        if ok {
          log := log + [Published(events)];
        }
        taken := ok;
      } else {
        taken := false;
      }
    }

    // ---- commands ----

    method InstallChart(cmd: Cmd, semver: bool) returns (reply: Reply, ghost x: Session)
      requires cmd.Install? && Valid() && StoreOk(World())
      modifies this, repo
      ensures Valid() && old(heard) <= heard && x.cmd == cmd && x.semver == semver
      ensures Promised(old(World()), x, heard[|old(heard)|..], World(), reply)
    {
      ghost var w0, from := World(), |heard|;
      var id := NewID();
      var now := Clock();
      var chart := Chart(cmd.chartName, cmd.repoURL, cmd.chartVersion, RepoSource);
      var created := Deployment.New(id, cmd.name, cmd.namespace, chart, cmd.values, semver, now);
      x := Session(cmd, semver, id, now, []);
      FollowsFromStart(w0, x);
      assert heard[from..] == [];
      if created.None? {
        reply := Error;
      } else if cmd.createNS || !cmd.dryRun {
        reply, x := EnsureAndSave(created.value, cmd, w0, x, from);
      } else {
        reply, x := SaveAndStart(created.value, cmd, w0, x, from);
      }
      PromiseKept(w0, x, heard[from..], World(), reply);
    }

    /** Install's namespace, before anything is saved. */
    method EnsureAndSave(agg: Deployment, cmd: Cmd, ghost w0: World, ghost x0: Session, ghost from: nat)
      returns (reply: Reply, ghost x: Session)
      requires cmd.Install? && x0.cmd == cmd && Since(w0, x0, from, Pc.EnsureNamespace(agg.Snapshot()))
      modifies this`log, this`asked, this`heard, repo, agg
      ensures x.cmd == cmd && x.semver == x0.semver && old(heard) <= heard && Since(w0, x, from, Returned(reply))
    {
      ghost var w1, record := World(), heard;
      var ready := EnsureNamespace(cmd.namespace);
      ToldNamespace(w0, x0, record, from, w1, agg.Snapshot(), ready);
      x := Answered(x0, Plain(ready));
      if !ready {
        return Error, x;
      }
      reply, x := SaveAndStart(agg, cmd, w0, x, from);
    }

    /** Install's first save and its transition to DEPLOYING. */
    method SaveAndStart(agg: Deployment, cmd: Cmd, ghost w0: World, ghost x0: Session, ghost from: nat)
      returns (reply: Reply, ghost x: Session)
      requires cmd.Install? && x0.cmd == cmd && Since(w0, x0, from, SaveInitial(agg.Snapshot()))
      modifies this`log, this`asked, this`heard, repo, agg
      ensures x.cmd == cmd && x.semver == x0.semver && old(heard) <= heard && Since(w0, x, from, Returned(reply))
    {
      ghost var w1, g, record := World(), agg.Snapshot(), heard;
      var saved := Save(agg);
      if !saved {
        Told(w0, x0, record, from, w1, SaveInitial(g), Answer.Fault("", 0), AskedSave(g, false));
        return Error, Answered(x0, Answer.Fault("", 0));
      }
      reply, x := StartAndSave(agg, cmd, w0, x0, from, w1, record);
    }

    method StartAndSave(agg: Deployment, cmd: Cmd, ghost w0: World, ghost x0: Session, ghost from: nat,
                        ghost w1: World, ghost record: seq<Heard>)
      returns (reply: Reply, ghost x: Session)
      requires cmd.Install? && x0.cmd == cmd && Valid()
      requires from <= |record| && Follows(w0, x0, record[from..], w1, SaveInitial(agg.Snapshot()))
      requires heard == record + [AskedSave(agg.Snapshot(), true)] && World() == Machine.Save(w1, agg.Snapshot())
      modifies this`log, this`asked, this`heard, repo, agg
      ensures x.cmd == cmd && x.semver == x0.semver && old(heard) <= heard && Since(w0, x, from, Returned(reply))
    {
      ghost var g := agg.Snapshot();
      var now := Clock();
      var moved := agg.StartDeployment(now);
      Told(w0, x0, record, from, w1, SaveInitial(g), Ok(0, now, 0), AskedSave(g, true));
      x := Answered(x0, Ok(0, now, 0));
      if !moved.Done? {
        return Error, x;
      }
      reply, x := SaveAndCallHelm(agg, cmd, w0, x, from);
    }

    method UpgradeChart(cmd: Cmd) returns (reply: Reply, ghost x: Session)
      requires cmd.Upgrade? && Valid() && StoreOk(World())
      modifies this, repo
      ensures Valid() && old(heard) <= heard && x.cmd == cmd
      ensures Promised(old(World()), x, heard[|old(heard)|..], World(), reply)
    {
      ghost var w0, from := World(), |heard|;
      x := Session(cmd, true, 0, 0, []);
      FollowsFromStart(w0, x);
      assert heard[from..] == [];
      reply, x := FindAndUpgrade(cmd, w0, x, from);
      PromiseKept(w0, x, heard[from..], World(), reply);
    }

    method FindAndUpgrade(cmd: Cmd, ghost w0: World, ghost x0: Session, ghost from: nat)
      returns (reply: Reply, ghost x: Session)
      requires cmd.Upgrade? && x0.cmd == cmd && Since(w0, x0, from, Pc.Find)
      modifies this`log, this`asked, this`heard, repo
      ensures x.cmd == cmd && old(heard) <= heard && Since(w0, x, from, Returned(reply))
    {
      ghost var w1, record := World(), heard;
      var found := Find(cmd.name, cmd.namespace);
      if !found.Found? {
        Told(w0, x0, record, from, w1, Pc.Find, Answer.Fault("", 0), heard[|heard| - 1]);
        return Error, Answered(x0, Answer.Fault("", 0));
      }
      reply, x := UpgradeFound(found.d, cmd, w0, x0, from, w1, record);
    }

    method UpgradeFound(agg: Deployment, cmd: Cmd, ghost w0: World, ghost x0: Session, ghost from: nat,
                        ghost w1: World, ghost record: seq<Heard>)
      returns (reply: Reply, ghost x: Session)
      requires cmd.Upgrade? && x0.cmd == cmd && Valid()
      requires from <= |record| && Follows(w0, x0, record[from..], w1, Pc.Find)
      requires heard == record + [AskedFind(cmd.name, cmd.namespace, true, Some(agg.id))] && World() == w1
      requires agg.id in repo.table && Matches(repo.table[agg.id], cmd.name, cmd.namespace)
      requires agg.Snapshot() == Load(repo.table[agg.id])
      modifies this`log, this`asked, this`heard, repo, agg
      ensures x.cmd == cmd && old(heard) <= heard && Since(w0, x, from, Returned(reply))
    {
      var now := Clock();
      Told(w0, x0, record, from, w1, Pc.Find, Hit(agg.id, now), heard[|heard| - 1]);
      x := Answered(x0, Hit(agg.id, now));
      reply := Error;
      var chart := Chart(cmd.chartName, cmd.repoURL, cmd.chartVersion, RepoSource);
      var moved := agg.StartUpgrade(chart, cmd.values, now);
      if moved.Done? {
        reply, x := SaveAndCallHelm(agg, cmd, w0, x, from);
      }
    }

    method RollbackChart(cmd: Cmd) returns (reply: Reply, ghost x: Session)
      requires cmd.Rollback? && Valid() && StoreOk(World())
      modifies this, repo
      ensures Valid() && old(heard) <= heard && x.cmd == cmd
      ensures Promised(old(World()), x, heard[|old(heard)|..], World(), reply)
    {
      ghost var w0, from := World(), |heard|;
      x := Session(cmd, true, 0, 0, []);
      FollowsFromStart(w0, x);
      assert heard[from..] == [];
      reply, x := FindAndRollback(cmd, w0, x, from);
      PromiseKept(w0, x, heard[from..], World(), reply);
    }

    method FindAndRollback(cmd: Cmd, ghost w0: World, ghost x0: Session, ghost from: nat)
      returns (reply: Reply, ghost x: Session)
      requires cmd.Rollback? && x0.cmd == cmd && Since(w0, x0, from, Pc.Find)
      modifies this`log, this`asked, this`heard, repo
      ensures x.cmd == cmd && old(heard) <= heard && Since(w0, x, from, Returned(reply))
    {
      ghost var w1, record := World(), heard;
      var found := Find(cmd.name, cmd.namespace);
      if !found.Found? {
        Told(w0, x0, record, from, w1, Pc.Find, Answer.Fault("", 0), heard[|heard| - 1]);
        return Error, Answered(x0, Answer.Fault("", 0));
      }
      reply, x := RollbackFound(found.d, cmd, w0, x0, from, w1, record);
    }

    method RollbackFound(agg: Deployment, cmd: Cmd, ghost w0: World, ghost x0: Session, ghost from: nat,
                        ghost w1: World, ghost record: seq<Heard>)
      returns (reply: Reply, ghost x: Session)
      requires cmd.Rollback? && x0.cmd == cmd && Valid()
      requires from <= |record| && Follows(w0, x0, record[from..], w1, Pc.Find)
      requires heard == record + [AskedFind(cmd.name, cmd.namespace, true, Some(agg.id))] && World() == w1
      requires agg.id in repo.table && Matches(repo.table[agg.id], cmd.name, cmd.namespace)
      requires agg.Snapshot() == Load(repo.table[agg.id])
      modifies this`log, this`asked, this`heard, repo, agg
      ensures x.cmd == cmd && old(heard) <= heard && Since(w0, x, from, Returned(reply))
    {
      var now := Clock();
      Told(w0, x0, record, from, w1, Pc.Find, Hit(agg.id, now), heard[|heard| - 1]);
      x := Answered(x0, Hit(agg.id, now));
      reply := Error;
      var moved := agg.StartRollback(cmd.toVersion, now);
      if moved.Done? {
        reply, x := SaveAndCallHelm(agg, cmd, w0, x, from);
      }
    }

    /** The part install, upgrade and rollback share: save the started aggregate before Helm is called. */
    method SaveAndCallHelm(agg: Deployment, cmd: Cmd, ghost w0: World, ghost x0: Session, ghost from: nat)
      returns (reply: Reply, ghost x: Session)
      requires !cmd.Uninstall? && x0.cmd == cmd && Since(w0, x0, from, Pc.SaveStarted(agg.Snapshot()))
      modifies this`log, this`asked, this`heard, repo, agg
      ensures x.cmd == cmd && x.semver == x0.semver && old(heard) <= heard && Since(w0, x, from, Returned(reply))
    {
      var saved;
      saved, x := SaveStarted(agg, cmd, w0, x0, from);
      if !saved {
        return Error, x;
      }
      reply, x := HelmAndMark(agg, cmd, w0, x, from);
    }

    method SaveStarted(agg: Deployment, cmd: Cmd, ghost w0: World, ghost x0: Session, ghost from: nat)
      returns (saved: bool, ghost x: Session)
      requires !cmd.Uninstall? && x0.cmd == cmd && Since(w0, x0, from, Pc.SaveStarted(agg.Snapshot()))
      modifies this`log, this`heard, repo
      ensures x.cmd == cmd && x.semver == x0.semver && old(heard) <= heard
      ensures Since(w0, x, from, if saved then Pc.CallHelm(agg.Snapshot()) else Returned(Error))
    {
      ghost var w1, g, record := World(), agg.Snapshot(), heard;
      saved := Save(agg);
      ToldStarted(w0, x0, record, from, w1, g, saved);
      x := Answered(x0, Plain(saved));
    }

    /** Call Helm and mark the result in the aggregate. */
    method HelmAndMark(agg: Deployment, cmd: Cmd, ghost w0: World, ghost x0: Session, ghost from: nat)
      returns (reply: Reply, ghost x: Session)
      requires !cmd.Uninstall? && x0.cmd == cmd && Since(w0, x0, from, Pc.CallHelm(agg.Snapshot()))
      modifies this`log, this`asked, this`heard, repo, agg
      ensures x.cmd == cmd && x.semver == x0.semver && old(heard) <= heard && Since(w0, x, from, Returned(reply))
    {
      ghost var w1, record := World(), heard;
      var request := Request(cmd);
      var r := CallHelm(agg.id, request);
      var at := Clock();
      if r.HelmError? {
        x := MarkAndGiveUp(agg, cmd, r.message, at, w0, x0, from, w1, record);
        return Error, x;
      }
      reply, x := MarkAndConclude(agg, cmd, r.revision, at, w0, x0, from, w1, record);
    }

    /** Helm failed: mark it in the aggregate. */
    method MarkAndGiveUp(agg: Deployment, cmd: Cmd, message: string, at: Time, ghost w0: World, ghost x0: Session,
                         ghost from: nat, ghost w1: World, ghost record: seq<Heard>)
      returns (ghost x: Session)
      requires !cmd.Uninstall? && x0.cmd == cmd && Valid() && from <= |record|
      requires Follows(w0, x0, record[from..], w1, Pc.CallHelm(agg.Snapshot()))
      requires heard == record + [AskedHelm(agg.id, RequestOf(cmd), HelmError(message))]
      requires World() == Log(w1, HelmCall(agg.id, RequestOf(cmd), false))
      modifies this`log, this`asked, this`heard, repo, agg
      ensures x.cmd == cmd && x.semver == x0.semver && old(heard) <= heard && Since(w0, x, from, Returned(Error))
    {
      ghost var a, h := Answer.Fault(message, at), heard[|heard| - 1];
      Told(w0, x0, record, from, w1, Pc.CallHelm(agg.Snapshot()), a, h);
      agg.MarkFailed(message, at);
      x := GiveUp(agg, w0, Answered(x0, a), from);
    }

    /** Helm returned a revision: mark it in the aggregate. */
    method MarkAndConclude(agg: Deployment, cmd: Cmd, revision: int, at: Time, ghost w0: World, ghost x0: Session,
                           ghost from: nat, ghost w1: World, ghost record: seq<Heard>)
      returns (reply: Reply, ghost x: Session)
      requires !cmd.Uninstall? && x0.cmd == cmd && Valid() && from <= |record|
      requires Follows(w0, x0, record[from..], w1, Pc.CallHelm(agg.Snapshot()))
      requires heard == record + [AskedHelm(agg.id, RequestOf(x0.cmd), HelmOk(revision))]
      requires World() == Log(w1, HelmCall(agg.id, RequestOf(x0.cmd), true))
      modifies this`log, this`asked, this`heard, repo, agg
      ensures x.cmd == x0.cmd && x.semver == x0.semver && old(heard) <= heard && Since(w0, x, from, Returned(reply))
    {
      var later := Clock();
      ghost var a, h := Ok(revision, at, later), heard[|heard| - 1];
      Told(w0, x0, record, from, w1, Pc.CallHelm(agg.Snapshot()), a, h);
      x := Answered(x0, a);
      if cmd.Rollback? {
        agg.MarkRolledBack(cmd.toVersion, at);
      } else {
        var marked := agg.MarkSucceeded(revision, at, later);
        if !marked.Done? {
          return Error, x;
        }
      }
      reply, x := Conclude(agg, revision, w0, x, from);
    }

    /** The request each command makes of Helm. */
    method Request(cmd: Cmd) returns (request: HelmRequest)
      requires !cmd.Uninstall?
      ensures request == RequestOf(cmd)
      ensures cmd.Install? <==> request.InstallRequest?
      ensures cmd.Upgrade? <==> request.UpgradeRequest?
      ensures cmd.Rollback? <==> request.RollbackRequest?
    {
      if cmd.Install? {
        request := InstallRequest(cmd.name, cmd.namespace, cmd.chartName, cmd.repoURL, cmd.chartVersion, cmd.values,
                                  cmd.createNS, cmd.dryRun);
      } else if cmd.Upgrade? {
        request := UpgradeRequest(cmd.name, cmd.namespace, cmd.chartName, cmd.repoURL, cmd.chartVersion, cmd.values,
                                  cmd.dryRun);
      } else {
        request := RollbackRequest(cmd.name, cmd.namespace, cmd.toVersion, cmd.dryRun);
      }
    }

    /** After a failed Helm call: save and publish, ignoring whether either works. */
    method GiveUp(agg: Deployment, ghost w0: World, ghost x0: Session, ghost from: nat) returns (ghost x: Session)
      requires Since(w0, x0, from, SaveFailed(agg.Snapshot())) && !x0.cmd.Uninstall? && agg.events != []
      modifies this`log, this`asked, this`heard, repo, agg
      ensures x.cmd == x0.cmd && x.semver == x0.semver && old(heard) <= heard && Since(w0, x, from, Returned(Error))
    {
      ghost var w1, g, record := World(), agg.Snapshot(), heard;
      var saved := Save(agg);
      ghost var a := Plain(saved);
      Told(w0, x0, record, from, w1, SaveFailed(g), a, AskedSave(g, saved));
      x := TellFailure(agg, w0, Answered(x0, a), from);
    }

    method TellFailure(agg: Deployment, ghost w0: World, ghost x0: Session, ghost from: nat)
      returns (ghost x: Session)
      requires Since(w0, x0, from, PublishFailed(agg.Snapshot())) && !x0.cmd.Uninstall? && agg.events != []
      modifies this`log, this`asked, this`heard, agg
      ensures x.cmd == x0.cmd && x.semver == x0.semver && old(heard) <= heard && Since(w0, x, from, Returned(Error))
    {
      ghost var w1, g, record := World(), agg.Snapshot(), heard;
      ghost var taken := PublishEvents(agg);
      ghost var a := Plain(taken);
      Told(w0, x0, record, from, w1, PublishFailed(g), a, AskedPublish(g.events, taken));
      x := Answered(x0, a);
    }

    /** After a successful Helm call: save, which may fail the command, then publish. */
    method Conclude(agg: Deployment, revision: int, ghost w0: World, ghost x0: Session, ghost from: nat)
      returns (reply: Reply, ghost x: Session)
      requires Since(w0, x0, from, SaveDone(agg.Snapshot(), revision)) && !x0.cmd.Uninstall? && agg.events != []
      modifies this`log, this`asked, this`heard, repo, agg
      ensures x.cmd == x0.cmd && x.semver == x0.semver && old(heard) <= heard && Since(w0, x, from, Returned(reply))
    {
      ghost var w1, g, record := World(), agg.Snapshot(), heard;
      var saved := Save(agg);
      ghost var a := Plain(saved);
      Told(w0, x0, record, from, w1, SaveDone(g, revision), a, AskedSave(g, saved));
      x := Answered(x0, a);
      if !saved {
        return Error, x;
      }
      reply, x := Announce(agg, revision, w0, x, from);
    }

    method Announce(agg: Deployment, revision: int, ghost w0: World, ghost x0: Session, ghost from: nat)
      returns (reply: Reply, ghost x: Session)
      requires Since(w0, x0, from, PublishDone(agg.Snapshot(), revision)) && !x0.cmd.Uninstall? && agg.events != []
      modifies this`log, this`asked, this`heard, agg
      ensures x.cmd == x0.cmd && x.semver == x0.semver && old(heard) <= heard && Since(w0, x, from, Returned(reply))
    {
      ghost var w1, g, record := World(), agg.Snapshot(), heard;
      ghost var taken := PublishEvents(agg);
      ghost var a := Plain(taken);
      Told(w0, x0, record, from, w1, PublishDone(g, revision), a, AskedPublish(g.events, taken));
      x := Answered(x0, a);
      reply := Success(agg.id, revision);
    }

    method UninstallChart(cmd: Cmd) returns (reply: Reply, ghost x: Session)
      requires cmd.Uninstall? && Valid() && StoreOk(World())
      modifies this, repo
      ensures Valid() && old(heard) <= heard && x.cmd == cmd
      ensures Promised(old(World()), x, heard[|old(heard)|..], World(), reply)
    {
      ghost var w0, from := World(), |heard|;
      x := Session(cmd, true, 0, 0, []);
      FollowsFromStart(w0, x);
      assert heard[from..] == [];
      reply, x := UninstallAndForget(cmd, w0, x, from);
      PromiseKept(w0, x, heard[from..], World(), reply);
    }

    method UninstallAndForget(cmd: Cmd, ghost w0: World, ghost x0: Session, ghost from: nat)
      returns (reply: Reply, ghost x: Session)
      requires cmd.Uninstall? && x0.cmd == cmd && Since(w0, x0, from, UninstallHelm)
      modifies this`log, this`asked, this`heard, repo
      ensures x.cmd == cmd && old(heard) <= heard && Since(w0, x, from, Returned(reply))
    {
      ghost var w1, record := World(), heard;
      var ok := UninstallRelease(cmd.name, cmd.namespace, cmd.dryRun);
      ToldUninstalled(w0, x0, record, from, w1, ok);
      if !ok {
        return Error, Answered(x0, Plain(false));
      }
      x := ForgetRow(cmd, w0, Answered(x0, Plain(true)), from);
      reply := Removed;
    }

    /** After Helm uninstalled the release: delete some row of that name, ignoring every failure. */
    method ForgetRow(cmd: Cmd, ghost w0: World, ghost x0: Session, ghost from: nat) returns (ghost x: Session)
      requires cmd.Uninstall? && x0.cmd == cmd && Since(w0, x0, from, UninstallFind)
      modifies this`log, this`heard, repo
      ensures x.cmd == cmd && old(heard) <= heard && Since(w0, x, from, Returned(Removed))
    {
      ghost var w1, record := World(), heard;
      var found := Find(cmd.name, cmd.namespace);
      ghost var h := heard[|heard| - 1];
      if !found.Found? {
        Told(w0, x0, record, from, w1, UninstallFind, Answer.Fault("", 0), h);
        return Answered(x0, Answer.Fault("", 0));
      }
      Told(w0, x0, record, from, w1, UninstallFind, Hit(found.d.id, 0), h);
      x := DeleteRow(found.d.id, cmd, w0, Answered(x0, Hit(found.d.id, 0)), from);
    }

    method DeleteRow(id: ID, cmd: Cmd, ghost w0: World, ghost x0: Session, ghost from: nat) returns (ghost x: Session)
      requires cmd.Uninstall? && x0.cmd == cmd && Since(w0, x0, from, UninstallDelete(id))
      modifies this`log, this`heard, repo
      ensures x.cmd == cmd && old(heard) <= heard && Since(w0, x, from, Returned(Removed))
    {
      ghost var w1, record := World(), heard;
      var deleted := Delete(id);
      ghost var a := Plain(deleted);
      Told(w0, x0, record, from, w1, UninstallDelete(id), a, AskedDelete(id, deleted));
      x := Answered(x0, a);
    }
  }
}

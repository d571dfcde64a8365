// What holds of every stored row and of the log, whatever calls are in flight and whatever fails.
module Interleaving {
  import opened Options
  import opened Deployments
  import opened AggregateRuns
  import opened Store
  import opened Machine

  function Agg(pc: Pc): Option<State> {
    match pc
    case EnsureNamespace(g) => Some(g)
    case SaveInitial(g) => Some(g)
    case SaveStarted(g) => Some(g)
    case CallHelm(g) => Some(g)
    case SaveFailed(g) => Some(g)
    case PublishFailed(g) => Some(g)
    case SaveDone(g, _) => Some(g)
    case PublishDone(g, _) => Some(g)
    case _ => None
  }

  /** The deployment is still known to this call alone. */
  predicate Unborn(pc: Pc) {
    pc.EnsureNamespace? || pc.SaveInitial?
  }

  function StartedStatus(cmd: Cmd): Status {
    match cmd
    case Install(_, _, _, _, _, _, _, _) => Deploying
    case Upgrade(_, _, _, _, _, _, _) => Upgrading
    case _ => RollingBack
  }

  function FinishedStatus(cmd: Cmd): Status {
    if cmd.Rollback? then RolledBack else Succeeded
  }

  /** The status a call's aggregate has while it waits on a port. */
  function StatusAt(cmd: Cmd, pc: Pc): Status {
    match pc
    case SaveStarted(_) | CallHelm(_) => StartedStatus(cmd)
    case SaveFailed(_) | PublishFailed(_) => Failed
    case SaveDone(_, _) | PublishDone(_, _) => FinishedStatus(cmd)
    case _ => Pending
  }

  ghost predicate RowOk(w: World, id: ID)
    requires id in w.store
  {
    var r := w.store[id];
    && id in w.used && WellNumbered(r.version, r.history) && StatusFitsHistory(r.status, r.history)
    && r.version - 1 <= HelmWins(w.log, id)
    && (r.status.Pending? ==> HelmCalls(w.log, id) == 0)
  }

  ghost predicate StoreOk(w: World) {
    && TableOk(w.store)
    && (forall id | id in w.store :: RowOk(w, id))
    && (forall id | id !in w.used :: HelmCalls(w.log, id) == 0 && EventsFor(w.log, id) == [])
  }

  lemma RowsAreUsed(w: World)
    requires StoreOk(w)
    ensures w.store.Keys <= w.used
  {
    forall id | id in w.store ensures id in w.used { assert RowOk(w, id); }
  }

  predicate RowNotPending(w: World, id: ID) {
    id in w.store ==> !w.store[id].status.Pending?
  }

  /** The aggregate a call holds. */
  ghost predicate AggOk(w: World, cmd: Cmd, pc: Pc, g: State) {
    && Lawful(g) && g.id in w.used && g.version - 1 <= HelmWins(w.log, g.id)
    && g.status == StatusAt(cmd, pc) && AllFor(g.events, g.id)
  }

  ghost predicate PcOk(w: World, cmd: Cmd, pc: Pc) {
    && Fits(cmd, pc)
    && (Agg(pc).Some? ==> AggOk(w, cmd, pc, Agg(pc).value))
    && (Unborn(pc) ==> pc.g.id !in w.store && HelmCalls(w.log, pc.g.id) == 0)
    && (pc.CallHelm? || (pc.SaveStarted? && !cmd.Install?) ==> RowNotPending(w, pc.g.id))
  }

  ghost predicate Apart(a: Pc, b: Pc) {
    Unborn(a) && Agg(b).Some? ==> Agg(b).value.id != a.g.id
  }

  ghost predicate Inv(s: Sys) {
    && StoreOk(s.w)
    && (forall t | t in s.live :: PcOk(s.w, s.live[t].cmd, s.live[t].pc))
    && (forall t, u | t in s.live && u in s.live && t != u :: Apart(s.live[t].pc, s.live[u].pc))
  }

  // ---- what a step does to the world, as others see it ----

  /** A step on behalf of deployment `x`: other rows and counts stay, counts never fall. */
  ghost predicate Nudge(w: World, v: World, x: ID) {
    && v.used == w.used
    && (forall id | id != x :: (id in v.store <==> id in w.store) && (id in w.store ==> v.store[id] == w.store[id]))
    && (forall id | id != x ::
          HelmCalls(v.log, id) == HelmCalls(w.log, id) && EventsFor(v.log, id) == EventsFor(w.log, id))
    && (forall id :: HelmWins(w.log, id) <= HelmWins(v.log, id))
  }

  lemma NudgeSame(w: World, x: ID)
    ensures Nudge(w, w, x)
  {}

  lemma NudgeLog(w: World, e: Effect, x: ID)
    requires e.HelmCall? ==> e.id == x
    requires e.Published? ==> AllFor(e.events, x)
    ensures Nudge(w, Log(w, e), x)
  {
    forall id
      ensures id != x ==>
        HelmCalls(w.log + [e], id) == HelmCalls(w.log, id) && EventsFor(w.log + [e], id) == EventsFor(w.log, id)
      ensures HelmWins(w.log, id) <= HelmWins(w.log + [e], id)
    {
      LogSnoc(w.log, e, id);
      if e.Published? { OnlySame(e.events, x, id); }
    }
  }

  lemma NudgeSave(w: World, g: State)
    ensures Nudge(w, Save(w, g), g.id)
    ensures forall id :: HelmWins(Save(w, g).log, id) == HelmWins(w.log, id)
    ensures forall id :: HelmCalls(Save(w, g).log, id) == HelmCalls(w.log, id)
  {
    var e := Saved(Upsert(w.store, g)[g.id]);
    NudgeLog(w, e, g.id);
    forall id
      ensures HelmWins(w.log + [e], id) == HelmWins(w.log, id)
      ensures HelmCalls(w.log + [e], id) == HelmCalls(w.log, id)
    {
      LogSnoc(w.log, e, id);
    }
  }

  /** Saving a lawful aggregate keeps the table lawful. */
  lemma SaveKeepsStore(w: World, g: State)
    requires StoreOk(w) && Lawful(g) && g.id in w.used && g.version - 1 <= HelmWins(w.log, g.id)
    requires g.status.Pending? ==> HelmCalls(w.log, g.id) == 0
    ensures StoreOk(Save(w, g))
  {
    var v := Save(w, g);
    NudgeSave(w, g);
    LoadAfterSave(w.store, g);
    forall id | id in v.store ensures RowOk(v, id) {
      if id != g.id { assert RowOk(w, id); }
    }
  }

  lemma LogKeepsStore(w: World, e: Effect, x: ID)
    requires StoreOk(w) && x in w.used
    requires e.HelmCall? ==> e.id == x && RowNotPending(w, x)
    requires e.Published? ==> AllFor(e.events, x)
    ensures StoreOk(Log(w, e))
  {
    NudgeLog(w, e, x);
    var v := Log(w, e);
    forall id | id in v.store ensures RowOk(v, id) {
      assert RowOk(w, id);
      LogSnoc(w.log, e, id);
    }
  }

  // ---- one step of one call ----

  /** What a step made for deployment `x` means to every other call. */
  ghost predicate Stepped(w: World, v: World, pc: Pc, qc: Pc, x: ID) {
    && Nudge(w, v, x)
    && (!Unborn(pc) && RowNotPending(w, x) ==> RowNotPending(v, x))
    && (Agg(pc).Some? ==> Agg(pc).value.id == x)
    && (Agg(qc).Some? ==> Agg(qc).value.id == x)
    && (Unborn(qc) ==> Unborn(pc))
    && (Agg(pc).None? ==>
      && v.store.Keys <= w.store.Keys && HelmCalls(v.log, x) == HelmCalls(w.log, x)
      && (Agg(qc).Some? ==> x in w.store))
  }

  lemma LaunchOk(w: World, cmd: Cmd, g: State, now: Time)
    requires Fits(cmd, SaveStarted(g)) && Lawful(g) && g.id in w.used && g.version - 1 <= HelmWins(w.log, g.id)
    requires AllFor(g.events, g.id)
    requires !cmd.Install? ==> g.id in w.store && w.store[g.id].status == g.status
    ensures PcOk(w, cmd, Launch(cmd, g, now))
    ensures Agg(Launch(cmd, g, now)).Some? ==> Agg(Launch(cmd, g, now)).value.id == g.id
    ensures !Unborn(Launch(cmd, g, now))
  {
    StepKeepsLaw(g, StartOp(cmd, now));
  }

  lemma SaveStep(w: World, cmd: Cmd, pc: Pc, g: State)
    requires StoreOk(w) && PcOk(w, cmd, pc) && Agg(pc) == Some(g)
    requires g.status.Pending? ==> Unborn(pc)
    ensures StoreOk(Save(w, g))
    ensures Nudge(w, Save(w, g), g.id) && (!g.status.Pending? ==> RowNotPending(Save(w, g), g.id))
    ensures g.id in Save(w, g).store && Save(w, g).store[g.id].status == g.status
  {
    SaveKeepsStore(w, g);
    NudgeSave(w, g);
  }

  lemma StepUnborn(w: World, cmd: Cmd, pc: Pc, a: Answer)
    requires StoreOk(w) && PcOk(w, cmd, pc) && Possible(w, cmd, pc, a) && Unborn(pc)
    ensures var (v, qc) := Advance(w, cmd, pc, a);
      StoreOk(v) && PcOk(v, cmd, qc) && Stepped(w, v, pc, qc, pc.g.id)
  {
    NudgeSame(w, pc.g.id);
    if pc.EnsureNamespace? {
      LogOk(w, NamespaceEnsured(cmd.namespace, a.Ok?), pc.g.id);
    } else if !a.Fault? {
      SaveStep(w, cmd, pc, pc.g);
      NudgeSave(w, pc.g);
      LaunchOk(Save(w, pc.g), cmd, pc.g, a.at);
    }
  }

  lemma StepFind(w: World, cmd: Cmd, pc: Pc, a: Answer) returns (x: ID)
    requires StoreOk(w) && PcOk(w, cmd, pc) && Possible(w, cmd, pc, a) && Agg(pc).None?
    ensures var (v, qc) := Advance(w, cmd, pc, a);
      StoreOk(v) && PcOk(v, cmd, qc) && Stepped(w, v, pc, qc, x)
  {
    x := if a.Hit? then a.id else if pc.UninstallDelete? then pc.id else 0;
    NudgeSame(w, x);
    match pc
    case Find =>
      if a.Hit? {
        assert RowOk(w, a.id);
        LaunchOk(w, cmd, Load(w.store[a.id]), a.at);
      }
    case UninstallHelm =>
      var e := HelmUninstalled(cmd.name, cmd.namespace, cmd.dryRun, a.Ok?);
      LogOk(w, e, x);
    case UninstallFind =>
    case UninstallDelete(id) =>
      if a.Ok? {
        var u := w.(store := w.store - {id});
        forall i | i in u.store ensures RowOk(u, i) { assert RowOk(w, i); }
        LogOk(u, Deleted(id), x);
      }
  }

  /** An effect other than a Helm call or a publication. */
  lemma LogOk(w: World, e: Effect, x: ID)
    requires StoreOk(w) && !e.HelmCall? && !e.Published?
    ensures StoreOk(Log(w, e)) && Nudge(w, Log(w, e), x) && HelmCalls(Log(w, e).log, x) == HelmCalls(w.log, x)
  {
    NudgeLog(w, e, x);
    LogSnoc(w.log, e, x);
    var v := Log(w, e);
    forall id | id in v.store ensures RowOk(v, id) {
      assert RowOk(w, id);
      LogSnoc(w.log, e, id);
    }
  }

  /** The aggregate after Helm answered, in a world where that answer is logged. */
  lemma HelmMarked(w: World, v: World, cmd: Cmd, g: State, a: Answer)
    requires AggOk(w, cmd, CallHelm(g), g) && !cmd.Uninstall? && !a.Hit?
    requires v.used == w.used
    requires HelmWins(v.log, g.id) == HelmWins(w.log, g.id) + if a.Ok? && !cmd.Rollback? then 1 else 0
    ensures !AfterHelm(cmd, g, a).Returned? && AfterHelm(cmd, g, a).g.id == g.id
    ensures PcOk(v, cmd, AfterHelm(cmd, g, a))
  {
    var op := if a.Fault? then MarkFailed(a.reason, a.at) else FinishOp(cmd, a.revision, a.at, a.later);
    StepKeepsLaw(g, op);
    assert Step(g, op).events == g.events + EventsOf(g, op);
  }

  lemma StepHelm(w: World, cmd: Cmd, pc: Pc, a: Answer)
    requires StoreOk(w) && PcOk(w, cmd, pc) && Possible(w, cmd, pc, a) && pc.CallHelm?
    ensures var (v, qc) := Advance(w, cmd, pc, a);
      StoreOk(v) && PcOk(v, cmd, qc) && Stepped(w, v, pc, qc, pc.g.id) && !qc.Returned?
  {
    var g, e := pc.g, HelmCall(pc.g.id, RequestOf(cmd), a.Ok?);
    var v := Log(w, e);
    LogKeepsStore(w, e, g.id);
    assert Nudge(w, v, g.id) by { NudgeLog(w, e, g.id); }
    LogSnoc(w.log, e, g.id);
    HelmMarked(w, v, cmd, g, a);
  }

  lemma StepPublish(w: World, cmd: Cmd, pc: Pc, a: Answer)
    requires StoreOk(w) && PcOk(w, cmd, pc) && Possible(w, cmd, pc, a) && (pc.PublishFailed? || pc.PublishDone?)
    ensures var (v, qc) := Advance(w, cmd, pc, a);
      StoreOk(v) && PcOk(v, cmd, qc) && Stepped(w, v, pc, qc, pc.g.id)
  {
    var g, v := pc.g, Advance(w, cmd, pc, a).0;
    assert g.id in w.used && AllFor(g.events, g.id);
    if a.Ok? {
      PublishedOk(w, g.events, g.id);
    } else {
      NudgeSame(w, g.id);
    }
    assert StoreOk(v) && Nudge(w, v, g.id) && v.store == w.store;
  }

  lemma PublishedOk(w: World, es: seq<Event>, x: ID)
    requires StoreOk(w) && x in w.used && AllFor(es, x)
    ensures StoreOk(Log(w, Published(es))) && Nudge(w, Log(w, Published(es)), x)
  {
    LogKeepsStore(w, Published(es), x);
    NudgeLog(w, Published(es), x);
  }

  /** After a save the call waits on the next port with the same aggregate. */
  lemma SavedPcOk(w: World, v: World, cmd: Cmd, pc: Pc, a: Answer)
    requires PcOk(w, cmd, pc) && Possible(w, cmd, pc, a)
    requires pc.SaveStarted? || pc.SaveFailed? || pc.SaveDone?
    requires Nudge(w, v, pc.g.id)
    requires a.Ok? ==> RowNotPending(v, pc.g.id)
    ensures PcOk(v, cmd, Advance(w, cmd, pc, a).1)
  {
    assert HelmWins(w.log, pc.g.id) <= HelmWins(v.log, pc.g.id);
  }

  lemma StepSave(w: World, cmd: Cmd, pc: Pc, a: Answer)
    requires StoreOk(w) && PcOk(w, cmd, pc) && Possible(w, cmd, pc, a)
    requires pc.SaveStarted? || pc.SaveFailed? || pc.SaveDone?
    ensures var (v, qc) := Advance(w, cmd, pc, a);
      StoreOk(v) && PcOk(v, cmd, qc) && Stepped(w, v, pc, qc, pc.g.id)
  {
    if a.Ok? {
      var v := Save(w, pc.g);
      SaveStep(w, cmd, pc, pc.g);
      SavedPcOk(w, v, cmd, pc, a);
    } else {
      NudgeSame(w, pc.g.id);
      SavedPcOk(w, w, cmd, pc, a);
    }
  }

  lemma StepOk(w: World, cmd: Cmd, pc: Pc, a: Answer) returns (x: ID)
    requires StoreOk(w) && PcOk(w, cmd, pc) && Possible(w, cmd, pc, a)
    ensures var (v, qc) := Advance(w, cmd, pc, a);
      StoreOk(v) && PcOk(v, cmd, qc) && Stepped(w, v, pc, qc, x)
  {
    if Agg(pc).None? {
      x := StepFind(w, cmd, pc, a);
    } else {
      x := pc.g.id;
      if Unborn(pc) { StepUnborn(w, cmd, pc, a); }
      else if pc.CallHelm? { StepHelm(w, cmd, pc, a); }
      else if pc.PublishFailed? || pc.PublishDone? { StepPublish(w, cmd, pc, a); }
      else { StepSave(w, cmd, pc, a); }
    }
  }

  /** A step of one call leaves every other call as sound as it was. */
  lemma OtherStaysOk(w: World, v: World, pc: Pc, qc: Pc, x: ID, cmd: Cmd, oc: Pc)
    requires StoreOk(w) && PcOk(w, cmd, oc) && Stepped(w, v, pc, qc, x)
    requires Apart(pc, oc) && Apart(oc, pc)
    ensures PcOk(v, cmd, oc) && Apart(qc, oc) && Apart(oc, qc)
  {
    if Agg(oc).Some? {
      assert HelmWins(w.log, oc.g.id) <= HelmWins(v.log, oc.g.id);
    }
  }

  lemma OpenedOk(w: World, cmd: Cmd, id: ID)
    requires StoreOk(w)
    ensures StoreOk(Opened(w, cmd, id))
  {
    var v := Opened(w, cmd, id);
    forall i | i in v.store ensures RowOk(v, i) { assert RowOk(w, i); }
  }

  lemma BeginOk(w: World, cmd: Cmd, semver: bool, id: ID, now: Time)
    requires StoreOk(w) && (cmd.Install? ==> id !in w.used)
    ensures PcOk(Opened(w, cmd, id), cmd, Begin(cmd, semver, id, now))
    ensures Agg(Begin(cmd, semver, id, now)).Some? ==> cmd.Install? && Agg(Begin(cmd, semver, id, now)).value.id == id
  {
    if id in w.store { assert RowOk(w, id); }
  }

  lemma OpenedPcOk(w: World, cmd: Cmd, id: ID, oc: Cmd, pc: Pc)
    requires PcOk(w, oc, pc)
    ensures PcOk(Opened(w, cmd, id), oc, pc)
  {}

  lemma SpawnOk(s: Sys, act: Act)
    requires Inv(s) && act.Spawn? && Allowed(s, act)
    ensures Inv(Next(s, act))
  {
    var t := Next(s, act);
    OpenedOk(s.w, act.cmd, act.id);
    BeginOk(s.w, act.cmd, act.semver, act.id, act.now);
    forall u | u in t.live
      ensures PcOk(t.w, t.live[u].cmd, t.live[u].pc)
      ensures u != act.tid ==> Agg(t.live[u].pc).Some? ==> Agg(t.live[u].pc).value.id in s.w.used
    {
      if u != act.tid { OpenedPcOk(s.w, act.cmd, act.id, s.live[u].cmd, s.live[u].pc); }
    }
  }

  lemma PortOk(s: Sys, act: Act)
    requires Inv(s) && act.Port? && Allowed(s, act)
    ensures Inv(Next(s, act))
  {
    var t, c := Next(s, act), s.live[act.tid];
    var (v, qc) := Advance(s.w, c.cmd, c.pc, act.a);
    var x := StepOk(s.w, c.cmd, c.pc, act.a);
    forall u | u in t.live
      ensures PcOk(v, t.live[u].cmd, t.live[u].pc)
      ensures u != act.tid ==> Apart(qc, t.live[u].pc) && Apart(t.live[u].pc, qc)
    {
      if u != act.tid {
        OtherStaysOk(s.w, v, c.pc, qc, x, s.live[u].cmd, s.live[u].pc);
      }
    }
  }

  lemma {:induction false} InvKept(s0: Sys, acts: seq<Act>, s: Sys)
    requires Inv(s0) && Reaches(s0, acts, s)
    ensures Inv(s)
    decreases |acts|
  {
    if acts != [] {
      var act := acts[|acts| - 1];
      var m := After(s0, acts[..|acts| - 1]).value;
      InvKept(s0, acts[..|acts| - 1], m);
      match act
      case Spawn(_, _, _, _, _) => SpawnOk(m, act);
      case Port(_, _) => PortOk(m, act);
      case Crash =>
    }
  }

  /** The invariant of every reachable state. */
  lemma InvReachable(acts: seq<Act>, s: Sys)
    requires Reaches(INITIAL, acts, s)
    ensures Inv(s)
  {
    InvKept(INITIAL, acts, s);
  }

  // ---- the results, for every interleaving, fault and crash ----

  /** Every stored row is numbered consistently, and its status fits its history. */
  lemma StoredRowsAreLawful(acts: seq<Act>, s: Sys, id: ID)
    requires Reaches(INITIAL, acts, s) && id in s.w.store
    ensures var r := s.w.store[id];
      && r.version == |r.history| + 1
      && (forall i | 0 <= i < |r.history| :: r.history[i].version == i + 1)
      && (r.status in {Pending, Deploying} ==> r.history == [])
      && (r.status in {Upgrading, Succeeded} ==> r.history != [])
      && r.status !in {Planning, Validating, Uninstalled}
  {
    InvReachable(acts, s);
    assert RowOk(s.w, id);
  }

  /** No row counts more versions than Helm granted, even where stale saves lost updates. */
  lemma VersionsNeedHelm(acts: seq<Act>, s: Sys, id: ID)
    requires Reaches(INITIAL, acts, s) && id in s.w.store
    ensures s.w.store[id].version - 1 <= HelmWins(s.w.log, id)
  {
    InvReachable(acts, s);
    assert RowOk(s.w, id);
  }

  /** A row still PENDING never had a Helm call made for it. */
  lemma PendingMeansUntouched(acts: seq<Act>, s: Sys, id: ID)
    requires Reaches(INITIAL, acts, s) && id in s.w.store && s.w.store[id].status.Pending?
    ensures HelmCalls(s.w.log, id) == 0
  {
    InvReachable(acts, s);
    assert RowOk(s.w, id);
  }

  /** The guard after Helm never refuses: a successful Helm call is always recorded in the aggregate. */
  lemma HelmSuccessIsAlwaysMarked(acts: seq<Act>, s: Sys, tid: nat, a: Answer)
    requires Reaches(INITIAL, acts, s) && tid in s.live && s.live[tid].pc.CallHelm?
    requires a.Ok? && Possible(s.w, s.live[tid].cmd, s.live[tid].pc, a)
    ensures Advance(s.w, s.live[tid].cmd, s.live[tid].pc, a).1.SaveDone?
  {
    InvReachable(acts, s);
    StepHelm(s.w, s.live[tid].cmd, s.live[tid].pc, a);
  }
}

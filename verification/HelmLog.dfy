// The Helm calls of a run, read off its log: which operation was asked for, and what had been stored
// by then.
module HelmLog {
  import opened Options
  import opened Deployments
  import opened Store
  import opened Machine
  import opened Interleaving
  import opened Mirroring
  import opened Overlap

  /** The row of a deployment as it was last saved. */
  function LastSaved(log: seq<Effect>, id: ID): Option<Row> {
    if log == [] then None
    else
      var e := log[|log| - 1];
      if e.Saved? && e.row.id == id then Some(e.row) else LastSaved(log[..|log| - 1], id)
  }

  /** How often Helm was asked to install for a deployment. */
  function InstallCalls(log: seq<Effect>, id: ID): nat {
    if log == [] then 0
    else
      var e := log[|log| - 1];
      InstallCalls(log[..|log| - 1], id) + if e.HelmCall? && e.id == id && e.request.InstallRequest? then 1 else 0
  }

  predicate SavedAs(log: seq<Effect>, id: ID, st: Status) {
    exists j | 0 <= j < |log| :: log[j].Saved? && log[j].row.id == id && log[j].row.status == st
  }

  lemma ReadSnoc(log: seq<Effect>, e: Effect, id: ID)
    ensures LastSaved(log + [e], id) == if e.Saved? && e.row.id == id then Some(e.row) else LastSaved(log, id)
    ensures InstallCalls(log + [e], id) ==
      InstallCalls(log, id) + if e.HelmCall? && e.id == id && e.request.InstallRequest? then 1 else 0
  {
    assert (log + [e])[..|log|] == log;
  }

  lemma SavedAsGrows(log: seq<Effect>, longer: seq<Effect>, id: ID, st: Status)
    requires SavedAs(log, id, st) && log <= longer
    ensures SavedAs(longer, id, st)
  {
    var j :| 0 <= j < |log| && log[j].Saved? && log[j].row.id == id && log[j].row.status == st;
    assert longer[j] == log[j];
  }

  /** A step logs at most one effect: a Helm call, or something else. */
  lemma StepLogged(w: World, cmd: Cmd, pc: Pc, a: Answer)
    requires Possible(w, cmd, pc, a)
    ensures var v := Advance(w, cmd, pc, a).0;
      && w.log <= v.log && |v.log| <= |w.log| + 1
      && (|v.log| > |w.log| ==> (v.log[|w.log|].HelmCall? <==> pc.CallHelm?))
      && (pc.CallHelm? ==> v.log == w.log + [HelmCall(pc.g.id, RequestOf(cmd), a.Ok?)])
  {}

  // ---- every deployment is installed at most once ----

  /** An install that may still call Helm. */
  predicate MayInstall(c: Call) {
    c.cmd.Install? && (Unborn(c.pc) || c.pc.SaveStarted? || c.pc.CallHelm?)
  }

  ghost predicate InstallsOnce(s: Sys) {
    && (forall id :: InstallCalls(s.w.log, id) <= if id in s.w.used then 1 else 0)
    && (forall t | t in s.live && MayInstall(s.live[t]) :: InstallCalls(s.w.log, s.live[t].pc.g.id) == 0)
    && (forall t, u | t in s.live && u in s.live && t != u && MayInstall(s.live[t]) && MayInstall(s.live[u]) ::
          s.live[t].pc.g.id != s.live[u].pc.g.id)
  }

  lemma InstallsStep(w: World, cmd: Cmd, pc: Pc, a: Answer, id: ID)
    requires Fits(cmd, pc) && Possible(w, cmd, pc, a)
    ensures var (v, qc) := Advance(w, cmd, pc, a);
      && v.used == w.used
      && InstallCalls(v.log, id) ==
        InstallCalls(w.log, id) + (if pc.CallHelm? && cmd.Install? && id == pc.g.id then 1 else 0)
      && (MayInstall(Call(cmd, qc)) ==>
        MayInstall(Call(cmd, pc)) && !pc.CallHelm? && qc.g.id == pc.g.id)
  {
    var v := Advance(w, cmd, pc, a).0;
    if v.log != w.log {
      assert v.log == w.log + [v.log[|w.log|]];
      ReadSnoc(w.log, v.log[|w.log|], id);
    }
  }

  lemma InstallsPort(s: Sys, act: Act)
    requires Inv(s) && InstallsOnce(s) && act.Port? && Allowed(s, act)
    ensures InstallsOnce(Next(s, act))
  {
    var t, c := Next(s, act), s.live[act.tid];
    assert PcOk(s.w, c.cmd, c.pc);
    forall id
      ensures InstallCalls(t.w.log, id) ==
        InstallCalls(s.w.log, id) + (if c.pc.CallHelm? && c.cmd.Install? && id == c.pc.g.id then 1 else 0)
    {
      InstallsStep(s.w, c.cmd, c.pc, act.a, id);
    }
    InstallsStep(s.w, c.cmd, c.pc, act.a, 0);
  }

  lemma {:induction false} InstallsReachable(acts: seq<Act>, s: Sys)
    requires Reaches(INITIAL, acts, s)
    ensures InstallsOnce(s)
    decreases |acts|
  {
    if acts != [] {
      var front, act := acts[..|acts| - 1], acts[|acts| - 1];
      var m := After(INITIAL, front).value;
      InvReachable(front, m);
      InstallsReachable(front, m);
      match act
      case Spawn(_, _, _, _, _) =>
        forall t | t in m.live && MayInstall(m.live[t]) ensures m.live[t].pc.g.id in m.w.used {
          assert PcOk(m.w, m.live[t].cmd, m.live[t].pc);
        }
      case Port(_, _) => InstallsPort(m, act);
      case Crash =>
    }
  }

  // ---- every Helm call follows a save that says so ----

  /** The status under which each operation may be asked for. */
  predicate StatedBy(log: seq<Effect>, id: ID, request: HelmRequest) {
    match request
    case InstallRequest(_, _, _, _, _, _, _, _) => SavedAs(log, id, Deploying)
    case UpgradeRequest(_, _, _, _, _, _, _) => SavedAs(log, id, Upgrading)
    case RollbackRequest(_, _, _, _) => SavedAs(log, id, RollingBack)
  }

  ghost predicate Stated(s: Sys) {
    && (forall i | 0 <= i < |s.w.log| && s.w.log[i].HelmCall? ::
          StatedBy(s.w.log[..i], s.w.log[i].id, s.w.log[i].request))
    && (forall t | t in s.live && s.live[t].pc.CallHelm? ::
          !s.live[t].cmd.Uninstall? && StatedBy(s.w.log, s.live[t].pc.g.id, RequestOf(s.live[t].cmd)))
  }

  /** The call itself comes to Helm by such a save. */
  lemma StatedAtHelm(w: World, cmd: Cmd, pc: Pc, a: Answer)
    requires TableOk(w.store) && PcOk(w, cmd, pc) && Possible(w, cmd, pc, a)
    ensures var (v, qc) := Advance(w, cmd, pc, a);
      qc.CallHelm? ==> StatedBy(v.log, qc.g.id, RequestOf(cmd))
  {
    var (v, qc) := Advance(w, cmd, pc, a);
    if qc.CallHelm? {
      assert v.log[|w.log|] == Saved(Upsert(w.store, qc.g)[qc.g.id]);
    }
  }

  lemma StatedGrows(log: seq<Effect>, longer: seq<Effect>, id: ID, request: HelmRequest)
    requires StatedBy(log, id, request) && log <= longer
    ensures StatedBy(longer, id, request)
  {
    var st := if request.InstallRequest? then Deploying else if request.UpgradeRequest? then Upgrading else RollingBack;
    SavedAsGrows(log, longer, id, st);
  }

  lemma StatedPort(s: Sys, act: Act)
    requires Inv(s) && Stated(s) && act.Port? && Allowed(s, act)
    ensures Stated(Next(s, act))
  {
    var t, c := Next(s, act), s.live[act.tid];
    assert PcOk(s.w, c.cmd, c.pc);
    StepLogged(s.w, c.cmd, c.pc, act.a);
    StatedAtHelm(s.w, c.cmd, c.pc, act.a);
    forall i | 0 <= i < |t.w.log| && t.w.log[i].HelmCall?
      ensures StatedBy(t.w.log[..i], t.w.log[i].id, t.w.log[i].request)
    {
      if i < |s.w.log| {
        assert t.w.log[..i] == s.w.log[..i];
      } else {
        assert t.w.log[..i] == s.w.log;
      }
    }
    forall u | u in t.live && u != act.tid && t.live[u].pc.CallHelm?
      ensures !t.live[u].cmd.Uninstall? && StatedBy(t.w.log, t.live[u].pc.g.id, RequestOf(t.live[u].cmd))
    {
      StatedGrows(s.w.log, t.w.log, t.live[u].pc.g.id, RequestOf(t.live[u].cmd));
    }
  }

  lemma {:induction false} StatedReachable(acts: seq<Act>, s: Sys)
    requires Reaches(INITIAL, acts, s)
    ensures Inv(s) && Stated(s)
    decreases |acts|
  {
    InvReachable(acts, s);
    if acts != [] {
      var front, act := acts[..|acts| - 1], acts[|acts| - 1];
      var m := After(INITIAL, front).value;
      StatedReachable(front, m);
      if act.Port? { StatedPort(m, act); }
    }
  }

  // ---- and in serialised runs the row still says so ----

  /** The store is what was saved last. */
  ghost predicate StoreIsLogged(w: World) {
    forall id | id in w.store :: LastSaved(w.log, id) == Some(w.store[id])
  }

  lemma LoggedStep(w: World, cmd: Cmd, pc: Pc, a: Answer)
    requires StoreIsLogged(w) && TableOk(w.store) && Possible(w, cmd, pc, a)
    ensures StoreIsLogged(Advance(w, cmd, pc, a).0)
  {
    var v := Advance(w, cmd, pc, a).0;
    if v.log != w.log {
      assert v.log == w.log + [v.log[|w.log|]];
      forall id | id in v.store ensures LastSaved(v.log, id) == Some(v.store[id]) {
        ReadSnoc(w.log, v.log[|w.log|], id);
      }
    }
  }

  /** Until Helm is called, the aggregate carries what the command asks for. */
  predicate Carried(c: Call) {
    Unborn(c.pc) || c.pc.SaveStarted? || c.pc.CallHelm? ==>
      && c.pc.g.name == c.cmd.name && c.pc.g.namespace == c.cmd.namespace
      && (!c.cmd.Rollback? && !c.cmd.Uninstall? ==> AskedFor(c.pc.g.chart, c.cmd) && c.pc.g.values == c.cmd.values)
  }

  lemma CarriedStep(w: World, cmd: Cmd, pc: Pc, a: Answer)
    requires Carried(Call(cmd, pc)) && Possible(w, cmd, pc, a)
    ensures Carried(Call(cmd, Advance(w, cmd, pc, a).1))
  {}

  ghost predicate Tracked(s: Sys) {
    StoreIsLogged(s.w) && forall t | t in s.live :: Carried(s.live[t])
  }

  lemma {:induction false} TrackedReachable(acts: seq<Act>, s: Sys)
    requires Reaches(INITIAL, acts, s)
    ensures Inv(s) && Tracked(s)
    decreases |acts|
  {
    InvReachable(acts, s);
    if acts != [] {
      var front, act := acts[..|acts| - 1], acts[|acts| - 1];
      var m := After(INITIAL, front).value;
      TrackedReachable(front, m);
      if act.Port? {
        var c := m.live[act.tid];
        LoggedStep(m.w, c.cmd, c.pc, act.a);
        CarriedStep(m.w, c.cmd, c.pc, act.a);
      }
    }
  }

  /** What Helm is asked for is what the row says: the operation by its status, the release by its
      names, and for install and upgrade the version and values. */
  predicate RowSays(row: Row, id: ID, request: HelmRequest) {
    && row.id == id && row.name == request.name && row.namespace == request.namespace
    && (request.InstallRequest? <==> row.status == Deploying)
    && (request.UpgradeRequest? <==> row.status == Upgrading)
    && (request.RollbackRequest? <==> row.status == RollingBack)
    && (!request.RollbackRequest? ==> row.chart.version == request.version && row.values == request.values)
  }

  /** Log position `i` holds a Helm call for which the last saved row of its deployment says so. */
  predicate Backed(log: seq<Effect>, i: nat)
    requires i < |log| && log[i].HelmCall?
  {
    var r := LastSaved(log[..i], log[i].id);
    r.Some? && RowSays(r.value, log[i].id, log[i].request)
  }

  lemma BackedAtHelm(w: World, c: Call)
    requires StoreIsLogged(w) && TableOk(w.store) && Carried(c) && Sound(WriteAheadAim, w, c)
    requires Fits(c.cmd, c.pc) && c.pc.CallHelm?
    ensures LastSaved(w.log, c.pc.g.id).Some?
    ensures RowSays(LastSaved(w.log, c.pc.g.id).value, c.pc.g.id, RequestOf(c.cmd))
  {}

  lemma BackedPort(s: Sys, act: Act, from: nat)
    requires Inv(s) && Tracked(s) && Orderly(WriteAheadAim, s) && act.Port? && Allowed(s, act)
    requires forall i | from <= i < |s.w.log| && s.w.log[i].HelmCall? :: Backed(s.w.log, i)
    ensures var log := Next(s, act).w.log;
      forall i | from <= i < |log| && log[i].HelmCall? :: Backed(log, i)
  {
    var log, c := Next(s, act).w.log, s.live[act.tid];
    assert PcOk(s.w, c.cmd, c.pc) && Sound(WriteAheadAim, s.w, c) && Carried(c);
    StepLogged(s.w, c.cmd, c.pc, act.a);
    forall i | from <= i < |log| && log[i].HelmCall? ensures Backed(log, i) {
      if i < |s.w.log| {
        assert log[..i] == s.w.log[..i] && Backed(s.w.log, i);
      } else {
        assert log[..i] == s.w.log;
        BackedAtHelm(s.w, c);
      }
    }
  }

  lemma {:induction false} BackedRun(past: seq<Act>, s0: Sys, acts: seq<Act>, s: Sys)
    requires Reaches(INITIAL, past, s0) && Quiet(s0) && Reaches(s0, acts, s) && Serialised(WriteAheadAim, s0, acts)
    ensures |s0.w.log| <= |s.w.log|
    ensures forall i | |s0.w.log| <= i < |s.w.log| && s.w.log[i].HelmCall? :: Backed(s.w.log, i)
    decreases |acts|
  {
    if acts != [] {
      var front, act := acts[..|acts| - 1], acts[|acts| - 1];
      var m := After(s0, front).value;
      BackedRun(past, s0, front, m);
      if act.Port? {
        OrderlyReached(WriteAheadAim, past, s0, front, m);
        AfterAppend(INITIAL, past, front);
        TrackedReachable(past + front, m);
        StepLogged(m.w, m.live[act.tid].cmd, m.live[act.tid].pc, act.a);
        BackedPort(m, act, |s0.w.log|);
      }
    }
  }

  // ---- the results ----

  /** In every interleaving, Helm is asked to install at most once for a deployment. */
  lemma InstalledAtMostOnce(acts: seq<Act>, s: Sys, id: ID)
    requires Reaches(INITIAL, acts, s)
    ensures InstallCalls(s.w.log, id) <= 1
  {
    InstallsReachable(acts, s);
  }

  /** In every interleaving, Helm is asked to install, upgrade or roll back a deployment only after it
      was saved as DEPLOYING, UPGRADING or ROLLING_BACK respectively. */
  lemma HelmFollowsItsSave(acts: seq<Act>, s: Sys, i: nat)
    requires Reaches(INITIAL, acts, s) && i < |s.w.log| && s.w.log[i].HelmCall?
    ensures s.w.log[i].request.InstallRequest? ==> SavedAs(s.w.log[..i], s.w.log[i].id, Deploying)
    ensures s.w.log[i].request.UpgradeRequest? ==> SavedAs(s.w.log[..i], s.w.log[i].id, Upgrading)
    ensures s.w.log[i].request.RollbackRequest? ==> SavedAs(s.w.log[..i], s.w.log[i].id, RollingBack)
  {
    StatedReachable(acts, s);
    assert StatedBy(s.w.log[..i], s.w.log[i].id, s.w.log[i].request);
  }

  /** Write-ahead, read off the log: where no clashing calls overlap, the row of a deployment last saved
      before a Helm call is DEPLOYING exactly if Helm is asked to install, UPGRADING exactly if it is
      asked to upgrade and ROLLING_BACK exactly if it is asked to roll back, and it holds the release,
      version and values Helm is given. */
  lemma HelmMatchesItsRow(past: seq<Act>, s0: Sys, acts: seq<Act>, s: Sys, i: nat)
    requires Reaches(INITIAL, past, s0) && Quiet(s0) && Reaches(s0, acts, s) && Serialised(WriteAheadAim, s0, acts)
    requires |s0.w.log| <= i < |s.w.log| && s.w.log[i].HelmCall?
    ensures LastSaved(s.w.log[..i], s.w.log[i].id).Some?
    ensures RowSays(LastSaved(s.w.log[..i], s.w.log[i].id).value, s.w.log[i].id, s.w.log[i].request)
  {
    BackedRun(past, s0, acts, s);
    assert Backed(s.w.log, i);
  }
}

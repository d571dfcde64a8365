// Calls made one after the other, each cut short by a crash at any point or run to its reply.
module Sequential {
  import opened Options
  import opened Deployments
  import opened Store
  import opened Machine
  import opened Interleaving
  import opened Mirroring
  import opened Overlap

  /** One call and what its ports answered before it returned or the process crashed. */
  datatype Session = Session(cmd: Cmd, semver: bool, id: ID, now: Time, answers: seq<Answer>)

  function CallAfter(w: World, cmd: Cmd, pc: Pc, answers: seq<Answer>): Option<(World, Pc)> {
    if answers == [] then Some((w, pc))
    else
      var m := CallAfter(w, cmd, pc, answers[..|answers| - 1]);
      var a := answers[|answers| - 1];
      if m.Some? && Possible(m.value.0, cmd, m.value.1, a) then Some(Advance(m.value.0, cmd, m.value.1, a)) else None
  }

  lemma CallSnoc(w: World, cmd: Cmd, pc: Pc, answers: seq<Answer>, a: Answer)
    requires CallAfter(w, cmd, pc, answers).Some?
    requires Possible(CallAfter(w, cmd, pc, answers).value.0, cmd, CallAfter(w, cmd, pc, answers).value.1, a)
    ensures CallAfter(w, cmd, pc, answers + [a]) ==
      Some(Advance(CallAfter(w, cmd, pc, answers).value.0, cmd, CallAfter(w, cmd, pc, answers).value.1, a))
  {
    assert (answers + [a])[..|answers|] == answers;
  }

  lemma {:induction false} PrefixRuns(w: World, cmd: Cmd, pc: Pc, answers: seq<Answer>, k: nat)
    requires CallAfter(w, cmd, pc, answers).Some? && k < |answers|
    ensures var m := CallAfter(w, cmd, pc, answers[..k]);
      && m.Some? && Possible(m.value.0, cmd, m.value.1, answers[k])
      && CallAfter(w, cmd, pc, answers[..k + 1]) == Some(Advance(m.value.0, cmd, m.value.1, answers[k]))
    decreases |answers|
  {
    if k == |answers| - 1 {
      assert answers[..k + 1] == answers;
    } else {
      var front := answers[..|answers| - 1];
      PrefixRuns(w, cmd, pc, front, k);
      assert front[..k] == answers[..k] && front[..k + 1] == answers[..k + 1];
    }
  }

  predicate CanOpen(w: World, x: Session) {
    x.cmd.Install? ==> x.id !in w.used
  }

  function SessionAfter(w: World, x: Session): Option<(World, Pc)> {
    if !CanOpen(w, x) then None
    else CallAfter(Opened(w, x.cmd, x.id), x.cmd, Begin(x.cmd, x.semver, x.id, x.now), x.answers)
  }

  function HistoryAfter(w: World, xs: seq<Session>): Option<World> {
    if xs == [] then Some(w)
    else
      var m := HistoryAfter(w, xs[..|xs| - 1]);
      if m.None? then None
      else
        var r := SessionAfter(m.value, xs[|xs| - 1]);
        if r.None? then None else Some(r.value.0)
  }

  // ---- sequential runs are among the interleavings ----

  function Alone(w: World, cmd: Cmd, pc: Pc): Sys {
    Sys(w, map[0 := Call(cmd, pc)])
  }

  lemma AloneMoves(s: Sys, acts: seq<Act>, w: World, cmd: Cmd, pc: Pc, a: Answer)
    requires Reaches(s, acts, Alone(w, cmd, pc)) && Possible(w, cmd, pc, a)
    ensures Reaches(s, acts + [Port(0, a)], Alone(Advance(w, cmd, pc, a).0, cmd, Advance(w, cmd, pc, a).1))
  {
    AfterSnoc(s, acts, Port(0, a));
    assert Next(Alone(w, cmd, pc), Port(0, a)).live == map[0 := Call(cmd, Advance(w, cmd, pc, a).1)];
  }

  lemma SerialisedPort(aim: Aim, s: Sys, acts: seq<Act>, a: Answer)
    requires Serialised(aim, s, acts) && After(s, acts).Some?
    ensures Serialised(aim, s, acts + [Port(0, a)])
  {
    assert (acts + [Port(0, a)])[..|acts|] == acts;
  }

  lemma {:induction false} CallIsRun(aim: Aim, s: Sys, acts: seq<Act>, w: World, cmd: Cmd, pc: Pc, answers: seq<Answer>)
    returns (longer: seq<Act>)
    requires Reaches(s, acts, Alone(w, cmd, pc)) && CallAfter(w, cmd, pc, answers).Some? && Serialised(aim, s, acts)
    ensures var (v, qc) := CallAfter(w, cmd, pc, answers).value; Reaches(s, longer, Alone(v, cmd, qc))
    ensures Serialised(aim, s, longer)
    decreases |answers|
  {
    if answers == [] {
      longer := acts;
    } else {
      var front, a := answers[..|answers| - 1], answers[|answers| - 1];
      var m := CallAfter(w, cmd, pc, front).value;
      longer := CallIsRun(aim, s, acts, w, cmd, pc, front);
      AloneMoves(s, longer, m.0, cmd, m.1, a);
      SerialisedPort(aim, s, longer, a);
      longer := longer + [Port(0, a)];
    }
  }

  /** A session is a run from the world it found, in which nothing overlaps. */
  lemma SessionIsRun(aim: Aim, w0: World, x: Session) returns (acts: seq<Act>)
    requires SessionAfter(w0, x).Some?
    ensures var (w, pc) := SessionAfter(w0, x).value; Reaches(Sys(w0, map[]), acts, Alone(w, x.cmd, pc))
    ensures Serialised(aim, Sys(w0, map[]), acts)
  {
    var s0, spawn := Sys(w0, map[]), Spawn(0, x.cmd, x.semver, x.id, x.now);
    var none: seq<Act> := [];
    assert After(s0, none) == Some(s0) && Serialised(aim, s0, none) && !Meets(aim, s0, spawn);
    AfterSnoc(s0, none, spawn);
    assert (none + [spawn])[..0] == none && Serialised(aim, s0, none + [spawn]);
    var v, pc := Opened(w0, x.cmd, x.id), Begin(x.cmd, x.semver, x.id, x.now);
    assert Next(s0, spawn) == Alone(v, x.cmd, pc);
    acts := CallIsRun(aim, s0, none + [spawn], v, x.cmd, pc, x.answers);
  }

  /** Every sequential history is an interleaved run, so all of its results hold here too. */
  lemma {:induction false} SequentialIsInterleaved(xs: seq<Session>) returns (acts: seq<Act>)
    requires HistoryAfter(INITIAL.w, xs).Some?
    ensures Reaches(INITIAL, acts, Sys(HistoryAfter(INITIAL.w, xs).value, map[]))
    decreases |xs|
  {
    if xs == [] {
      acts := [];
    } else {
      var x, m := xs[|xs| - 1], HistoryAfter(INITIAL.w, xs[..|xs| - 1]).value;
      var front := SequentialIsInterleaved(xs[..|xs| - 1]);
      var session := SessionIsRun(WriteAheadAim, m, x);
      AfterAppend(INITIAL, front, session);
      AfterSnoc(INITIAL, front + session, Crash);
      acts := front + session + [Crash];
    }
  }

  lemma HistoryIsSound(xs: seq<Session>)
    requires HistoryAfter(INITIAL.w, xs).Some?
    ensures StoreOk(HistoryAfter(INITIAL.w, xs).value)
  {
    var acts := SequentialIsInterleaved(xs);
    InvReachable(acts, Sys(HistoryAfter(INITIAL.w, xs).value, map[]));
  }

  // ---- what one call does to the store it found ----

  ghost predicate Untouched(w0: World, w: World, id: ID) {
    forall i | i != id :: (i in w.store <==> i in w0.store) && (i in w0.store ==> w.store[i] == w0.store[i])
  }

  function HistoryBefore(w0: World, id: ID): seq<Entry> {
    if id in w0.store then w0.store[id].history else []
  }

  /** The chart version, values and tags a call works with: those requested, or those stored. */
  predicate Carries(w0: World, cmd: Cmd, id: ID, r: Row) {
    && (if cmd.Install? || cmd.Upgrade? then r.chart.version == cmd.chartVersion && r.values == cmd.values
        else id in w0.store && r.chart.version == w0.store[id].chart.version && r.values == w0.store[id].values)
    && (if id in w0.store then r.annotations == w0.store[id].annotations && r.labels == w0.store[id].labels
        else r.annotations == map[] && r.labels == map[])
  }

  /** `h` is the history a successful call leaves: for install and upgrade one entry more, carrying
      the version, the requested chart and the returned revision; for rollback the same. */
  predicate HistoryDone(w0: World, cmd: Cmd, id: ID, revision: int, h: seq<Entry>) {
    var h0 := HistoryBefore(w0, id);
    if cmd.Install? || cmd.Upgrade? then
      && |h| == |h0| + 1 && h[..|h0|] == h0
      && var e := h[|h0|];
        && e.version == |h0| + 1 && e.status == StartedStatus(cmd)
        && AskedFor(e.chart, cmd) && e.helmVersion == revision
    else h == h0
  }

  /** The one row a call works on, with its release, its frozen columns and what the call carries;
      every other row is untouched. */
  ghost predicate WorkedOn(w0: World, w: World, cmd: Cmd, id: ID) {
    && CanStart(w0, cmd, id) && Untouched(w0, w, id) && id in w.store
    && var r := w.store[id];
    && r.id == id && Matches(r, cmd.name, cmd.namespace) && Kept(w0, w, id) && Carries(w0, cmd, id, r)
    && (cmd.Install? ==> AskedFor(r.chart, cmd)) && r.version == |r.history| + 1
  }

  /** What an unfinished call may leave: its row on the way, or failed, its history and version as
      they were. */
  ghost predicate LeftBehind(w0: World, w: World, cmd: Cmd, id: ID) {
    && WorkedOn(w0, w, cmd, id) && w.store[id].history == HistoryBefore(w0, id)
    && (w.store[id].status in {StartedStatus(cmd), Failed} || (cmd.Install? && w.store[id].status == Pending))
  }

  /** What a successful call leaves: its row SUCCEEDED or ROLLED_BACK, its history done. */
  ghost predicate Concluded(w0: World, w: World, cmd: Cmd, id: ID, revision: int) {
    && WorkedOn(w0, w, cmd, id) && HistoryDone(w0, cmd, id, revision, w.store[id].history)
    && w.store[id].status == FinishedStatus(cmd)
  }

  /** A call that did not succeed left the store as it found it, or left its row unfinished. */
  ghost predicate Unfinished(w0: World, w: World, cmd: Cmd) {
    w.store == w0.store || exists id :: LeftBehind(w0, w, cmd, id)
  }

  /** The service's contract for one call that found the store as in `w0`. */
  ghost predicate Contract(w0: World, w: World, cmd: Cmd, reply: Reply) {
    match reply
    case Error => Unfinished(w0, w, cmd)
    case Success(id, revision) => Concluded(w0, w, cmd, id, revision)
    case Removed =>
      && cmd.Uninstall?
      && (w.store == w0.store || exists id | id in w0.store && Matches(w0.store[id], cmd.name, cmd.namespace) ::
            w.store == w0.store - {id})
  }

  /** What an aggregate in a call's hands has from its first transition to its last. */
  ghost predicate Held(w0: World, cmd: Cmd, g: State) {
    && CanStart(w0, cmd, g.id) && g.version == |g.history| + 1
    && Matches(Inserted(g), cmd.name, cmd.namespace)
    && (!cmd.Rollback? ==> AskedFor(g.chart, cmd)) && Carries(w0, cmd, g.id, Inserted(g))
  }

  ghost predicate Working(w0: World, cmd: Cmd, g: State, st: Status) {
    Held(w0, cmd, g) && g.status == st && g.history == HistoryBefore(w0, g.id)
  }

  ghost predicate Finished(w0: World, cmd: Cmd, g: State, revision: int) {
    Held(w0, cmd, g) && g.status == FinishedStatus(cmd) && HistoryDone(w0, cmd, g.id, revision, g.history)
  }

  ghost predicate RowAt(w0: World, w: World, cmd: Cmd, id: ID, st: Status) {
    LeftBehind(w0, w, cmd, id) && w.store[id].status == st
  }

  /** Where a call stands, told by the port it waits on. */
  ghost predicate CallInv(w0: World, cmd: Cmd, w: World, pc: Pc) {
    && Fits(cmd, pc)
    && match pc
       case EnsureNamespace(g) => w.store == w0.store && Working(w0, cmd, g, Pending)
       case SaveInitial(g) => w.store == w0.store && Working(w0, cmd, g, Pending)
       case Find => w.store == w0.store
       case SaveStarted(g) => Working(w0, cmd, g, StartedStatus(cmd)) &&
         if cmd.Install? then RowAt(w0, w, cmd, g.id, Pending) else w.store == w0.store
       case CallHelm(g) => Working(w0, cmd, g, StartedStatus(cmd)) && RowAt(w0, w, cmd, g.id, StartedStatus(cmd))
       case SaveFailed(g) => Working(w0, cmd, g, Failed) && RowAt(w0, w, cmd, g.id, StartedStatus(cmd))
       case PublishFailed(g) => Working(w0, cmd, g, Failed)
         && (RowAt(w0, w, cmd, g.id, StartedStatus(cmd))
             || (RowAt(w0, w, cmd, g.id, Failed) && Mirrors(w.store[g.id], g)))
       case SaveDone(g, rev) => Finished(w0, cmd, g, rev) && RowAt(w0, w, cmd, g.id, StartedStatus(cmd))
       case PublishDone(g, rev) => Finished(w0, cmd, g, rev)
         && Concluded(w0, w, cmd, g.id, rev) && Mirrors(w.store[g.id], g)
       case UninstallHelm => w.store == w0.store
       case UninstallFind => w.store == w0.store
       case UninstallDelete(id) =>
         w.store == w0.store && id in w0.store && Matches(w0.store[id], cmd.name, cmd.namespace)
       case Returned(reply) => Contract(w0, w, cmd, reply)
  }

  /** Saving the aggregate in hand brings its row up to it and touches no other. */
  lemma SaveWorksOn(w0: World, w: World, cmd: Cmd, g: State)
    requires TableOk(w0.store) && TableOk(w.store) && Held(w0, cmd, g)
    requires w.store == w0.store || WorkedOn(w0, w, cmd, g.id)
    ensures WorkedOn(w0, Save(w, g), cmd, g.id) && Mirrors(Save(w, g).store[g.id], g)
    ensures Save(w, g).store[g.id].status == g.status
  {
    SaveMirrors(w, g);
  }

  lemma CallStepSearch(w0: World, cmd: Cmd, w: World, pc: Pc, a: Answer)
    requires StoreOk(w0) && CallInv(w0, cmd, w, pc) && Possible(w, cmd, pc, a) && Agg(pc).None?
    ensures CallInv(w0, cmd, Advance(w, cmd, pc, a).0, Advance(w, cmd, pc, a).1)
  {
    if pc.Find? && a.Hit? {
      assert RowOk(w0, a.id);
    }
  }

  lemma CallStepUnborn(w0: World, cmd: Cmd, w: World, pc: Pc, a: Answer)
    requires StoreOk(w0) && CallInv(w0, cmd, w, pc) && Possible(w, cmd, pc, a) && Unborn(pc)
    ensures CallInv(w0, cmd, Advance(w, cmd, pc, a).0, Advance(w, cmd, pc, a).1)
  {
    if pc.SaveInitial? && a.Ok? { SaveWorksOn(w0, w, cmd, pc.g); }
  }

  lemma CallStepSave(w0: World, cmd: Cmd, w: World, pc: Pc, a: Answer)
    requires StoreOk(w0) && TableOk(w.store) && CallInv(w0, cmd, w, pc) && Possible(w, cmd, pc, a)
    requires pc.SaveStarted? || pc.SaveFailed? || pc.SaveDone?
    ensures CallInv(w0, cmd, Advance(w, cmd, pc, a).0, Advance(w, cmd, pc, a).1)
  {
    if a.Ok? { SaveWorksOn(w0, w, cmd, pc.g); }
  }

  /** The last transition keeps what the call holds. */
  lemma HelmHeld(w0: World, cmd: Cmd, g: State, op: Op)
    requires Working(w0, cmd, g, StartedStatus(cmd)) && !cmd.Uninstall?
    requires op.MarkFailed? || (op.MarkSucceeded? && !cmd.Rollback?) || (op.MarkRolledBack? && cmd.Rollback?)
    ensures Accepts(g, op) && Held(w0, cmd, Step(g, op)) && Step(g, op).id == g.id
    ensures op.MarkFailed? ==> Working(w0, cmd, Step(g, op), Failed)
    ensures op.MarkSucceeded? ==> Finished(w0, cmd, Step(g, op), op.revision)
    ensures op.MarkRolledBack? ==> forall rev :: Finished(w0, cmd, Step(g, op), rev)
  {}

  lemma CallStepHelm(w0: World, cmd: Cmd, w: World, pc: Pc, a: Answer)
    requires CallInv(w0, cmd, w, pc) && Possible(w, cmd, pc, a) && pc.CallHelm?
    ensures CallInv(w0, cmd, Advance(w, cmd, pc, a).0, Advance(w, cmd, pc, a).1)
  {
    var v, op := Advance(w, cmd, pc, a).0,
      if a.Fault? then MarkFailed(a.reason, a.at) else FinishOp(cmd, a.revision, a.at, a.later);
    HelmHeld(w0, cmd, pc.g, op);
    assert RowAt(w0, v, cmd, pc.g.id, StartedStatus(cmd));
  }

  lemma CallStepPublish(w0: World, cmd: Cmd, w: World, pc: Pc, a: Answer)
    requires CallInv(w0, cmd, w, pc) && Possible(w, cmd, pc, a)
    requires pc.PublishFailed? || pc.PublishDone?
    ensures CallInv(w0, cmd, Advance(w, cmd, pc, a).0, Advance(w, cmd, pc, a).1)
  {
    var v := Advance(w, cmd, pc, a).0;
    assert v.store == w.store;
    if pc.PublishFailed? {
      assert LeftBehind(w0, v, cmd, pc.g.id);
    } else {
      assert Concluded(w0, v, cmd, pc.g.id, pc.revision);
    }
  }

  lemma CallStep(w0: World, cmd: Cmd, w: World, pc: Pc, a: Answer)
    requires StoreOk(w0) && TableOk(w.store) && CallInv(w0, cmd, w, pc) && Possible(w, cmd, pc, a)
    ensures CallInv(w0, cmd, Advance(w, cmd, pc, a).0, Advance(w, cmd, pc, a).1)
  {
    if Agg(pc).None? { CallStepSearch(w0, cmd, w, pc, a); }
    else if Unborn(pc) { CallStepUnborn(w0, cmd, w, pc, a); }
    else if pc.CallHelm? { CallStepHelm(w0, cmd, w, pc, a); }
    else if pc.PublishFailed? || pc.PublishDone? { CallStepPublish(w0, cmd, w, pc, a); }
    else { CallStepSave(w0, cmd, w, pc, a); }
  }

  lemma StepKeepsTable(w: World, cmd: Cmd, pc: Pc, a: Answer)
    requires TableOk(w.store) && Possible(w, cmd, pc, a)
    ensures TableOk(Advance(w, cmd, pc, a).0.store)
  {
    if Agg(pc).Some? { LoadAfterSave(w.store, pc.g); }
  }

  lemma CallStart(w0: World, x: Session)
    requires StoreOk(w0) && CanOpen(w0, x)
    ensures CallInv(w0, x.cmd, Opened(w0, x.cmd, x.id), Begin(x.cmd, x.semver, x.id, x.now))
  {
    RowsAreUsed(w0);
  }

  lemma {:induction false} CallInvHolds(w0: World, w: World, cmd: Cmd, pc: Pc, answers: seq<Answer>)
    requires StoreOk(w0) && TableOk(w.store) && CallInv(w0, cmd, w, pc) && CallAfter(w, cmd, pc, answers).Some?
    ensures var (v, qc) := CallAfter(w, cmd, pc, answers).value;
      CallInv(w0, cmd, v, qc) && TableOk(v.store)
    decreases |answers|
  {
    if answers != [] {
      CallInvHolds(w0, w, cmd, pc, answers[..|answers| - 1]);
      var (v, qc) := CallAfter(w, cmd, pc, answers[..|answers| - 1]).value;
      CallStep(w0, cmd, v, qc, answers[|answers| - 1]);
      StepKeepsTable(v, cmd, qc, answers[|answers| - 1]);
    }
  }

  lemma SessionInv(xs: seq<Session>, x: Session)
    requires HistoryAfter(INITIAL.w, xs).Some? && SessionAfter(HistoryAfter(INITIAL.w, xs).value, x).Some?
    ensures var w0 := HistoryAfter(INITIAL.w, xs).value;
      var (w, pc) := SessionAfter(w0, x).value;
      StoreOk(w0) && CallInv(w0, x.cmd, w, pc)
  {
    HistoryIsSound(xs);
    var w0 := HistoryAfter(INITIAL.w, xs).value;
    CallStart(w0, x);
    CallInvHolds(w0, Opened(w0, x.cmd, x.id), x.cmd, Begin(x.cmd, x.semver, x.id, x.now), x.answers);
  }

  /** The service contract: after any history of calls, faults and crashes, a call that returns
      keeps it. Success of install or upgrade means its row is SUCCEEDED with one more history entry
      carrying the returned revision; an error means the store is as it was or the row it worked on
      is PENDING, started or FAILED with its history and version as they were; always the row is one
      of the command's release that its guard allowed, and all other rows are untouched. */
  lemma CallsKeepContract(xs: seq<Session>, x: Session)
    requires HistoryAfter(INITIAL.w, xs).Some? && SessionAfter(HistoryAfter(INITIAL.w, xs).value, x).Some?
    requires SessionAfter(HistoryAfter(INITIAL.w, xs).value, x).value.1.Returned?
    ensures var w0 := HistoryAfter(INITIAL.w, xs).value;
      var (w, pc) := SessionAfter(w0, x).value;
      Contract(w0, w, x.cmd, pc.reply)
  {
    SessionInv(xs, x);
  }

  /** A call cut short by a crash: had it saved its result and only not published it, then the row is
      concluded; at every other point the call is unfinished. */
  lemma CutCallsKeepContract(xs: seq<Session>, x: Session)
    requires HistoryAfter(INITIAL.w, xs).Some? && SessionAfter(HistoryAfter(INITIAL.w, xs).value, x).Some?
    requires !SessionAfter(HistoryAfter(INITIAL.w, xs).value, x).value.1.Returned?
    ensures var w0 := HistoryAfter(INITIAL.w, xs).value;
      var (w, pc) := SessionAfter(w0, x).value;
      if pc.PublishDone? then Concluded(w0, w, x.cmd, pc.g.id, pc.revision) else Unfinished(w0, w, x.cmd)
  {
    SessionInv(xs, x);
  }

  /** Write-ahead: calls that do not overlap at all are serialised, so whenever one is about to reach
      Helm, the store already holds its deployment as DEPLOYING, UPGRADING or ROLLING_BACK and
      mirrors its aggregate. */
  lemma WriteAhead(xs: seq<Session>, x: Session)
    requires HistoryAfter(INITIAL.w, xs).Some? && SessionAfter(HistoryAfter(INITIAL.w, xs).value, x).Some?
    requires SessionAfter(HistoryAfter(INITIAL.w, xs).value, x).value.1.CallHelm?
    ensures var (w, pc) := SessionAfter(HistoryAfter(INITIAL.w, xs).value, x).value;
      && pc.g.id in w.store && w.store[pc.g.id].status == StartedStatus(x.cmd)
      && Mirrors(w.store[pc.g.id], pc.g)
  {
    var w0 := HistoryAfter(INITIAL.w, xs).value;
    var (w, pc) := SessionAfter(w0, x).value;
    var past := SequentialIsInterleaved(xs);
    var acts := SessionIsRun(WriteAheadAim, w0, x);
    WriteAheadIfSerialised(past, Sys(w0, map[]), acts, Alone(w, x.cmd, pc), 0);
  }

  /** Likewise no point of a session, cut or returned, stores a lower version than it found. */
  lemma VersionsGrow(xs: seq<Session>, x: Session, id: ID)
    requires HistoryAfter(INITIAL.w, xs).Some? && SessionAfter(HistoryAfter(INITIAL.w, xs).value, x).Some?
    ensures var w0 := HistoryAfter(INITIAL.w, xs).value;
      var w := SessionAfter(w0, x).value.0;
      id in w0.store && id in w.store ==> w0.store[id].version <= w.store[id].version
  {
    var w0 := HistoryAfter(INITIAL.w, xs).value;
    var (w, pc) := SessionAfter(w0, x).value;
    if id in w0.store && id in w.store {
      var s0 := Sys(w0, map[]);
      var past := SequentialIsInterleaved(xs);
      var more := SessionIsRun(VersionAim, w0, x);
      assert Reaches(s0, [], s0) && Serialised(VersionAim, s0, []);
      VersionsNeverFall(past, s0, [], s0, more, Alone(w, x.cmd, pc), id);
    }
  }

  // ---- calls end, and the namespace comes first ----

  function PortsLeft(pc: Pc): nat {
    match pc
    case EnsureNamespace(_) => 6
    case SaveInitial(_) | Find => 5
    case SaveStarted(_) => 4
    case CallHelm(_) => 3
    case SaveFailed(_) | SaveDone(_, _) => 2
    case PublishFailed(_) | PublishDone(_, _) => 1
    case UninstallHelm => 3
    case UninstallFind => 2
    case UninstallDelete(_) => 1
    case Returned(_) => 0
  }

  /** Every call returns after at most six port calls, whatever they answer. */
  lemma {:induction false} CallsAreShort(w: World, cmd: Cmd, pc: Pc, answers: seq<Answer>)
    requires CallAfter(w, cmd, pc, answers).Some?
    ensures |answers| + PortsLeft(CallAfter(w, cmd, pc, answers).value.1) <= PortsLeft(pc) <= 6
    decreases |answers|
  {
    if answers != [] {
      CallsAreShort(w, cmd, pc, answers[..|answers| - 1]);
    }
  }

  predicate NeedsNamespace(cmd: Cmd) {
    cmd.Install? && (cmd.createNS || !cmd.dryRun)
  }

  /** An install that is not a bare dry run stores nothing and reaches no other port before its
      namespace was ensured in this very call; every other call leaves namespaces alone. */
  lemma {:induction false} NamespaceFirst(w: World, x: Session, answers: seq<Answer>)
    requires CallAfter(w, x.cmd, Begin(x.cmd, x.semver, x.id, x.now), answers).Some?
    ensures var (v, pc) := CallAfter(w, x.cmd, Begin(x.cmd, x.semver, x.id, x.now), answers).value;
      && w.log <= v.log
      && (NeedsNamespace(x.cmd) ==>
            NamespaceEnsured(x.cmd.namespace, true) in v.log[|w.log|..]
            || (v.store == w.store && (pc.EnsureNamespace? || pc == Returned(Error))))
      && (!NeedsNamespace(x.cmd) ==>
            !pc.EnsureNamespace? && forall i | |w.log| <= i < |v.log| :: !v.log[i].NamespaceEnsured?)
    decreases |answers|
  {
    if answers != [] {
      var front, a := answers[..|answers| - 1], answers[|answers| - 1];
      NamespaceFirst(w, x, front);
      var m := CallAfter(w, x.cmd, Begin(x.cmd, x.semver, x.id, x.now), front).value;
      StepLogs(m.0, x.cmd, m.1, a);
      var v := Advance(m.0, x.cmd, m.1, a).0;
      assert forall e | e in m.0.log[|w.log|..] :: e in v.log[|w.log|..] by {
        assert m.0.log[|w.log|..] <= v.log[|w.log|..];
      }
      if m.1.EnsureNamespace? && a.Ok? {
        assert v.log[|m.0.log|] == NamespaceEnsured(x.cmd.namespace, true);
        assert v.log[|w.log|..][|m.0.log| - |w.log|] == NamespaceEnsured(x.cmd.namespace, true);
      }
    }
  }

  /** A step adds at most one entry to the log. */
  lemma StepLogs(w: World, cmd: Cmd, pc: Pc, a: Answer)
    requires Possible(w, cmd, pc, a)
    ensures var v := Advance(w, cmd, pc, a).0;
      && w.log <= v.log && |v.log| <= |w.log| + 1
      && (forall i | |w.log| <= i < |v.log| :: v.log[i].NamespaceEnsured? <==> pc.EnsureNamespace?)
    ensures !Advance(w, cmd, pc, a).1.EnsureNamespace?
  {}
}

// What a call can come to: exactly when it can succeed, when the chart it stores is the one it was
// asked for, and when the failure it publishes was stored first.
module Outcomes {
  import opened Options
  import opened Deployments
  import opened Store
  import opened Machine
  import opened Interleaving
  import opened Mirroring
  import opened Sequential

  // ---- following a call whose ports answer as they should, or not ----

  /** The call, given these answers, comes to wait on `qc` in `v`. */
  predicate Comes(w: World, cmd: Cmd, pc: Pc, answers: seq<Answer>, v: World, qc: Pc) {
    CallAfter(w, cmd, pc, answers) == Some((v, qc))
  }

  lemma Answers(w: World, cmd: Cmd, pc: Pc, answers: seq<Answer>, v: World, qc: Pc, a: Answer)
    returns (more: seq<Answer>)
    requires Comes(w, cmd, pc, answers, v, qc) && Possible(v, cmd, qc, a)
    ensures more == answers + [a]
    ensures Comes(w, cmd, pc, more, Advance(v, cmd, qc, a).0, Advance(v, cmd, qc, a).1)
  {
    more := answers + [a];
    CallSnoc(w, cmd, pc, answers, a);
  }

  /** From a successful Helm call on, the call runs to success. */
  lemma HelmConcludes(w: World, cmd: Cmd, pc: Pc, answers: seq<Answer>, v: World, g: State, revision: int)
    returns (all: seq<Answer>, u: World)
    requires Comes(w, cmd, pc, answers, v, CallHelm(g)) && !cmd.Uninstall? && g.status == StartedStatus(cmd)
    ensures Comes(w, cmd, pc, all, u, Returned(Success(g.id, revision)))
  {
    var ok, done := Ok(revision, 0, 0), Step(g, FinishOp(cmd, revision, 0, 0));
    all := Answers(w, cmd, pc, answers, v, CallHelm(g), ok);
    u := Log(v, HelmCall(g.id, RequestOf(cmd), true));
    all := Answers(w, cmd, pc, all, u, SaveDone(done, revision), ok);
    u := Save(u, done);
    all := Answers(w, cmd, pc, all, u, PublishDone(done, revision), ok);
    u := Log(u, Published(done.events));
  }

  /** A failure Helm reports may fail to be saved and still be published. */
  lemma HelmGivesUp(w: World, cmd: Cmd, pc: Pc, answers: seq<Answer>, v: World, g: State)
    returns (all: seq<Answer>, u: World)
    requires Comes(w, cmd, pc, answers, v, CallHelm(g)) && !cmd.Uninstall?
    ensures Comes(w, cmd, pc, all, u, Returned(Error)) && |all| >= 2 && all[|all| - 2].Fault?
    ensures |u.log| > |v.log| && u.log[|u.log| - 1] == Published(Step(g, MarkFailed("", 0)).events)
  {
    var fault, failed := Fault("", 0), Step(g, MarkFailed("", 0));
    all := Answers(w, cmd, pc, answers, v, CallHelm(g), fault);
    u := Log(v, HelmCall(g.id, RequestOf(cmd), false));
    all := Answers(w, cmd, pc, all, u, SaveFailed(failed), fault);
    all := Answers(w, cmd, pc, all, u, PublishFailed(failed), Ok(0, 0, 0));
    u := Log(u, Published(failed.events));
  }

  /** What a session needs to get anywhere: an install a valid request and a new id, an upgrade or
      rollback a row of its release that its guard allows. */
  predicate MayWorkOn(w0: World, x: Session, id: ID) {
    match x.cmd
    case Install(name, ns, _, _, _, _, _, _) =>
      id == x.id && id !in w0.used && ValidRequest(name, ns, Requested(x.cmd), x.semver)
    case _ => CanStart(w0, x.cmd, id)
  }

  lemma FirstSaved(w: World, cmd: Cmd, pc: Pc, answers: seq<Answer>, v: World, n: State)
    returns (more: seq<Answer>, u: World, g: State)
    requires Comes(w, cmd, pc, answers, v, SaveInitial(n)) && cmd.Install? && n.status == Pending
    ensures Comes(w, cmd, pc, more, u, CallHelm(g)) && g.id == n.id && g.status == Deploying && v.log <= u.log
  {
    g := Step(n, StartOp(cmd, 0));
    more := Answers(w, cmd, pc, answers, v, SaveInitial(n), Ok(0, 0, 0));
    more := Answers(w, cmd, pc, more, Save(v, n), SaveStarted(g), Ok(0, 0, 0));
    u := Save(Save(v, n), g);
  }

  lemma InstallReachesHelm(w0: World, x: Session) returns (answers: seq<Answer>, v: World, g: State)
    requires x.cmd.Install? && MayWorkOn(w0, x, x.id)
    ensures Comes(Opened(w0, x.cmd, x.id), x.cmd, Begin(x.cmd, x.semver, x.id, x.now), answers, v, CallHelm(g))
    ensures g.id == x.id && g.status == Deploying && w0.log <= v.log
  {
    var w, pc := Opened(w0, x.cmd, x.id), Begin(x.cmd, x.semver, x.id, x.now);
    answers, v := [], w;
    if pc.EnsureNamespace? {
      answers := Answers(w, x.cmd, pc, answers, v, pc, Ok(0, 0, 0));
      v := Log(v, NamespaceEnsured(x.cmd.namespace, true));
    }
    answers, v, g := FirstSaved(w, x.cmd, pc, answers, v, pc.g);
  }

  lemma ChangeReachesHelm(w0: World, x: Session, id: ID) returns (answers: seq<Answer>, v: World, g: State)
    requires (x.cmd.Upgrade? || x.cmd.Rollback?) && MayWorkOn(w0, x, id) && TableOk(w0.store)
    ensures Comes(Opened(w0, x.cmd, x.id), x.cmd, Begin(x.cmd, x.semver, x.id, x.now), answers, v, CallHelm(g))
    ensures g.id == id && g.status == StartedStatus(x.cmd) && w0.log <= v.log
  {
    answers := Answers(w0, x.cmd, Find, [], w0, Find, Hit(id, 0));
    g := Step(Load(w0.store[id]), StartOp(x.cmd, 0));
    answers := Answers(w0, x.cmd, Find, answers, w0, SaveStarted(g), Ok(0, 0, 0));
    v := Save(w0, g);
  }

  /** Whatever may be worked on can be brought to Helm. */
  lemma ReachesHelm(w0: World, x: Session, id: ID) returns (answers: seq<Answer>, v: World, g: State)
    requires MayWorkOn(w0, x, id) && TableOk(w0.store)
    ensures Comes(Opened(w0, x.cmd, x.id), x.cmd, Begin(x.cmd, x.semver, x.id, x.now), answers, v, CallHelm(g))
    ensures g.id == id && g.status == StartedStatus(x.cmd) && w0.log <= v.log
  {
    if x.cmd.Install? {
      answers, v, g := InstallReachesHelm(w0, x);
    } else {
      answers, v, g := ChangeReachesHelm(w0, x, id);
    }
  }

  // ---- when a call can succeed ----

  predicate Replies(w0: World, x: Session, reply: Reply) {
    var r := SessionAfter(w0, x);
    r.Some? && r.value.1 == Returned(reply)
  }

  predicate OfInstall(x: Session, pc: Pc) {
    && (Agg(pc).Some? ==> Agg(pc).value.id == x.id)
    && (pc.Returned? && pc.reply.Success? ==> pc.reply.id == x.id)
  }

  lemma InstallStepKeepsID(w: World, x: Session, pc: Pc, a: Answer)
    requires x.cmd.Install? && OfInstall(x, pc) && Possible(w, x.cmd, pc, a)
    ensures OfInstall(x, Advance(w, x.cmd, pc, a).1)
  {}

  /** An install works on the id it drew, and only if its request is valid. */
  lemma {:induction false} InstallKeepsID(w: World, x: Session, answers: seq<Answer>)
    requires x.cmd.Install? && CallAfter(w, x.cmd, Begin(x.cmd, x.semver, x.id, x.now), answers).Some?
    ensures var pc := CallAfter(w, x.cmd, Begin(x.cmd, x.semver, x.id, x.now), answers).value.1;
      && OfInstall(x, pc)
      && (pc == Returned(Error) || ValidRequest(x.cmd.name, x.cmd.namespace, Requested(x.cmd), x.semver))
    decreases |answers|
  {
    if answers != [] {
      var front := answers[..|answers| - 1];
      InstallKeepsID(w, x, front);
      var (v, pc) := CallAfter(w, x.cmd, Begin(x.cmd, x.semver, x.id, x.now), front).value;
      InstallStepKeepsID(v, x, pc, answers[|answers| - 1]);
    }
  }

  /** A call of a world that reads `w0` keeps the contract. */
  lemma RepliesKeepContract(w0: World, x: Session, reply: Reply)
    requires StoreOk(w0) && Replies(w0, x, reply)
    ensures Contract(w0, SessionAfter(w0, x).value.0, x.cmd, reply)
  {
    CallStart(w0, x);
    CallInvHolds(w0, Opened(w0, x.cmd, x.id), x.cmd, Begin(x.cmd, x.semver, x.id, x.now), x.answers);
  }

  /** Exactly when success is possible: some answers of the ports let a call reply with success for
      deployment `id` if and only if it may work on `id`. The guards of the aggregate never stand in
      the way after the first. */
  lemma SuccessExactly(w0: World, x: Session, id: ID, revision: int)
    requires StoreOk(w0)
    ensures (exists all :: Replies(w0, x.(answers := all), Success(id, revision))) <==> MayWorkOn(w0, x, id)
  {
    if MayWorkOn(w0, x, id) {
      var answers, v, g := ReachesHelm(w0, x, id);
      var all, u := HelmConcludes(Opened(w0, x.cmd, x.id), x.cmd, Begin(x.cmd, x.semver, x.id, x.now),
                                  answers, v, g, revision);
      assert Replies(w0, x.(answers := all), Success(id, revision));
    }
    forall all | Replies(w0, x.(answers := all), Success(id, revision)) ensures MayWorkOn(w0, x, id) {
      RepliesKeepContract(w0, x.(answers := all), Success(id, revision));
      if x.cmd.Install? { InstallKeepsID(Opened(w0, x.cmd, x.id), x, all); }
    }
  }

  // ---- when the stored chart is the one asked for ----

  /** After a successful upgrade the stored chart, which is what is loaded next, is the requested one,
      which the history records, exactly when name, repo and source are those stored before. */
  lemma UpgradeStoresChartExactly(w0: World, x: Session, id: ID, revision: int)
    requires StoreOk(w0) && x.cmd.Upgrade? && Replies(w0, x, Success(id, revision))
    ensures id in w0.store && id in SessionAfter(w0, x).value.0.store
    ensures var row := SessionAfter(w0, x).value.0.store[id];
      && row.history != [] && AskedFor(row.history[|row.history| - 1].chart, x.cmd)
      && (AskedFor(Load(row).chart, x.cmd) <==>
        && w0.store[id].chart.name == x.cmd.chartName && w0.store[id].chart.repo == x.cmd.repoURL
        && w0.store[id].chart.source == RepoSource)
  {
    RepliesKeepContract(w0, x, Success(id, revision));
  }

  /** So an upgrade asked for another chart can succeed without storing it, whatever SUCCEEDED row it
      finds. */
  lemma UpgradeCanLoseChart(w0: World, x: Session, id: ID, revision: int)
    requires StoreOk(w0) && x.cmd.Upgrade? && CanStart(w0, x.cmd, id)
    requires w0.store[id].chart.name != x.cmd.chartName || w0.store[id].chart.repo != x.cmd.repoURL
      || w0.store[id].chart.source != RepoSource
    ensures exists all ::
      && Replies(w0, x.(answers := all), Success(id, revision))
      && id in SessionAfter(w0, x.(answers := all)).value.0.store
      && var row := SessionAfter(w0, x.(answers := all)).value.0.store[id];
        row.status == Succeeded && !AskedFor(row.chart, x.cmd)
  {
    SuccessExactly(w0, x, id, revision);
    var all :| Replies(w0, x.(answers := all), Success(id, revision));
    UpgradeStoresChartExactly(w0, x.(answers := all), id, revision);
    RepliesKeepContract(w0, x.(answers := all), Success(id, revision));
  }

  // ---- when a published failure was stored ----

  predicate IsFailedSave(e: Effect, id: ID) {
    e.Saved? && e.row.id == id && e.row.status == Failed
  }

  predicate TellsFailure(e: Event, id: ID) {
    e.FailedEvent? && e.id == id
  }

  /** From position `from` of the log on, the deployment was saved as FAILED. */
  predicate FailureSaved(log: seq<Effect>, from: nat, id: ID) {
    exists k | from <= k < |log| :: IsFailedSave(log[k], id)
  }

  predicate AnyFailure(es: seq<Event>, id: ID) {
    exists j | 0 <= j < |es| :: TellsFailure(es[j], id)
  }

  /** From there on, a failure of the deployment was published. */
  predicate FailurePublished(log: seq<Effect>, from: nat, id: ID) {
    exists k | from <= k < |log| :: log[k].Published? && AnyFailure(log[k].events, id)
  }

  lemma FailureSnoc(log: seq<Effect>, e: Effect, from: nat, id: ID)
    requires from <= |log|
    ensures FailureSaved(log + [e], from, id) <==> FailureSaved(log, from, id) || IsFailedSave(e, id)
    ensures FailurePublished(log + [e], from, id) <==>
      FailurePublished(log, from, id) || (e.Published? && AnyFailure(e.events, id))
  {
    var l := log + [e];
    assert l[|log|] == e && forall k | 0 <= k < |log| :: l[k] == log[k];
  }

  lemma AnyFailureAppend(es: seq<Event>, e: Event, id: ID)
    ensures AnyFailure(es + [e], id) <==> AnyFailure(es, id) || TellsFailure(e, id)
  {
    var l := es + [e];
    assert l[|es|] == e && forall k | 0 <= k < |es| :: l[k] == es[k];
  }

  /** The aggregate has not failed and says so to nobody. */
  predicate Unfailed(g: State, id: ID) {
    g.status != Failed && AllFor(g.events, g.id) && !AnyFailure(g.events, id)
  }

  /** Up to the save of a failure nothing was saved as FAILED and no failure was published. */
  predicate NoFailureYet(log: seq<Effect>, from: nat, pc: Pc, id: ID) {
    && !FailureSaved(log, from, id) && !FailurePublished(log, from, id)
    && (Agg(pc).Some? ==>
      var g := Agg(pc).value;
      if pc.SaveFailed? then g.status == Failed && AllFor(g.events, g.id) else Unfailed(g, id))
  }

  /** After it the failure was saved just if the store answered, and waits to be published. */
  predicate FailureWaits(log: seq<Effect>, from: nat, g: State, id: ID, saved: bool) {
    && AllFor(g.events, g.id) && !FailurePublished(log, from, id)
    && (FailureSaved(log, from, id) <==> saved && id == g.id)
  }

  lemma UnfailedStep(g: State, op: Op, id: ID)
    requires Unfailed(g, id) && Accepts(g, op) && !op.Drain?
    ensures if op.MarkFailed? then AllFor(Step(g, op).events, g.id) else Unfailed(Step(g, op), id)
  {
    var es := EventsOf(g, op);
    if es == [] {
      assert g.events + es == g.events;
    } else {
      assert es == [es[0]];
      AnyFailureAppend(g.events, es[0], id);
    }
  }

  /** What a step before the publication of a failure logs. */
  lemma FailureLogged(w: World, cmd: Cmd, pc: Pc, a: Answer, from: nat, id: ID)
    requires TableOk(w.store) && Possible(w, cmd, pc, a) && from <= |w.log|
    requires NoFailureYet(w.log, from, pc, id) && !pc.PublishFailed?
    ensures var v := Advance(w, cmd, pc, a).0;
      && from <= |v.log| && !FailurePublished(v.log, from, id)
      && (FailureSaved(v.log, from, id) <==> pc.SaveFailed? && a.Ok? && id == pc.g.id)
  {
    var v := Advance(w, cmd, pc, a).0;
    if v.log != w.log {
      var e := v.log[|w.log|];
      assert v.log == w.log + [e];
      FailureSnoc(w.log, e, from, id);
    }
  }

  lemma LaunchUnfailed(cmd: Cmd, g: State, now: Time, id: ID)
    requires !cmd.Uninstall? && AllFor(g.events, g.id) && !AnyFailure(g.events, id)
    ensures var pc := Launch(cmd, g, now);
      pc == Returned(Error) || (pc.SaveStarted? && Unfailed(pc.g, id))
  {
    var op := StartOp(cmd, now);
    if Accepts(g, op) {
      assert Step(g, op).events == g.events + [EventsOf(g, op)[0]];
      AnyFailureAppend(g.events, EventsOf(g, op)[0], id);
    }
  }

  lemma HelmUnfailed(cmd: Cmd, g: State, a: Answer, id: ID)
    requires !cmd.Uninstall? && !a.Hit? && Unfailed(g, id)
    ensures var pc := AfterHelm(cmd, g, a);
      || pc == Returned(Error)
      || (pc.SaveFailed? && pc.g.status == Failed && AllFor(pc.g.events, pc.g.id))
      || (pc.SaveDone? && Unfailed(pc.g, id))
  {
    var op := if a.Fault? then MarkFailed(a.reason, a.at) else FinishOp(cmd, a.revision, a.at, a.later);
    if Accepts(g, op) { UnfailedStep(g, op, id); }
  }

  /** The aggregate after it. */
  lemma FailureHeld(w: World, cmd: Cmd, pc: Pc, a: Answer, id: ID)
    requires Possible(w, cmd, pc, a) && !pc.SaveFailed? && !pc.PublishFailed?
    requires Agg(pc).Some? ==> Unfailed(Agg(pc).value, id)
    ensures var qc := Advance(w, cmd, pc, a).1;
      && !qc.PublishFailed?
      && (Agg(qc).Some? ==>
        var g := Agg(qc).value;
        if qc.SaveFailed? then g.status == Failed && AllFor(g.events, g.id) else Unfailed(g, id))
  {
    match pc
    case SaveInitial(g) => LaunchUnfailed(cmd, g, if a.Ok? then a.at else 0, id);
    case Find => if a.Hit? { LaunchUnfailed(cmd, Load(w.store[a.id]), a.at, id); }
    case CallHelm(g) => HelmUnfailed(cmd, g, a, id);
    case _ =>
  }

  /** The answer at position `n` was that of the save of a failure. */
  predicate AnswersFailedSave(w: World, cmd: Cmd, pc: Pc, answers: seq<Answer>, n: int) {
    0 <= n < |answers| && var r := CallAfter(w, cmd, pc, answers[..n]); r.Some? && r.value.1.SaveFailed?
  }

  ghost predicate Trail(w: World, cmd: Cmd, pc: Pc, answers: seq<Answer>, v: World, qc: Pc, from: nat, id: ID) {
    && from <= |v.log|
    && match qc
       case Returned(_) =>
         FailurePublished(v.log, from, id) ==>
           && AnswersFailedSave(w, cmd, pc, answers, |answers| - 2)
           && (FailureSaved(v.log, from, id) <==> answers[|answers| - 2].Ok?)
       case PublishFailed(g) =>
         && AnswersFailedSave(w, cmd, pc, answers, |answers| - 1)
         && FailureWaits(v.log, from, g, id, answers[|answers| - 1].Ok?)
       case _ => NoFailureYet(v.log, from, qc, id)
  }

  lemma TrailEnds(w: World, cmd: Cmd, pc: Pc, front: seq<Answer>, a: Answer, m: World, g: State, from: nat, id: ID)
    requires CallAfter(w, cmd, pc, front) == Some((m, PublishFailed(g)))
    requires Trail(w, cmd, pc, front, m, PublishFailed(g), from, id) && Possible(m, cmd, PublishFailed(g), a)
    ensures var (v, qc) := Advance(m, cmd, PublishFailed(g), a);
      Trail(w, cmd, pc, front + [a], v, qc, from, id)
  {
    var answers := front + [a];
    assert answers[..|answers| - 2] == front[..|front| - 1];
    FailureSnoc(m.log, Published(g.events), from, id);
  }

  lemma {:induction false} TrailHolds(w: World, cmd: Cmd, pc: Pc, answers: seq<Answer>, from: nat, id: ID)
    requires TableOk(w.store) && CallAfter(w, cmd, pc, answers).Some? && from <= |w.log|
    requires NoFailureYet(w.log, from, pc, id) && !pc.PublishFailed?
    ensures var (v, qc) := CallAfter(w, cmd, pc, answers).value;
      TableOk(v.store) && Trail(w, cmd, pc, answers, v, qc, from, id)
    decreases |answers|
  {
    if answers != [] {
      var front, a := answers[..|answers| - 1], answers[|answers| - 1];
      var (m, mc) := CallAfter(w, cmd, pc, front).value;
      TrailHolds(w, cmd, pc, front, from, id);
      StepKeepsTable(m, cmd, mc, a);
      if mc.PublishFailed? {
        assert answers == front + [a];
        TrailEnds(w, cmd, pc, front, a, m, mc.g, from, id);
      } else {
        FailureLogged(m, cmd, mc, a, from, id);
        if !mc.SaveFailed? { FailureHeld(m, cmd, mc, a, id); }
      }
    }
  }

  lemma NothingFailedAtFirst(w0: World, x: Session, id: ID)
    ensures NoFailureYet(w0.log, |w0.log|, Begin(x.cmd, x.semver, x.id, x.now), id)
    ensures !Begin(x.cmd, x.semver, x.id, x.now).PublishFailed?
  {}

  /** Publication only after a successful save, for failures: a call that published its failure had
      saved its row as FAILED in that call exactly when the store answered the save, which is the
      answer before the last. */
  lemma FailureWasSavedExactly(w0: World, x: Session, id: ID)
    requires StoreOk(w0) && SessionAfter(w0, x).Some?
    requires FailurePublished(SessionAfter(w0, x).value.0.log, |w0.log|, id)
    ensures |x.answers| >= 2
    ensures AnswersFailedSave(Opened(w0, x.cmd, x.id), x.cmd, Begin(x.cmd, x.semver, x.id, x.now), x.answers,
                              |x.answers| - 2)
    ensures FailureSaved(SessionAfter(w0, x).value.0.log, |w0.log|, id) <==> x.answers[|x.answers| - 2].Ok?
  {
    NothingFailedAtFirst(w0, x, id);
    TrailHolds(Opened(w0, x.cmd, x.id), x.cmd, Begin(x.cmd, x.semver, x.id, x.now), x.answers, |w0.log|, id);
  }

  /** Any call that may work on a deployment can publish a failure it never saved. */
  lemma FailureCanGoUnsaved(w0: World, x: Session, id: ID)
    requires StoreOk(w0) && MayWorkOn(w0, x, id)
    ensures exists all ::
      && SessionAfter(w0, x.(answers := all)).Some?
      && var w := SessionAfter(w0, x.(answers := all)).value.0;
        FailurePublished(w.log, |w0.log|, id) && !FailureSaved(w.log, |w0.log|, id)
  {
    var answers, v, g := ReachesHelm(w0, x, id);
    var all, u := HelmGivesUp(Opened(w0, x.cmd, x.id), x.cmd, Begin(x.cmd, x.semver, x.id, x.now), answers, v, g);
    var y := x.(answers := all);
    assert SessionAfter(w0, y) == Some((u, Returned(Error)));
    AnyFailureAppend(g.events, FailedEvent(g.id, g.name, g.namespace, ""), id);
    assert u.log[|u.log| - 1].Published? && AnyFailure(u.log[|u.log| - 1].events, id);
    FailureWasSavedExactly(w0, y, id);
  }
}

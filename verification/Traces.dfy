// The whole effect of a call that meets no other, written out: what it saves, asks of Helm and
// publishes, in this order, each with the values of its command.
module Traces {
  import opened Options
  import opened Deployments
  import opened Store
  import opened Machine
  import opened Interleaving
  import opened Sequential

  /** A save of a deployment in a status, or just this effect. */
  datatype Beat = SaveOf(id: ID, status: Status) | Just(e: Effect)

  predicate Is(e: Effect, m: Beat) {
    match m
    case SaveOf(id, st) => e.Saved? && e.row.id == id && e.row.status == st
    case Just(x) => e == x
  }

  /** The log goes on from position `from` with these effects and no others. */
  predicate Wrote(log: seq<Effect>, from: nat, ms: seq<Beat>) {
    |log| == from + |ms| && forall i | 0 <= i < |ms| :: Is(log[from + i], ms[i])
  }

  lemma WroteSnoc(log: seq<Effect>, from: nat, ms: seq<Beat>, e: Effect, m: Beat)
    requires Wrote(log, from, ms) && Is(e, m)
    ensures Wrote(log + [e], from, ms + [m])
  {}

  // ---- the story of a call ----

  function NamespaceStory(cmd: Cmd): seq<Beat> {
    if NeedsNamespace(cmd) then [Just(NamespaceEnsured(cmd.namespace, true))] else []
  }

  /** Up to the Helm call. */
  function StartStory(cmd: Cmd, id: ID): seq<Beat> {
    match cmd
    case Install(_, _, _, _, _, _, _, _) => NamespaceStory(cmd) + [SaveOf(id, Pending), SaveOf(id, Deploying)]
    case Upgrade(_, _, _, _, _, _, _) => [SaveOf(id, Upgrading)]
    case Rollback(_, _, _, _) => [SaveOf(id, RollingBack)]
    case Uninstall(_, _, _) => []
  }

  /** The Helm call itself. */
  function HelmStory(cmd: Cmd, id: ID, ok: bool): Beat
    requires !cmd.Uninstall?
  {
    Just(HelmCall(id, match cmd
      case Install(name, ns, chart, repo, version, values, createNS, dryRun) =>
        InstallRequest(name, ns, chart, repo, version, values, createNS, dryRun)
      case Upgrade(name, ns, chart, repo, version, values, dryRun) =>
        UpgradeRequest(name, ns, chart, repo, version, values, dryRun)
      case Rollback(name, ns, toVersion, dryRun) => RollbackRequest(name, ns, toVersion, dryRun), ok))
  }

  /** What a call has to tell once it has started. */
  function StartEvents(cmd: Cmd, id: ID): seq<Event> {
    match cmd
    case Install(name, ns, chart, repo, version, _, _, _) =>
      [Created(id, name, ns, Chart(chart, repo, version, RepoSource)), Started(id, name, ns)]
    case Upgrade(name, ns, chart, repo, version, _, _) =>
      [UpgradeStarted(id, name, ns, Chart(chart, repo, version, RepoSource))]
    case Rollback(name, ns, toVersion, _) => [RollbackStarted(id, name, ns, toVersion)]
    case Uninstall(_, _, _) => []
  }

  function DoneEvent(cmd: Cmd, id: ID, revision: int): Event {
    if cmd.Rollback? then RolledBackEvent(id, cmd.name, cmd.namespace, cmd.toVersion)
    else SucceededEvent(id, cmd.name, cmd.namespace, revision)
  }

  function FailureEvent(cmd: Cmd, id: ID, reason: string): Event {
    FailedEvent(id, cmd.name, cmd.namespace, reason)
  }

  /** A call that succeeded: started, called Helm, saved the result, and published if it could. */
  function SuccessStory(cmd: Cmd, id: ID, revision: int, published: bool): seq<Beat>
    requires !cmd.Uninstall?
  {
    StartStory(cmd, id) + [HelmStory(cmd, id, true)]
    + [SaveOf(id, if cmd.Rollback? then RolledBack else Succeeded)]
    + if published then [Just(Published(StartEvents(cmd, id) + [DoneEvent(cmd, id, revision)]))] else []
  }

  /** A call whose Helm call failed: it saved the failure if it could and published it if it could. */
  function FailureStory(cmd: Cmd, id: ID, reason: string, saved: bool, published: bool): seq<Beat>
    requires !cmd.Uninstall?
  {
    StartStory(cmd, id) + [HelmStory(cmd, id, false)]
    + (if saved then [SaveOf(id, Failed)] else [])
    + if published then [Just(Published(StartEvents(cmd, id) + [FailureEvent(cmd, id, reason)]))] else []
  }

  /** A call that stopped before Helm: the namespace could not be ensured, or the saves broke off. */
  predicate BrokeOff(log: seq<Effect>, from: nat, cmd: Cmd, id: ID) {
    || Wrote(log, from, [])
    || (NeedsNamespace(cmd) && Wrote(log, from, [Just(NamespaceEnsured(cmd.namespace, false))]))
    || Wrote(log, from, NamespaceStory(cmd))
    || (cmd.Install? && Wrote(log, from, NamespaceStory(cmd) + [SaveOf(id, Pending)]))
  }

  function UninstallStory(cmd: Cmd, ok: bool): Beat
    requires cmd.Uninstall?
  {
    Just(HelmUninstalled(cmd.name, cmd.namespace, cmd.dryRun, ok))
  }

  /** An uninstall that found a row: it is deleted if the store answers. */
  function ForgetStory(cmd: Cmd, id: ID, deleted: bool): seq<Beat>
    requires cmd.Uninstall?
  {
    [UninstallStory(cmd, true)] + if deleted then [Just(Deleted(id))] else []
  }

  // ---- following it ----

  /** Helm's answer to a call that has since been answered `since` more times. */
  function ReasonAt(answers: seq<Answer>, since: nat): string {
    if since < |answers| && answers[|answers| - 1 - since].Fault? then answers[|answers| - 1 - since].reason else ""
  }

  predicate SavedAnswer(answers: seq<Answer>, since: nat) {
    since < |answers| && answers[|answers| - 1 - since].Ok?
  }

  /** What the story needs to know of the aggregate in hand. */
  predicate InHand(cmd: Cmd, pc: Pc) {
    && Fits(cmd, pc)
    && (Agg(pc).Some? ==>
      && Matches(Inserted(Agg(pc).value), cmd.name, cmd.namespace) && Agg(pc).value.status == StatusAt(cmd, pc))
  }

  lemma CallHasInHand(w0: World, cmd: Cmd, w: World, pc: Pc)
    requires CallInv(w0, cmd, w, pc)
    ensures InHand(cmd, pc)
  {}

  ghost predicate Story(cmd: Cmd, log: seq<Effect>, from: nat, pc: Pc, answers: seq<Answer>)
    requires Fits(cmd, pc)
  {
    match pc
    case EnsureNamespace(g) => Wrote(log, from, []) && NeedsNamespace(cmd) && g.events == StartEvents(cmd, g.id)[..1]
    case SaveInitial(g) => Wrote(log, from, NamespaceStory(cmd)) && g.events == StartEvents(cmd, g.id)[..1]
    case Find => Wrote(log, from, [])
    case SaveStarted(g) =>
      && Wrote(log, from, if cmd.Install? then NamespaceStory(cmd) + [SaveOf(g.id, Pending)] else [])
      && g.events == StartEvents(cmd, g.id)
    case CallHelm(g) => Wrote(log, from, StartStory(cmd, g.id)) && g.events == StartEvents(cmd, g.id)
    case SaveFailed(g) =>
      && Wrote(log, from, FailureStory(cmd, g.id, "", false, false))
      && g.events == StartEvents(cmd, g.id) + [FailureEvent(cmd, g.id, ReasonAt(answers, 0))]
    case PublishFailed(g) =>
      && Wrote(log, from, FailureStory(cmd, g.id, "", SavedAnswer(answers, 0), false))
      && g.events == StartEvents(cmd, g.id) + [FailureEvent(cmd, g.id, ReasonAt(answers, 1))]
    case SaveDone(g, rev) =>
      && Wrote(log, from, StartStory(cmd, g.id) + [HelmStory(cmd, g.id, true)])
      && g.events == StartEvents(cmd, g.id) + [DoneEvent(cmd, g.id, rev)]
    case PublishDone(g, rev) =>
      && Wrote(log, from, SuccessStory(cmd, g.id, rev, false))
      && g.events == StartEvents(cmd, g.id) + [DoneEvent(cmd, g.id, rev)]
    case UninstallHelm => Wrote(log, from, []) && answers == []
    case UninstallFind => Wrote(log, from, [UninstallStory(cmd, true)]) && |answers| == 1
    case UninstallDelete(id) =>
      Wrote(log, from, [UninstallStory(cmd, true)]) && |answers| == 2 && answers[1].Hit? && answers[1].id == id
    case Returned(reply) => Ending(cmd, log, from, reply, answers)
  }

  /** What a call wrote by the time it replied. */
  ghost predicate Ending(cmd: Cmd, log: seq<Effect>, from: nat, reply: Reply, answers: seq<Answer>) {
    match reply
    case Success(id, rev) =>
      !cmd.Uninstall? && Wrote(log, from, SuccessStory(cmd, id, rev, SavedAnswer(answers, 0)))
    case Error =>
      if cmd.Uninstall? then Wrote(log, from, [UninstallStory(cmd, false)])
      else exists id :: ErrorEnding(cmd, log, from, answers, id)
    case Removed =>
      && cmd.Uninstall? && |answers| >= 2
      && if answers[1].Hit? then |answers| == 3 && Wrote(log, from, ForgetStory(cmd, answers[1].id, answers[2].Ok?))
         else |answers| == 2 && Wrote(log, from, [UninstallStory(cmd, true)])
  }

  /** An error: the call broke off before Helm, or could not save Helm's success, or Helm failed. */
  predicate ErrorEnding(cmd: Cmd, log: seq<Effect>, from: nat, answers: seq<Answer>, id: ID)
    requires !cmd.Uninstall?
  {
    || BrokeOff(log, from, cmd, id)
    || Wrote(log, from, StartStory(cmd, id) + [HelmStory(cmd, id, true)])
    || Wrote(log, from, FailureStory(cmd, id, ReasonAt(answers, 2), SavedAnswer(answers, 1), SavedAnswer(answers, 0)))
  }

  lemma BreaksOff(cmd: Cmd, log: seq<Effect>, from: nat, answers: seq<Answer>, id: ID)
    requires !cmd.Uninstall? && BrokeOff(log, from, cmd, id)
    ensures Ending(cmd, log, from, Error, answers)
  {
    assert ErrorEnding(cmd, log, from, answers, id);
  }

  lemma StoryBegins(w0: World, x: Session)
    ensures Story(x.cmd, w0.log, |w0.log|, Begin(x.cmd, x.semver, x.id, x.now), [])
  {
    if !x.cmd.Uninstall? { BreaksOff(x.cmd, w0.log, |w0.log|, [], 0); }
  }

  lemma SaveBeat(w: World, g: State)
    requires TableOk(w.store)
    ensures Save(w, g).log == w.log + [Saved(Upsert(w.store, g)[g.id])]
    ensures Is(Saved(Upsert(w.store, g)[g.id]), SaveOf(g.id, g.status))
  {}

  lemma StartTells(cmd: Cmd, g: State, now: Time)
    requires !cmd.Uninstall? && Matches(Inserted(g), cmd.name, cmd.namespace)
    requires if cmd.Install? then g.events == StartEvents(cmd, g.id)[..1] else g.events == []
    ensures Launch(cmd, g, now).SaveStarted? ==>
      Launch(cmd, g, now).g.events == StartEvents(cmd, g.id) && Launch(cmd, g, now).g.id == g.id
  {
    assert g.events + EventsOf(g, StartOp(cmd, now)) == StartEvents(cmd, g.id) || !Accepts(g, StartOp(cmd, now));
  }

  lemma StoryUnborn(w: World, cmd: Cmd, pc: Pc, a: Answer, from: nat, answers: seq<Answer>)
    requires TableOk(w.store) && InHand(cmd, pc) && Possible(w, cmd, pc, a) && Unborn(pc)
    requires Story(cmd, w.log, from, pc, answers)
    ensures Story(cmd, Advance(w, cmd, pc, a).0.log, from, Advance(w, cmd, pc, a).1, answers + [a])
  {
    var v := Advance(w, cmd, pc, a).0;
    if pc.EnsureNamespace? {
      WroteSnoc(w.log, from, [], NamespaceEnsured(cmd.namespace, a.Ok?), Just(NamespaceEnsured(cmd.namespace, a.Ok?)));
      if a.Fault? { BreaksOff(cmd, v.log, from, answers + [a], pc.g.id); }
    } else if a.Ok? {
      SaveBeat(w, pc.g);
      WroteSnoc(w.log, from, NamespaceStory(cmd), v.log[|w.log|], SaveOf(pc.g.id, Pending));
      StartTells(cmd, pc.g, a.at);
    } else {
      BreaksOff(cmd, v.log, from, answers + [a], pc.g.id);
    }
  }

  lemma StorySearch(w: World, cmd: Cmd, pc: Pc, a: Answer, from: nat, answers: seq<Answer>)
    requires TableOk(w.store) && InHand(cmd, pc) && Possible(w, cmd, pc, a) && Agg(pc).None?
    requires Story(cmd, w.log, from, pc, answers)
    ensures Story(cmd, Advance(w, cmd, pc, a).0.log, from, Advance(w, cmd, pc, a).1, answers + [a])
  {
    var v := Advance(w, cmd, pc, a).0;
    match pc
    case Find =>
      BreaksOff(cmd, v.log, from, answers + [a], 0);
      if a.Hit? { StartTells(cmd, Load(w.store[a.id]), a.at); }
    case UninstallHelm =>
      var e := HelmUninstalled(cmd.name, cmd.namespace, cmd.dryRun, a.Ok?);
      WroteSnoc(w.log, from, [], e, UninstallStory(cmd, a.Ok?));
    case UninstallFind =>
    case UninstallDelete(id) =>
      WroteSnoc(w.log, from, [UninstallStory(cmd, true)], Deleted(id), Just(Deleted(id)));
      assert (answers + [a])[1] == answers[1] && (answers + [a])[2] == a;
      assert ForgetStory(cmd, id, false) == [UninstallStory(cmd, true)];
  }

  lemma StoryStarted(w: World, cmd: Cmd, g: State, a: Answer, from: nat, answers: seq<Answer>)
    requires TableOk(w.store) && InHand(cmd, SaveStarted(g)) && Possible(w, cmd, SaveStarted(g), a)
    requires Story(cmd, w.log, from, SaveStarted(g), answers)
    ensures Story(cmd, Advance(w, cmd, SaveStarted(g), a).0.log, from, Advance(w, cmd, SaveStarted(g), a).1,
                  answers + [a])
  {
    var v := Advance(w, cmd, SaveStarted(g), a).0;
    if a.Ok? {
      SaveBeat(w, g);
      var before := if cmd.Install? then NamespaceStory(cmd) + [SaveOf(g.id, Pending)] else [];
      WroteSnoc(w.log, from, before, v.log[|w.log|], SaveOf(g.id, g.status));
      assert before + [SaveOf(g.id, g.status)] == StartStory(cmd, g.id);
    } else {
      BreaksOff(cmd, v.log, from, answers + [a], g.id);
    }
  }

  lemma StoryFailed(w: World, cmd: Cmd, g: State, a: Answer, from: nat, answers: seq<Answer>)
    requires TableOk(w.store) && InHand(cmd, SaveFailed(g)) && Possible(w, cmd, SaveFailed(g), a)
    requires Story(cmd, w.log, from, SaveFailed(g), answers)
    ensures Story(cmd, Advance(w, cmd, SaveFailed(g), a).0.log, from, Advance(w, cmd, SaveFailed(g), a).1,
                  answers + [a])
  {
    var before := StartStory(cmd, g.id) + [HelmStory(cmd, g.id, false)];
    assert FailureStory(cmd, g.id, "", false, false) == before;
    if a.Ok? {
      SaveBeat(w, g);
      WroteSnoc(w.log, from, before, Saved(Upsert(w.store, g)[g.id]), SaveOf(g.id, Failed));
      assert FailureStory(cmd, g.id, "", true, false) == before + [SaveOf(g.id, Failed)];
    }
    assert ReasonAt(answers + [a], 1) == ReasonAt(answers, 0);
  }

  lemma StoryDone(w: World, cmd: Cmd, g: State, rev: int, a: Answer, from: nat, answers: seq<Answer>)
    requires TableOk(w.store) && InHand(cmd, SaveDone(g, rev)) && Possible(w, cmd, SaveDone(g, rev), a)
    requires Story(cmd, w.log, from, SaveDone(g, rev), answers)
    ensures Story(cmd, Advance(w, cmd, SaveDone(g, rev), a).0.log, from, Advance(w, cmd, SaveDone(g, rev), a).1,
                  answers + [a])
  {
    if a.Ok? {
      SaveBeat(w, g);
      var before := StartStory(cmd, g.id) + [HelmStory(cmd, g.id, true)];
      WroteSnoc(w.log, from, before, Saved(Upsert(w.store, g)[g.id]), SaveOf(g.id, g.status));
      assert SuccessStory(cmd, g.id, rev, false) == before + [SaveOf(g.id, g.status)];
    } else {
      assert ErrorEnding(cmd, w.log, from, answers + [a], g.id);
    }
  }

  /** The events of the aggregate after Helm answered. */
  lemma HelmTells(cmd: Cmd, g: State, a: Answer)
    requires InHand(cmd, CallHelm(g)) && !cmd.Uninstall? && !a.Hit? && g.events == StartEvents(cmd, g.id)
    ensures var qc := AfterHelm(cmd, g, a);
      && !qc.Returned? && qc.g.id == g.id
      && qc.g.events == g.events +
        [if a.Fault? then FailureEvent(cmd, g.id, a.reason) else DoneEvent(cmd, g.id, a.revision)]
      && if a.Fault? then qc.SaveFailed? else qc.SaveDone? && qc.revision == a.revision
  {}

  lemma StoryHelm(w: World, cmd: Cmd, g: State, a: Answer, from: nat, answers: seq<Answer>)
    requires InHand(cmd, CallHelm(g)) && Possible(w, cmd, CallHelm(g), a)
    requires Story(cmd, w.log, from, CallHelm(g), answers)
    ensures Story(cmd, Advance(w, cmd, CallHelm(g), a).0.log, from, Advance(w, cmd, CallHelm(g), a).1, answers + [a])
  {
    HelmTells(cmd, g, a);
    WroteSnoc(w.log, from, StartStory(cmd, g.id), HelmCall(g.id, RequestOf(cmd), a.Ok?), HelmStory(cmd, g.id, a.Ok?));
    if a.Fault? {
      assert FailureStory(cmd, g.id, "", false, false) == StartStory(cmd, g.id) + [HelmStory(cmd, g.id, false)];
      assert ReasonAt(answers + [a], 0) == a.reason;
    }
  }

  lemma StoryPublishFailed(w: World, cmd: Cmd, g: State, a: Answer, from: nat, answers: seq<Answer>)
    requires InHand(cmd, PublishFailed(g)) && Possible(w, cmd, PublishFailed(g), a)
    requires Story(cmd, w.log, from, PublishFailed(g), answers)
    ensures Story(cmd, Advance(w, cmd, PublishFailed(g), a).0.log, from, Returned(Error), answers + [a])
  {
    var e, reason, saved := Published(g.events), ReasonAt(answers, 1), SavedAnswer(answers, 0);
    var before := FailureStory(cmd, g.id, "", saved, false);
    assert FailureStory(cmd, g.id, reason, saved, false) == before;
    assert FailureStory(cmd, g.id, reason, saved, true) == before + [Just(e)];
    WroteSnoc(w.log, from, before, e, Just(e));
    assert ReasonAt(answers + [a], 2) == reason && SavedAnswer(answers + [a], 1) == saved;
    assert SavedAnswer(answers + [a], 0) == a.Ok?;
    FailureEnds(cmd, Advance(w, cmd, PublishFailed(g), a).0.log, from, answers + [a], g.id);
  }

  lemma FailureEnds(cmd: Cmd, log: seq<Effect>, from: nat, answers: seq<Answer>, id: ID)
    requires !cmd.Uninstall?
    requires Wrote(log, from,
                   FailureStory(cmd, id, ReasonAt(answers, 2), SavedAnswer(answers, 1), SavedAnswer(answers, 0)))
    ensures Ending(cmd, log, from, Error, answers)
  {
    assert ErrorEnding(cmd, log, from, answers, id);
  }

  lemma StoryPublishDone(w: World, cmd: Cmd, g: State, rev: int, a: Answer, from: nat, answers: seq<Answer>)
    requires InHand(cmd, PublishDone(g, rev)) && Possible(w, cmd, PublishDone(g, rev), a)
    requires Story(cmd, w.log, from, PublishDone(g, rev), answers)
    ensures Story(cmd, Advance(w, cmd, PublishDone(g, rev), a).0.log, from, Returned(Success(g.id, rev)), answers + [a])
  {
    var before, e := SuccessStory(cmd, g.id, rev, false), Published(g.events);
    assert SuccessStory(cmd, g.id, rev, true) == before + [Just(e)];
    WroteSnoc(w.log, from, before, e, Just(e));
  }

  lemma StoryStep(w: World, cmd: Cmd, pc: Pc, a: Answer, from: nat, answers: seq<Answer>)
    requires TableOk(w.store) && InHand(cmd, pc) && Possible(w, cmd, pc, a)
    requires Story(cmd, w.log, from, pc, answers)
    ensures Story(cmd, Advance(w, cmd, pc, a).0.log, from, Advance(w, cmd, pc, a).1, answers + [a])
  {
    match pc
    case EnsureNamespace(_) | SaveInitial(_) => StoryUnborn(w, cmd, pc, a, from, answers);
    case SaveStarted(g) => StoryStarted(w, cmd, g, a, from, answers);
    case CallHelm(g) => StoryHelm(w, cmd, g, a, from, answers);
    case SaveFailed(g) => StoryFailed(w, cmd, g, a, from, answers);
    case PublishFailed(g) => StoryPublishFailed(w, cmd, g, a, from, answers);
    case SaveDone(g, rev) => StoryDone(w, cmd, g, rev, a, from, answers);
    case PublishDone(g, rev) => StoryPublishDone(w, cmd, g, rev, a, from, answers);
    case _ => StorySearch(w, cmd, pc, a, from, answers);
  }

  lemma InHandAfter(w0: World, x: Session)
    requires StoreOk(w0) && SessionAfter(w0, x).Some?
    ensures var (v, qc) := SessionAfter(w0, x).value;
      TableOk(v.store) && InHand(x.cmd, qc)
  {
    var w, pc := Opened(w0, x.cmd, x.id), Begin(x.cmd, x.semver, x.id, x.now);
    CallStart(w0, x);
    CallInvHolds(w0, w, x.cmd, pc, x.answers);
    var (v, qc) := SessionAfter(w0, x).value;
    CallHasInHand(w0, x.cmd, v, qc);
  }

  /** The story so far of a session. */
  ghost predicate StoryOf(w0: World, x: Session) {
    var r := SessionAfter(w0, x);
    r.Some? && Fits(x.cmd, r.value.1) && Story(x.cmd, r.value.0.log, |w0.log|, r.value.1, x.answers)
  }

  lemma StoryOn(w0: World, x: Session, y: Session, a: Answer)
    requires StoreOk(w0) && StoryOf(w0, x) && y == x.(answers := x.answers + [a]) && SessionAfter(w0, y).Some?
    ensures StoryOf(w0, y)
  {
    var (v, qc) := SessionAfter(w0, x).value;
    InHandAfter(w0, x);
    assert y.answers[..|y.answers| - 1] == x.answers;
    assert SessionAfter(w0, y) == Some(Advance(v, x.cmd, qc, a));
    StoryStep(v, x.cmd, qc, a, |w0.log|, x.answers);
  }

  lemma {:induction false} StoryHolds(w0: World, x: Session)
    requires StoreOk(w0) && SessionAfter(w0, x).Some?
    ensures StoryOf(w0, x)
    decreases |x.answers|
  {
    if x.answers == [] {
      StoryBegins(w0, x);
    } else {
      var front := x.(answers := x.answers[..|x.answers| - 1]);
      StoryHolds(w0, front);
      assert x.answers == front.answers + [x.answers[|x.answers| - 1]];
      StoryOn(w0, front, x, x.answers[|x.answers| - 1]);
    }
  }

  // ---- the result ----

  /** The effects of a call that replied are exactly those of its story: on success its saves, the Helm
      request, the final save and, if the publisher took them, its events; on an error nothing beyond
      the point where it broke off; of an uninstall the Helm request and the deletion of the row found. Every
      value in them is the command's, the revision or the reason Helm gave, or the id. */
  lemma CallsFollowTheirStory(w0: World, x: Session)
    requires StoreOk(w0) && SessionAfter(w0, x).Some? && SessionAfter(w0, x).value.1.Returned?
    ensures var (w, pc) := SessionAfter(w0, x).value;
      Ending(x.cmd, w.log, |w0.log|, pc.reply, x.answers)
  {
    StoryHolds(w0, x);
  }
}

// Reading the published events back into the store: when do they say the same as the rows?
module Projection {
  import opened Options
  import opened Deployments
  import opened AggregateRuns
  import opened Store
  import opened Machine
  import opened Interleaving
  import opened Mirroring
  import opened Sequential

  /** `es` begins with the creation of a deployment and rebuilds exactly view `v`, up to the chart
      columns that are frozen in the store. */
  predicate Tells(es: seq<Event>, v: View) {
    && es != [] && es[0].Created?
    && Replay(None, es).Some? && Like(Replay(None, es).value, v)
  }

  /** The published events of a stored deployment rebuild its row's status, version, history and
      chart version, and the row's chart name, repo and source are those of the Created event. */
  predicate InSync(w: World, id: ID)
    requires id in w.store
  {
    var es := EventsFor(w.log, id);
    Tells(es, RowView(w.store[id])) && SameSource(es[0].chart, w.store[id].chart)
  }

  ghost predicate AllInSync(w: World) {
    forall id | id in w.store :: InSync(w, id)
  }

  /** A fault that loses the agreement: what was stored or published cannot be matched any more.
      A failed rollback of a FAILED deployment may go unpublished, since it stays FAILED. */
  predicate Harmful(w0: World, cmd: Cmd, pc: Pc, a: Answer) {
    a.Fault? &&
    match pc
    case SaveStarted(_) => cmd.Install?
    case SaveFailed(_) => true
    case SaveDone(_, _) => true
    case PublishDone(_, _) => true
    case PublishFailed(g) => !(g.id in w0.store && w0.store[g.id].status == Failed)
    case _ => false
  }

  /** Some port answered with a harmful fault. */
  predicate Harmed(w0: World, w: World, cmd: Cmd, pc: Pc, answers: seq<Answer>) {
    answers != [] &&
    var front := answers[..|answers| - 1];
    (Harmed(w0, w, cmd, pc, front) ||
     (var m := CallAfter(w, cmd, pc, front);
      m.Some? && Harmful(w0, cmd, m.value.1, answers[|answers| - 1])))
  }

  predicate SessionHarmed(w: World, x: Session) {
    CanOpen(w, x) && Harmed(w, Opened(w, x.cmd, x.id), x.cmd, Begin(x.cmd, x.semver, x.id, x.now), x.answers)
  }

  // ---- following one call ----

  ghost predicate NothingPublished(w0: World, w: World) {
    forall id :: EventsFor(w.log, id) == EventsFor(w0.log, id)
  }

  /** Everything said so far about the aggregate: what is published and what is still pending. */
  function Said(w: World, g: State): seq<Event> {
    EventsFor(w.log, g.id) + g.events
  }

  /** Published and pending events together tell the aggregate, and the stored row, if there is one
      yet, came from the deployment they created. */
  ghost predicate Traced(w: World, g: State) {
    && AllFor(g.events, g.id) && Tells(Said(w, g), ViewOf(g))
    && (g.id in w.store ==> SameSource(Said(w, g)[0].chart, w.store[g.id].chart))
  }

  /** They tell the whole chart reference, too. */
  predicate Exact(w: World, g: State) {
    Replay(None, Said(w, g)).Some? && Replay(None, Said(w, g)).value.chart == g.chart
  }

  /** What is said is in step with the aggregate of a call that found the world as `w0`. */
  ghost predicate Followed(w0: World, cmd: Cmd, w: World, g: State) {
    && Traced(w, g) && (!cmd.Rollback? ==> Exact(w, g))
    && (cmd.Install? ==>
      EventsFor(w0.log, g.id) == [] && g.events != [] && g.events[0].Created? && SameSource(g.events[0].chart, g.chart))
  }

  ghost predicate CallSync(w0: World, cmd: Cmd, w: World, pc: Pc, harmed: bool) {
    match pc
    case Returned(_) => AllInSync(w) <==> !harmed
    case PublishFailed(g) => NothingPublished(w0, w) && Followed(w0, cmd, w, g)
      && g.id in w.store && w.store[g.id].status == if harmed then StartedStatus(cmd) else Failed
    case _ => NothingPublished(w0, w) && !harmed && (Agg(pc).Some? ==> Followed(w0, cmd, w, Agg(pc).value))
  }

  // ---- one transition of the aggregate ----

  predicate Lifecycle(op: Op) {
    !op.Drain? && !op.SetLabel? && !op.SetAnnotation?
  }

  lemma ReplaySnoc(es: seq<Event>, e: Event)
    ensures Replay(None, es + [e]) == Interpret(Replay(None, es), e)
  {
    assert (es + [e])[..|es|] == es;
  }

  lemma RecordsOne(g: State, op: Op) returns (e: Event)
    requires Accepts(g, op) && Lifecycle(op)
    ensures EventsOf(g, op) == [e] && e.id == g.id && !e.Created?
    ensures Step(g, op).events == g.events + [e] && Step(g, op).id == g.id
    ensures Interpret(Some(ViewOf(g)), e) == Some(ViewOf(Step(g, op)))
  {
    e := EventsOf(g, op)[0];
    StepMatchesEvents(g, op);
    ReplayOne(Some(ViewOf(g)), e);
  }

  /** Interpreting an event does not depend on the frozen chart columns, except for a success, which
      copies the chart into the history. */
  lemma InterpretLike(v: View, u: View, e: Event)
    requires Like(v, u) && !e.Created? && (e.SucceededEvent? ==> v.chart == u.chart)
    ensures Like(Interpret(Some(v), e).value, Interpret(Some(u), e).value)
    ensures v.chart == u.chart || e.UpgradeStarted? ==>
      Interpret(Some(v), e).value.chart == Interpret(Some(u), e).value.chart
  {}

  /** A command keeps what was said in step with the aggregate, if it does not disturb the world. */
  lemma TracedStep(w: World, v: World, g: State, op: Op)
    requires AllFor(g.events, g.id) && Tells(Said(w, g), ViewOf(g))
    requires Accepts(g, op) && Lifecycle(op) && (op.MarkSucceeded? ==> Exact(w, g))
    requires EventsFor(v.log, g.id) == EventsFor(w.log, g.id)
    requires g.id in v.store ==> SameSource(Said(w, g)[0].chart, v.store[g.id].chart)
    ensures Traced(v, Step(g, op)) && (Exact(w, g) || op.StartUpgrade? ==> Exact(v, Step(g, op)))
    ensures Step(g, op).id == g.id && (g.events != [] ==> Step(g, op).events[0] == g.events[0])
  {
    var e := RecordsOne(g, op);
    assert Said(v, Step(g, op)) == Said(w, g) + [e];
    ReplaySnoc(Said(w, g), e);
    InterpretLike(Replay(None, Said(w, g)).value, ViewOf(g), e);
  }

  /** Saving does not disturb it either. */
  lemma TracedSave(w: World, g: State)
    requires Traced(w, g)
    requires g.id !in w.store ==> SameSource(Said(w, g)[0].chart, g.chart)
    ensures Traced(Save(w, g), g) && (Exact(w, g) ==> Exact(Save(w, g), g))
    ensures forall id :: EventsFor(Save(w, g).log, id) == EventsFor(w.log, id)
    ensures g.id in Save(w, g).store && SameSource(Said(w, g)[0].chart, Save(w, g).store[g.id].chart)
  {
    var e := Saved(Upsert(w.store, g)[g.id]);
    forall id ensures EventsFor(w.log + [e], id) == EventsFor(w.log, id) { LogSnoc(w.log, e, id); }
  }

  // ---- the rows of other deployments ----

  lemma OthersInSync(w0: World, w: World, id: ID)
    requires AllInSync(w0) && Untouched(w0, w, id)
    requires forall i | i != id :: EventsFor(w.log, i) == EventsFor(w0.log, i)
    ensures AllInSync(w) <==> (id in w.store ==> InSync(w, id))
  {
    forall i | i in w.store && i != id ensures InSync(w, i) { assert InSync(w0, i); }
  }

  lemma SameStoreInSync(w0: World, w: World)
    requires AllInSync(w0) && w.store == w0.store && NothingPublished(w0, w)
    ensures AllInSync(w)
  {
    OthersInSync(w0, w, 0);
    if 0 in w.store { assert InSync(w0, 0); }
  }

  /** A row whose status moved while nothing was published is out of sync. */
  lemma SilentMove(w0: World, w: World, id: ID)
    requires AllInSync(w0) && Untouched(w0, w, id) && NothingPublished(w0, w)
    requires id in w.store
    requires if id in w0.store then w.store[id].status != w0.store[id].status else EventsFor(w0.log, id) == []
    ensures !AllInSync(w)
  {
    if id in w0.store { assert InSync(w0, id); }
    assert !InSync(w, id);
  }

  // ---- one step of a call ----

  lemma SyncNamespace(w0: World, cmd: Cmd, w: World, g: State, a: Answer)
    requires AllInSync(w0) && w.store == w0.store && NothingPublished(w0, w) && Followed(w0, cmd, w, g)
    requires Possible(w, cmd, EnsureNamespace(g), a)
    ensures CallSync(w0, cmd, Advance(w, cmd, EnsureNamespace(g), a).0, Advance(w, cmd, EnsureNamespace(g), a).1, false)
  {
    var e := NamespaceEnsured(cmd.namespace, a.Ok?);
    forall id ensures EventsFor(w.log + [e], id) == EventsFor(w.log, id) { LogSnoc(w.log, e, id); }
    SameStoreInSync(w0, Log(w, e));
  }

  lemma SyncSaveInitial(w0: World, cmd: Cmd, w: World, g: State, a: Answer)
    requires AllInSync(w0) && w.store == w0.store && NothingPublished(w0, w) && Followed(w0, cmd, w, g)
    requires g.status == Pending && Possible(w, cmd, SaveInitial(g), a)
    ensures CallSync(w0, cmd, Advance(w, cmd, SaveInitial(g), a).0, Advance(w, cmd, SaveInitial(g), a).1, false)
  {
    if a.Fault? {
      SameStoreInSync(w0, w);
    } else {
      TracedSave(w, g);
      TracedStep(Save(w, g), Save(w, g), g, StartOp(cmd, a.at));
    }
  }

  lemma SyncStepUnborn(w0: World, cmd: Cmd, w: World, pc: Pc, a: Answer)
    requires AllInSync(w0) && CallInv(w0, cmd, w, pc) && CallSync(w0, cmd, w, pc, false)
    requires Possible(w, cmd, pc, a) && Unborn(pc)
    ensures CallSync(w0, cmd, Advance(w, cmd, pc, a).0, Advance(w, cmd, pc, a).1, Harmful(w0, cmd, pc, a))
  {
    if pc.EnsureNamespace? {
      SyncNamespace(w0, cmd, w, pc.g, a);
    } else {
      SyncSaveInitial(w0, cmd, w, pc.g, a);
    }
  }

  lemma SyncFind(w0: World, cmd: Cmd, w: World, a: Answer)
    requires StoreOk(w0) && AllInSync(w0) && w.store == w0.store && NothingPublished(w0, w)
    requires Possible(w, cmd, Find, a)
    ensures CallSync(w0, cmd, Advance(w, cmd, Find, a).0, Advance(w, cmd, Find, a).1, false)
  {
    SameStoreInSync(w0, w);
    if a.Hit? {
      var g := Load(w.store[a.id]);
      assert RowOk(w0, a.id) && InSync(w0, a.id);
      assert Said(w, g) == EventsFor(w.log, a.id);
      assert ViewOf(g) == RowView(w.store[a.id]);
      var op := StartOp(cmd, a.at);
      if Accepts(g, op) { TracedStep(w, w, g, op); }
    }
  }

  lemma SyncUninstalled(w0: World, cmd: Cmd, w: World, a: Answer)
    requires AllInSync(w0) && w.store == w0.store && NothingPublished(w0, w)
    requires Possible(w, cmd, UninstallHelm, a)
    ensures CallSync(w0, cmd, Advance(w, cmd, UninstallHelm, a).0, Advance(w, cmd, UninstallHelm, a).1, false)
  {
    var e := HelmUninstalled(cmd.name, cmd.namespace, cmd.dryRun, a.Ok?);
    forall id ensures EventsFor(w.log + [e], id) == EventsFor(w.log, id) { LogSnoc(w.log, e, id); }
    SameStoreInSync(w0, Log(w, e));
  }

  lemma SyncDeleted(w0: World, cmd: Cmd, w: World, id: ID, a: Answer)
    requires AllInSync(w0) && w.store == w0.store && NothingPublished(w0, w)
    requires Possible(w, cmd, UninstallDelete(id), a)
    ensures CallSync(w0, cmd, Advance(w, cmd, UninstallDelete(id), a).0, Advance(w, cmd, UninstallDelete(id), a).1,
                     false)
  {
    SameStoreInSync(w0, w);
    if a.Ok? {
      forall i ensures EventsFor(w.log + [Deleted(id)], i) == EventsFor(w.log, i) { LogSnoc(w.log, Deleted(id), i); }
      OthersInSync(w0, Advance(w, cmd, UninstallDelete(id), a).0, id);
    }
  }

  lemma SyncStepSearch(w0: World, cmd: Cmd, w: World, pc: Pc, a: Answer)
    requires StoreOk(w0) && AllInSync(w0) && CallInv(w0, cmd, w, pc) && CallSync(w0, cmd, w, pc, false)
    requires Possible(w, cmd, pc, a) && Agg(pc).None?
    ensures CallSync(w0, cmd, Advance(w, cmd, pc, a).0, Advance(w, cmd, pc, a).1, Harmful(w0, cmd, pc, a))
  {
    match pc
    case Find => SyncFind(w0, cmd, w, a);
    case UninstallHelm => SyncUninstalled(w0, cmd, w, a);
    case UninstallFind => SameStoreInSync(w0, w);
    case UninstallDelete(id) => SyncDeleted(w0, cmd, w, id, a);
  }

  lemma SyncStepHelm(w0: World, cmd: Cmd, w: World, g: State, a: Answer)
    requires Followed(w0, cmd, w, g) && NothingPublished(w0, w) && g.status == StartedStatus(cmd)
    requires Possible(w, cmd, CallHelm(g), a)
    ensures CallSync(w0, cmd, Advance(w, cmd, CallHelm(g), a).0, Advance(w, cmd, CallHelm(g), a).1, false)
  {
    var op := if a.Fault? then MarkFailed(a.reason, a.at) else FinishOp(cmd, a.revision, a.at, a.later);
    FollowedStep(w0, cmd, w, g, op, HelmCall(g.id, RequestOf(cmd), a.Ok?));
  }

  lemma FollowedStep(w0: World, cmd: Cmd, w: World, g: State, op: Op, e: Effect)
    requires Followed(w0, cmd, w, g) && NothingPublished(w0, w) && !e.Published?
    requires Accepts(g, op) && (op.MarkFailed? || op.MarkRolledBack? || (op.MarkSucceeded? && !cmd.Rollback?))
    ensures Followed(w0, cmd, Log(w, e), Step(g, op)) && NothingPublished(w0, Log(w, e))
  {
    forall id ensures EventsFor(w.log + [e], id) == EventsFor(w.log, id) { LogSnoc(w.log, e, id); }
    TracedStep(w, Log(w, e), g, op);
  }

  lemma FollowedSave(w0: World, cmd: Cmd, w: World, g: State)
    requires Followed(w0, cmd, w, g) && NothingPublished(w0, w) && g.id in w.store
    ensures Followed(w0, cmd, Save(w, g), g) && NothingPublished(w0, Save(w, g))
  {
    TracedSave(w, g);
  }

  /** A call between its first save and the save after Helm left a row that nothing published tells. */
  lemma StartedDisagrees(w0: World, cmd: Cmd, w: World, pc: Pc)
    requires AllInSync(w0) && CallInv(w0, cmd, w, pc) && CallSync(w0, cmd, w, pc, false)
    requires (pc.SaveStarted? && cmd.Install?) || pc.CallHelm? || pc.SaveFailed? || pc.SaveDone?
    ensures !AllInSync(w)
  {
    SilentMove(w0, w, pc.g.id);
  }

  lemma UnharmedSoFar(w0: World, cmd: Cmd, w: World, pc: Pc, harmed: bool)
    requires CallSync(w0, cmd, w, pc, harmed) && !pc.Returned? && !pc.PublishFailed?
    ensures NothingPublished(w0, w) && !harmed
  {}

  lemma SyncSaveStarted(w0: World, cmd: Cmd, w: World, g: State, a: Answer)
    requires AllInSync(w0) && CallInv(w0, cmd, w, SaveStarted(g)) && CallSync(w0, cmd, w, SaveStarted(g), false)
    requires Possible(w, cmd, SaveStarted(g), a)
    ensures CallSync(w0, cmd, Advance(w, cmd, SaveStarted(g), a).0, Advance(w, cmd, SaveStarted(g), a).1,
                     Harmful(w0, cmd, SaveStarted(g), a))
  {
    if a.Ok? { FollowedSave(w0, cmd, w, g); }
    else if cmd.Install? { StartedDisagrees(w0, cmd, w, SaveStarted(g)); }
    else { SameStoreInSync(w0, w); }
  }

  lemma SyncSaveFailed(w0: World, cmd: Cmd, w: World, g: State, a: Answer)
    requires CallInv(w0, cmd, w, SaveFailed(g)) && CallSync(w0, cmd, w, SaveFailed(g), false)
    requires TableOk(w.store) && Possible(w, cmd, SaveFailed(g), a)
    ensures CallSync(w0, cmd, Advance(w, cmd, SaveFailed(g), a).0, Advance(w, cmd, SaveFailed(g), a).1,
                     Harmful(w0, cmd, SaveFailed(g), a))
  {
    if a.Ok? {
      FollowedSave(w0, cmd, w, g);
      SaveMirrors(w, g);
    }
  }

  lemma SyncSaveDone(w0: World, cmd: Cmd, w: World, g: State, rev: int, a: Answer)
    requires AllInSync(w0) && CallInv(w0, cmd, w, SaveDone(g, rev)) && CallSync(w0, cmd, w, SaveDone(g, rev), false)
    requires Possible(w, cmd, SaveDone(g, rev), a)
    ensures CallSync(w0, cmd, Advance(w, cmd, SaveDone(g, rev), a).0, Advance(w, cmd, SaveDone(g, rev), a).1,
                     Harmful(w0, cmd, SaveDone(g, rev), a))
  {
    if a.Ok? { FollowedSave(w0, cmd, w, g); } else { StartedDisagrees(w0, cmd, w, SaveDone(g, rev)); }
  }

  /** Publishing the buffer brings the log in step with a row that mirrors the aggregate, and only
      with such a row. */
  lemma PublishSyncs(w0: World, w: World, g: State)
    requires AllInSync(w0) && Untouched(w0, w, g.id) && NothingPublished(w0, w) && Traced(w, g)
    requires g.id in w.store && w.store[g.id].id == g.id && Matches(w.store[g.id], g.name, g.namespace)
    requires Mirrors(w.store[g.id], g) || w.store[g.id].status != g.status
    ensures AllInSync(Log(w, Published(g.events))) <==> Mirrors(w.store[g.id], g)
  {
    var e, v := Published(g.events), Log(w, Published(g.events));
    forall id ensures EventsFor(v.log, id) == EventsFor(w.log, id) + if id == g.id then g.events else [] {
      LogSnoc(w.log, e, id);
      OnlySame(g.events, g.id, id);
    }
    OthersInSync(w0, v, g.id);
    assert EventsFor(v.log, g.id) == Said(w, g);
  }

  /** Before publication the row mirrors the aggregate, unless the save of a failure was lost. */
  lemma RowBeforePublication(w0: World, cmd: Cmd, w: World, pc: Pc, harmed: bool)
    requires CallInv(w0, cmd, w, pc) && CallSync(w0, cmd, w, pc, harmed)
    requires pc.PublishFailed? || pc.PublishDone?
    ensures Untouched(w0, w, pc.g.id) && NothingPublished(w0, w) && Traced(w, pc.g)
    ensures pc.g.id in w.store && w.store[pc.g.id].id == pc.g.id
    ensures Matches(w.store[pc.g.id], pc.g.name, pc.g.namespace)
    ensures if harmed then w.store[pc.g.id].status != pc.g.status else Mirrors(w.store[pc.g.id], pc.g)
  {}

  /** The last step of a call: its reply leaves rows and events as the publication or its loss did. */
  lemma LastStep(w0: World, cmd: Cmd, w: World, pc: Pc, a: Answer, harmed: bool)
    requires Possible(w, cmd, pc, a) && (pc.PublishFailed? || pc.PublishDone?)
    requires a.Ok? ==> (AllInSync(Log(w, Published(pc.g.events))) <==> !harmed)
    requires a.Fault? ==>
      (AllInSync(w) <==> !harmed && pc.PublishFailed? && pc.g.id in w0.store && w0.store[pc.g.id].status == Failed)
    ensures CallSync(w0, cmd, Advance(w, cmd, pc, a).0, Advance(w, cmd, pc, a).1, harmed || Harmful(w0, cmd, pc, a))
  {}

  lemma SyncStepPublish(w0: World, cmd: Cmd, w: World, pc: Pc, a: Answer, harmed: bool)
    requires StoreOk(w0) && AllInSync(w0) && CallInv(w0, cmd, w, pc) && CallSync(w0, cmd, w, pc, harmed)
    requires Possible(w, cmd, pc, a) && (pc.PublishFailed? || pc.PublishDone?)
    ensures CallSync(w0, cmd, Advance(w, cmd, pc, a).0, Advance(w, cmd, pc, a).1, harmed || Harmful(w0, cmd, pc, a))
  {
    PublicationSyncs(w0, cmd, w, pc, harmed);
    UnpublishedRow(w0, cmd, w, pc, harmed);
    LastStep(w0, cmd, w, pc, a, harmed);
  }

  lemma PublicationSyncs(w0: World, cmd: Cmd, w: World, pc: Pc, harmed: bool)
    requires AllInSync(w0) && CallInv(w0, cmd, w, pc) && CallSync(w0, cmd, w, pc, harmed)
    requires pc.PublishFailed? || pc.PublishDone?
    ensures AllInSync(Log(w, Published(pc.g.events))) <==> !harmed
  {
    RowBeforePublication(w0, cmd, w, pc, harmed);
    PublishSyncs(w0, w, pc.g);
  }

  /** A row saved without a word agrees with the old events exactly if it moved in nothing they tell. */
  lemma SilentRow(w0: World, w: World, id: ID)
    requires AllInSync(w0) && Untouched(w0, w, id) && NothingPublished(w0, w)
    requires id in w0.store && id in w.store && Kept(w0, w, id)
    ensures AllInSync(w) <==>
      && w.store[id].status == w0.store[id].status && w.store[id].version == w0.store[id].version
      && PastOf(w.store[id].history) == PastOf(w0.store[id].history)
      && w.store[id].chart.version == w0.store[id].chart.version
  {
    OthersInSync(w0, w, id);
    assert InSync(w0, id);
    assert Like(Replay(None, EventsFor(w.log, id)).value, RowView(w0.store[id]));
  }

  /** What an unpublished call leaves. */
  lemma UnpublishedRow(w0: World, cmd: Cmd, w: World, pc: Pc, harmed: bool)
    requires StoreOk(w0) && AllInSync(w0) && CallInv(w0, cmd, w, pc) && CallSync(w0, cmd, w, pc, harmed)
    requires pc.PublishFailed? || pc.PublishDone?
    ensures AllInSync(w) <==>
      !harmed && pc.PublishFailed? && pc.g.id in w0.store && w0.store[pc.g.id].status == Failed
  {
    var id := pc.g.id;
    if id in w0.store {
      assert RowOk(w0, id);
      SilentRow(w0, w, id);
    } else {
      SilentMove(w0, w, id);
    }
  }

  // ---- whole calls and whole histories ----

  lemma SyncStep(w0: World, cmd: Cmd, w: World, pc: Pc, a: Answer, harmed: bool)
    requires StoreOk(w0) && TableOk(w.store) && AllInSync(w0)
    requires CallInv(w0, cmd, w, pc) && CallSync(w0, cmd, w, pc, harmed) && Possible(w, cmd, pc, a)
    ensures CallSync(w0, cmd, Advance(w, cmd, pc, a).0, Advance(w, cmd, pc, a).1, harmed || Harmful(w0, cmd, pc, a))
  {
    if pc.PublishFailed? || pc.PublishDone? {
      SyncStepPublish(w0, cmd, w, pc, a, harmed);
    } else {
      UnharmedSoFar(w0, cmd, w, pc, harmed);
      SyncStepEarly(w0, cmd, w, pc, a);
    }
  }

  lemma SyncStepEarly(w0: World, cmd: Cmd, w: World, pc: Pc, a: Answer)
    requires StoreOk(w0) && TableOk(w.store) && AllInSync(w0) && !pc.PublishFailed? && !pc.PublishDone?
    requires CallInv(w0, cmd, w, pc) && CallSync(w0, cmd, w, pc, false) && Possible(w, cmd, pc, a)
    ensures CallSync(w0, cmd, Advance(w, cmd, pc, a).0, Advance(w, cmd, pc, a).1, Harmful(w0, cmd, pc, a))
  {
    if Agg(pc).None? { SyncStepSearch(w0, cmd, w, pc, a); }
    else if Unborn(pc) { SyncStepUnborn(w0, cmd, w, pc, a); }
    else { SyncStepCommit(w0, cmd, w, pc, a); }
  }

  lemma SyncStepCommit(w0: World, cmd: Cmd, w: World, pc: Pc, a: Answer)
    requires StoreOk(w0) && TableOk(w.store) && AllInSync(w0)
    requires CallInv(w0, cmd, w, pc) && CallSync(w0, cmd, w, pc, false) && Possible(w, cmd, pc, a)
    requires pc.CallHelm? || pc.SaveStarted? || pc.SaveFailed? || pc.SaveDone?
    ensures CallSync(w0, cmd, Advance(w, cmd, pc, a).0, Advance(w, cmd, pc, a).1, Harmful(w0, cmd, pc, a))
  {
    if pc.CallHelm? { SyncStepHelm(w0, cmd, w, pc.g, a); }
    else if pc.SaveStarted? { SyncSaveStarted(w0, cmd, w, pc.g, a); }
    else if pc.SaveFailed? { SyncSaveFailed(w0, cmd, w, pc.g, a); }
    else { SyncSaveDone(w0, cmd, w, pc.g, pc.revision, a); }
  }

  lemma {:induction false} CallSyncHolds(w0: World, w: World, cmd: Cmd, pc: Pc, answers: seq<Answer>)
    requires StoreOk(w0) && AllInSync(w0) && TableOk(w.store)
    requires CallInv(w0, cmd, w, pc) && CallSync(w0, cmd, w, pc, false) && CallAfter(w, cmd, pc, answers).Some?
    ensures var (v, qc) := CallAfter(w, cmd, pc, answers).value;
      CallSync(w0, cmd, v, qc, Harmed(w0, w, cmd, pc, answers))
    decreases |answers|
  {
    if answers != [] {
      var front, a := answers[..|answers| - 1], answers[|answers| - 1];
      CallSyncHolds(w0, w, cmd, pc, front);
      CallInvHolds(w0, w, cmd, pc, front);
      var (v, qc) := CallAfter(w, cmd, pc, front).value;
      SyncStep(w0, cmd, v, qc, a, Harmed(w0, w, cmd, pc, front));
    }
  }

  lemma NewIsFollowed(w0: World, w: World, cmd: Cmd, id: ID, now: Time)
    requires cmd.Install? && id !in w.store && EventsFor(w.log, id) == [] && EventsFor(w0.log, id) == []
    ensures Followed(w0, cmd, w, NewState(id, cmd.name, cmd.namespace, Requested(cmd), cmd.values, now))
  {
    var g := NewState(id, cmd.name, cmd.namespace, Requested(cmd), cmd.values, now);
    var e := g.events[0];
    assert Said(w, g) == [e];
    ReplayOne(None, e);
    assert PastOf([]) == [];
  }

  lemma SyncStart(w0: World, x: Session)
    requires StoreOk(w0) && AllInSync(w0) && CanOpen(w0, x)
    ensures CallSync(w0, x.cmd, Opened(w0, x.cmd, x.id), Begin(x.cmd, x.semver, x.id, x.now), false)
  {
    var w := Opened(w0, x.cmd, x.id);
    SameStoreInSync(w0, w);
    if x.cmd.Install? {
      RowsAreUsed(w0);
      NewIsFollowed(w0, w, x.cmd, x.id, x.now);
    }
  }

  /** Where a call leaves every row told by its events: before its first save, after its reply if no
      fault did harm, and while the failed rollback of a FAILED deployment waits to be published. */
  predicate SafePoint(w0: World, cmd: Cmd, pc: Pc, harmed: bool) {
    match pc
    case Returned(_) => !harmed
    case PublishFailed(g) => !harmed && g.id in w0.store && w0.store[g.id].status == Failed
    case SaveStarted(_) => !cmd.Install?
    case CallHelm(_) | SaveFailed(_) | SaveDone(_, _) | PublishDone(_, _) => false
    case _ => true
  }

  /** A call that has saved nothing yet. */
  predicate Unsaved(cmd: Cmd, pc: Pc) {
    !pc.Returned? && (Agg(pc).None? || Unborn(pc) || (pc.SaveStarted? && !cmd.Install?))
  }

  lemma UnsavedStore(w0: World, cmd: Cmd, w: World, pc: Pc)
    requires CallInv(w0, cmd, w, pc) && Unsaved(cmd, pc)
    ensures w.store == w0.store
  {}

  lemma UnsavedAgrees(w0: World, cmd: Cmd, w: World, pc: Pc, harmed: bool)
    requires AllInSync(w0) && CallInv(w0, cmd, w, pc) && NothingPublished(w0, w) && Unsaved(cmd, pc)
    ensures AllInSync(w) && SafePoint(w0, cmd, pc, harmed)
  {
    UnsavedStore(w0, cmd, w, pc);
    SameStoreInSync(w0, w);
  }

  lemma AgreesAt(w0: World, cmd: Cmd, w: World, pc: Pc, harmed: bool)
    requires StoreOk(w0) && AllInSync(w0) && CallInv(w0, cmd, w, pc) && CallSync(w0, cmd, w, pc, harmed)
    requires !pc.Returned?
    ensures AllInSync(w) <==> SafePoint(w0, cmd, pc, harmed)
  {
    if pc.PublishFailed? || pc.PublishDone? {
      UnpublishedRow(w0, cmd, w, pc, harmed);
    } else {
      UnharmedSoFar(w0, cmd, w, pc, harmed);
      if Unsaved(cmd, pc) {
        UnsavedAgrees(w0, cmd, w, pc, harmed);
      } else {
        StartedDisagrees(w0, cmd, w, pc);
      }
    }
  }

  /** The session ended, by its reply or by a crash, where rows and events agree. */
  predicate EndsSafely(w0: World, x: Session) {
    var r := SessionAfter(w0, x);
    r.Some? && SafePoint(w0, x.cmd, r.value.1, SessionHarmed(w0, x))
  }

  /** Exactly when events and store agree: from an agreeing world, a call that runs to its reply or
      is cut short by a crash leaves every row rebuilt by its published events if and only if it ends
      at a safe point. For a call that returned that means: no harmful fault occurred. Helm, the
      namespace, the searches, deletes and the first save of an upgrade or rollback may fail freely. */
  lemma AgreementExactly(w0: World, x: Session)
    requires StoreOk(w0) && AllInSync(w0) && SessionAfter(w0, x).Some?
    ensures AllInSync(SessionAfter(w0, x).value.0) <==> EndsSafely(w0, x)
  {
    var w1, pc := Opened(w0, x.cmd, x.id), Begin(x.cmd, x.semver, x.id, x.now);
    var (w, qc) := SessionAfter(w0, x).value;
    CallStart(w0, x);
    SyncStart(w0, x);
    CallInvHolds(w0, w1, x.cmd, pc, x.answers);
    CallSyncHolds(w0, w1, x.cmd, pc, x.answers);
    if !qc.Returned? { AgreesAt(w0, x.cmd, w, qc, SessionHarmed(w0, x)); }
  }

  /** All calls ended safely. */
  ghost predicate Smooth(xs: seq<Session>) {
    xs == [] ||
    var front, x := xs[..|xs| - 1], xs[|xs| - 1];
    Smooth(front) && HistoryAfter(INITIAL.w, xs).Some? && EndsSafely(HistoryAfter(INITIAL.w, front).value, x)
  }

  /** After any smooth history the published events of every stored deployment rebuild its row. */
  lemma {:induction false} EventsRebuildStore(xs: seq<Session>)
    requires Smooth(xs)
    ensures HistoryAfter(INITIAL.w, xs).Some? && AllInSync(HistoryAfter(INITIAL.w, xs).value)
    decreases |xs|
  {
    if xs != [] {
      var front := xs[..|xs| - 1];
      EventsRebuildStore(front);
      HistoryIsSound(front);
      AgreementExactly(HistoryAfter(INITIAL.w, front).value, xs[|xs| - 1]);
    }
  }
}

// What the service announces: every final event it publishes has a save of its own behind it.
module Announcements {
  import opened Deployments
  import opened Store
  import opened Machine
  import opened Interleaving

  /** A final result: a success with the revision Helm returned, or a rollback. */
  datatype Mark = Won(revision: int) | Undone

  predicate Announces(e: Event, id: ID, m: Mark) {
    && e.id == id
    && match m
       case Won(rev) => e.SucceededEvent? && e.revision == rev
       case Undone => e.RolledBackEvent?
  }

  /** A deployment in this status with this history has come to the result. */
  predicate Shows(status: Status, history: seq<Entry>, m: Mark) {
    match m
    case Won(rev) => status == Succeeded && history != [] && history[|history| - 1].helmVersion == rev
    case Undone => status == RolledBack
  }

  /** A save that stored the result. */
  predicate Stores(e: Effect, id: ID, m: Mark) {
    e.Saved? && e.row.id == id && Shows(e.row.status, e.row.history, m)
  }

  /** How many events of a batch announce a result. */
  function Heard(es: seq<Event>, id: ID, m: Mark): nat {
    if es == [] then 0
    else Heard(es[..|es| - 1], id, m) + if Announces(es[|es| - 1], id, m) then 1 else 0
  }

  /** How often a result was published. */
  function Announced(log: seq<Effect>, id: ID, m: Mark): nat {
    if log == [] then 0
    else
      var e := log[|log| - 1];
      Announced(log[..|log| - 1], id, m) + if e.Published? then Heard(e.events, id, m) else 0
  }

  /** How often it was stored. */
  function Stored(log: seq<Effect>, id: ID, m: Mark): nat {
    if log == [] then 0
    else Stored(log[..|log| - 1], id, m) + if Stores(log[|log| - 1], id, m) then 1 else 0
  }

  lemma HeardSnoc(es: seq<Event>, e: Event, id: ID, m: Mark)
    ensures Heard(es + [e], id, m) == Heard(es, id, m) + if Announces(e, id, m) then 1 else 0
  {
    assert (es + [e])[..|es|] == es;
  }

  lemma CountSnoc(log: seq<Effect>, e: Effect, id: ID, m: Mark)
    ensures Announced(log + [e], id, m) == Announced(log, id, m) + if e.Published? then Heard(e.events, id, m) else 0
    ensures Stored(log + [e], id, m) == Stored(log, id, m) + if Stores(e, id, m) then 1 else 0
  {
    assert (log + [e])[..|log|] == log;
  }

  lemma {:induction false} HeardEach(es: seq<Event>, j: nat, id: ID, m: Mark)
    requires j < |es| && Announces(es[j], id, m)
    ensures Heard(es, id, m) > 0
    decreases |es|
  {
    if j < |es| - 1 { HeardEach(es[..|es| - 1], j, id, m); }
  }

  lemma {:induction false} StoredSomewhere(log: seq<Effect>, id: ID, m: Mark) returns (k: nat)
    requires Stored(log, id, m) > 0
    ensures k < |log| && Stores(log[k], id, m)
    decreases |log|
  {
    k := |log| - 1;
    if !Stores(log[k], id, m) { k := StoredSomewhere(log[..k], id, m); }
  }

  // ---- the calls that still have a result to announce ----

  function MarkOf(cmd: Cmd, revision: int): Mark {
    if cmd.Rollback? then Undone else Won(revision)
  }

  /** The call stored its result and did not announce it yet. */
  predicate Waits(c: Call, id: ID, m: Mark) {
    c.pc.PublishDone? && c.pc.g.id == id && MarkOf(c.cmd, c.pc.revision) == m
  }

  function Waiting(live: map<nat, Call>, id: ID, m: Mark): set<nat> {
    set t | t in live && Waits(live[t], id, m)
  }

  lemma Without(ts: set<nat>, tid: nat)
    ensures |ts| == |ts - {tid}| + if tid in ts then 1 else 0
  {
    if tid !in ts { assert ts - {tid} == ts; }
  }

  lemma WaitingMoves(live: map<nat, Call>, tid: nat, c: Call, id: ID, m: Mark)
    ensures |Waiting(live[tid := c], id, m)| + (if tid in live && Waits(live[tid], id, m) then 1 else 0)
      == |Waiting(live, id, m)| + if Waits(c, id, m) then 1 else 0
  {
    var next := Waiting(live[tid := c], id, m);
    var others := Waiting(live, id, m) - {tid};
    assert next - {tid} == others;
    assert tid in next <==> Waits(c, id, m);
    Without(next, tid);
    Without(Waiting(live, id, m), tid);
  }

  /** The buffer announces no result. */
  ghost predicate Mute(g: State) {
    forall id, m :: Heard(g.events, id, m) == 0
  }

  /** The aggregate has come to result `r`, and its buffer announces that alone, and once. */
  ghost predicate Speaks(g: State, r: Mark) {
    && Shows(g.status, g.history, r)
    && forall id, m :: Heard(g.events, id, m) == if id == g.id && m == r then 1 else 0
  }

  ghost predicate Voiced(cmd: Cmd, pc: Pc) {
    Agg(pc).Some? ==>
      if pc.SaveDone? || pc.PublishDone? then Speaks(Agg(pc).value, MarkOf(cmd, pc.revision))
      else Mute(Agg(pc).value)
  }

  lemma MuteStep(g: State, op: Op)
    requires Mute(g) && Accepts(g, op) && !op.Drain?
    ensures match op
      case MarkSucceeded(rev, _, _) => Speaks(Step(g, op), Won(rev))
      case MarkRolledBack(_, _) => Speaks(Step(g, op), Undone)
      case _ => Mute(Step(g, op))
  {
    var es, h := EventsOf(g, op), Step(g, op);
    forall id, m
      ensures Heard(h.events, id, m) == if es != [] && Announces(es[0], id, m) then 1 else 0
    {
      if es == [] {
        assert g.events + es == g.events;
      } else {
        assert es == [es[0]];
        HeardSnoc(g.events, es[0], id, m);
      }
    }
  }

  lemma LaunchMute(cmd: Cmd, g: State, now: Time)
    requires !cmd.Uninstall? && Mute(g)
    ensures Launch(cmd, g, now) == Returned(Error) || (Launch(cmd, g, now).SaveStarted? && Mute(Launch(cmd, g, now).g))
  {
    if Accepts(g, StartOp(cmd, now)) { MuteStep(g, StartOp(cmd, now)); }
  }

  lemma HelmVoiced(cmd: Cmd, g: State, a: Answer)
    requires !cmd.Uninstall? && !a.Hit? && Mute(g)
    ensures var pc := AfterHelm(cmd, g, a);
      || pc == Returned(Error) || (pc.SaveFailed? && Mute(pc.g))
      || (pc.SaveDone? && Speaks(pc.g, MarkOf(cmd, pc.revision)))
  {
    var op := if a.Fault? then MarkFailed(a.reason, a.at) else FinishOp(cmd, a.revision, a.at, a.later);
    if Accepts(g, op) { MuteStep(g, op); }
  }

  lemma VoicedAfter(w: World, cmd: Cmd, pc: Pc, a: Answer)
    requires Voiced(cmd, pc) && Possible(w, cmd, pc, a)
    ensures Voiced(cmd, Advance(w, cmd, pc, a).1)
  {
    match pc
    case SaveInitial(g) => LaunchMute(cmd, g, if a.Ok? then a.at else 0);
    case Find => if a.Hit? { LaunchMute(cmd, Load(w.store[a.id]), a.at); }
    case CallHelm(g) => HelmVoiced(cmd, g, a);
    case _ =>
  }

  /** The result a call announces was waiting to be announced. */
  lemma PublishBalances(w: World, cmd: Cmd, pc: Pc, id: ID, m: Mark)
    requires Voiced(cmd, pc) && (pc.PublishFailed? || pc.PublishDone?)
    ensures var log := Log(w, Published(pc.g.events)).log;
      && Announced(log, id, m) <= Announced(w.log, id, m) + (if Waits(Call(cmd, pc), id, m) then 1 else 0)
      && Stored(log, id, m) == Stored(w.log, id, m)
  {
    CountSnoc(w.log, Published(pc.g.events), id, m);
  }

  /** A save stores what its aggregate shows. */
  lemma SaveBalances(w: World, g: State, id: ID, m: Mark)
    requires TableOk(w.store)
    ensures Announced(Save(w, g).log, id, m) == Announced(w.log, id, m)
    ensures Stored(Save(w, g).log, id, m) ==
      Stored(w.log, id, m) + if id == g.id && Shows(g.status, g.history, m) then 1 else 0
  {
    CountSnoc(w.log, Saved(Upsert(w.store, g)[g.id]), id, m);
  }

  /** Every other step leaves the counts as they are. */
  lemma OtherBalances(w: World, cmd: Cmd, pc: Pc, a: Answer, id: ID, m: Mark)
    requires Possible(w, cmd, pc, a)
    requires Agg(pc).None? || pc.EnsureNamespace? || pc.CallHelm?
    ensures var (v, qc) := Advance(w, cmd, pc, a);
      && w.log <= v.log && |v.log| <= |w.log| + 1 && !qc.PublishDone?
      && Announced(v.log, id, m) == Announced(w.log, id, m) && Stored(v.log, id, m) == Stored(w.log, id, m)
  {
    var v := Advance(w, cmd, pc, a).0;
    if v.log != w.log {
      assert v.log == w.log + [v.log[|w.log|]];
      CountSnoc(w.log, v.log[|w.log|], id, m);
    }
  }

  /** A step logs at most one effect, and the result it announces was waiting to be announced, the
      result it will announce was just stored. */
  lemma StepBalances(w: World, cmd: Cmd, pc: Pc, a: Answer, id: ID, m: Mark)
    requires TableOk(w.store) && Voiced(cmd, pc) && Possible(w, cmd, pc, a)
    ensures var (v, qc) := Advance(w, cmd, pc, a);
      && w.log <= v.log && |v.log| <= |w.log| + 1
      && Stored(w.log, id, m) <= Stored(v.log, id, m)
      && Announced(v.log, id, m) + Stored(w.log, id, m) + (if Waits(Call(cmd, qc), id, m) then 1 else 0)
         <= Announced(w.log, id, m) + Stored(v.log, id, m) + if Waits(Call(cmd, pc), id, m) then 1 else 0
  {
    match pc
    case SaveInitial(g) => SaveBalances(w, g, id, m);
    case SaveStarted(g) => SaveBalances(w, g, id, m);
    case SaveFailed(g) => SaveBalances(w, g, id, m);
    case SaveDone(g, _) => SaveBalances(w, g, id, m);
    case PublishFailed(_) => PublishBalances(w, cmd, pc, id, m);
    case PublishDone(_, _) => PublishBalances(w, cmd, pc, id, m);
    case _ => OtherBalances(w, cmd, pc, a, id, m);
  }

  /** At every point of the log, and counting those about to be announced, no result was announced
      more often than it was stored. */
  ghost predicate Backed(s: Sys) {
    && (forall t | t in s.live :: Voiced(s.live[t].cmd, s.live[t].pc))
    && (forall n, id, m | 0 <= n <= |s.w.log| :: Announced(s.w.log[..n], id, m) <= Stored(s.w.log[..n], id, m))
    && (forall id, m :: Announced(s.w.log, id, m) + |Waiting(s.live, id, m)| <= Stored(s.w.log, id, m))
  }

  lemma BackedGrows(log: seq<Effect>, longer: seq<Effect>)
    requires log <= longer && |longer| <= |log| + 1
    requires forall n, id, m | 0 <= n <= |log| :: Announced(log[..n], id, m) <= Stored(log[..n], id, m)
    requires forall id, m :: Announced(longer, id, m) <= Stored(longer, id, m)
    ensures forall n, id, m | 0 <= n <= |longer| :: Announced(longer[..n], id, m) <= Stored(longer[..n], id, m)
  {
    forall n, id, m | 0 <= n <= |longer| ensures Announced(longer[..n], id, m) <= Stored(longer[..n], id, m) {
      if n <= |log| {
        assert longer[..n] == log[..n];
      } else {
        assert longer[..n] == longer;
      }
    }
  }

  lemma BackedPort(s: Sys, act: Act)
    requires Backed(s) && TableOk(s.w.store) && act.Port? && Allowed(s, act)
    ensures Backed(Next(s, act))
  {
    var t, c := Next(s, act), s.live[act.tid];
    var (v, qc) := Advance(s.w, c.cmd, c.pc, act.a);
    VoicedAfter(s.w, c.cmd, c.pc, act.a);
    forall id, m
      ensures Announced(v.log, id, m) + |Waiting(t.live, id, m)| <= Stored(v.log, id, m)
      ensures s.w.log <= v.log && |v.log| <= |s.w.log| + 1
    {
      StepBalances(s.w, c.cmd, c.pc, act.a, id, m);
      WaitingMoves(s.live, act.tid, Call(c.cmd, qc), id, m);
    }
    StepBalances(s.w, c.cmd, c.pc, act.a, 0, Undone);
    BackedGrows(s.w.log, v.log);
  }

  lemma BackedSpawn(s: Sys, act: Act)
    requires Backed(s) && act.Spawn? && Allowed(s, act)
    ensures Backed(Next(s, act))
  {
    var t, pc := Next(s, act), Begin(act.cmd, act.semver, act.id, act.now);
    forall id, m ensures |Waiting(t.live, id, m)| == |Waiting(s.live, id, m)| {
      WaitingMoves(s.live, act.tid, Call(act.cmd, pc), id, m);
    }
    if Agg(pc).Some? {
      var g := Agg(pc).value;
      forall id, m ensures Heard(g.events, id, m) == 0 {
        assert [] + [g.events[0]] == g.events;
        HeardSnoc([], g.events[0], id, m);
      }
    }
  }

  lemma {:induction false} BackedReachable(acts: seq<Act>, s: Sys)
    requires Reaches(INITIAL, acts, s)
    ensures Backed(s)
    decreases |acts|
  {
    if acts != [] {
      var front, act := acts[..|acts| - 1], acts[|acts| - 1];
      var m := After(INITIAL, front).value;
      BackedReachable(front, m);
      InvReachable(front, m);
      match act
      case Spawn(_, _, _, _, _) => BackedSpawn(m, act);
      case Port(_, _) => BackedPort(m, act);
      case Crash =>
    }
  }

  // ---- the results, for every interleaving, fault and crash ----

  /** At every point of every run, the successes with a given revision and the rollbacks published
      for a deployment are no more than the saves that stored them. */
  lemma AnnouncedAtMostAsStored(acts: seq<Act>, s: Sys, n: nat, id: ID, m: Mark)
    requires Reaches(INITIAL, acts, s) && n <= |s.w.log|
    ensures Announced(s.w.log[..n], id, m) <= Stored(s.w.log[..n], id, m)
  {
    BackedReachable(acts, s);
  }

  /** A published success or rollback follows a save of just that result: SUCCEEDED with the
      announced revision in the last history entry, or ROLLED_BACK. */
  lemma EventsFollowSaves(acts: seq<Act>, s: Sys, i: nat, j: nat, m: Mark)
    requires Reaches(INITIAL, acts, s)
    requires i < |s.w.log| && s.w.log[i].Published? && j < |s.w.log[i].events|
    requires Announces(s.w.log[i].events[j], s.w.log[i].events[j].id, m)
    ensures exists k | 0 <= k < i :: Stores(s.w.log[k], s.w.log[i].events[j].id, m)
  {
    var log, id := s.w.log, s.w.log[i].events[j].id;
    AnnouncedAtMostAsStored(acts, s, i + 1, id, m);
    assert log[..i + 1] == log[..i] + [log[i]];
    CountSnoc(log[..i], log[i], id, m);
    HeardEach(log[i].events, j, id, m);
    var k := StoredSomewhere(log[..i], id, m);
    assert Stores(log[k], id, m);
  }
}

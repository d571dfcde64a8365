// The races themselves: from every reachable state that offers them a row, two overlapping calls
// break write-ahead ordering, or let a stored version fall, exactly when they clash.
module Races {
  import opened Options
  import opened Deployments
  import opened Store
  import opened Machine
  import opened Interleaving
  import opened Mirroring
  import opened Overlap
  import FreshIDs

  // ---- runs of two more calls ----

  /** `more` goes on from `acts` by answers to the calls `ts` alone. */
  predicate Continues(acts: seq<Act>, more: seq<Act>, ts: set<nat>) {
    acts <= more && forall i | |acts| <= i < |more| :: more[i].Port? && more[i].tid in ts
  }

  /** Both calls begin, then their ports answer in any order. */
  predicate JustThese(acts: seq<Act>, a: Cmd, b: Cmd) {
    && |acts| >= 2 && acts[0].Spawn? && acts[0].cmd == a && acts[1].Spawn? && acts[1].cmd == b
    && Continues(acts[..2], acts, {acts[0].tid, acts[1].tid})
  }

  /** Two calls beside those in `live`. */
  function Duo(live: map<nat, Call>, w: World, p: nat, a: Call, q: nat, b: Call): Sys {
    Sys(w, live[p := a][q := b])
  }

  lemma Swap(live: map<nat, Call>, w: World, p: nat, a: Call, q: nat, b: Call)
    requires p != q
    ensures Duo(live, w, p, a, q, b) == Duo(live, w, q, b, p, a)
  {
    assert live[p := a][q := b] == live[q := b][p := a];
  }

  lemma Fork(s: Sys, a: Cmd, b: Cmd) returns (p: nat, q: nat, x: ID, acts: seq<Act>, w: World)
    requires !a.Install? || !b.Install?
    ensures p != q && p !in s.live && q !in s.live && x !in s.w.used && w.store == s.w.store
    ensures |acts| == 2 && JustThese(acts, a, b) && acts[0].tid == p && acts[1].tid == q
    ensures Reaches(s, acts, Duo(s.live, w, p, Call(a, Begin(a, true, x, 0)), q, Call(b, Begin(b, true, x, 0))))
  {
    p := FreshIDs.UnusedExists(s.live.Keys);
    q := FreshIDs.UnusedExists(s.live.Keys + {p});
    x := FreshIDs.UnusedExists(s.w.used);
    var first, second := Spawn(p, a, true, x, 0), Spawn(q, b, true, x, 0);
    assert Reaches(s, [], s);
    AfterSnoc(s, [], first);
    AfterSnoc(s, [] + [first], second);
    acts, w := [] + [first] + [second], Next(Next(s, first), second).w;
  }

  /** The port the call `p` waits on answers. */
  lemma Move(s0: Sys, acts: seq<Act>, live: map<nat, Call>, w: World, p: nat, a: Call, q: nat, b: Call, x: Answer)
    returns (more: seq<Act>, v: World)
    requires p != q && Reaches(s0, acts, Duo(live, w, p, a, q, b)) && Possible(w, a.cmd, a.pc, x)
    ensures more == acts + [Port(p, x)] && v == Advance(w, a.cmd, a.pc, x).0
    ensures Reaches(s0, more, Duo(live, v, p, Call(a.cmd, Advance(w, a.cmd, a.pc, x).1), q, b))
  {
    var s, c := Duo(live, w, p, a, q, b), Call(a.cmd, Advance(w, a.cmd, a.pc, x).1);
    more, v := acts + [Port(p, x)], Advance(w, a.cmd, a.pc, x).0;
    AfterSnoc(s0, acts, Port(p, x));
    assert Next(s, Port(p, x)).live == live[p := c][q := b];
  }

  // ---- what one of the two can do ----

  /** The call loads a row it may start on. */
  lemma FindRow(s0: Sys, acts: seq<Act>, live: map<nat, Call>, w: World, p: nat, cmd: Cmd, q: nat, b: Call, id: ID)
    returns (more: seq<Act>, g: State)
    requires p != q && Reaches(s0, acts, Duo(live, w, p, Call(cmd, Find), q, b))
    requires TableOk(w.store) && Changes(cmd) && CanStart(w, cmd, id)
    ensures Continues(acts, more, {p, q}) && Reaches(s0, more, Duo(live, w, p, Call(cmd, SaveStarted(g)), q, b))
    ensures g.id == id && g.status == StartedStatus(cmd) && g.version == w.store[id].version
    ensures Matches(Inserted(g), cmd.name, cmd.namespace)
  {
    g := Step(Load(w.store[id]), StartOp(cmd, 0));
    var v;
    more, v := Move(s0, acts, live, w, p, Call(cmd, Find), q, b, Hit(id, 0));
  }

  /** It saves that it started. */
  lemma SaveStart(s0: Sys, acts: seq<Act>, live: map<nat, Call>, w: World, p: nat, cmd: Cmd, g: State, q: nat, b: Call)
    returns (more: seq<Act>, v: World)
    requires p != q && Reaches(s0, acts, Duo(live, w, p, Call(cmd, SaveStarted(g)), q, b))
    requires TableOk(w.store) && !cmd.Uninstall?
    ensures Continues(acts, more, {p, q}) && Reaches(s0, more, Duo(live, v, p, Call(cmd, CallHelm(g)), q, b))
    ensures v == Save(w, g) && TableOk(v.store)
  {
    LoadAfterSave(w.store, g);
    more, v := Move(s0, acts, live, w, p, Call(cmd, SaveStarted(g)), q, b, Ok(0, 0, 0));
  }

  lemma FinishedBy(cmd: Cmd, g: State) returns (done: State)
    requires !cmd.Uninstall? && g.status == StartedStatus(cmd)
    ensures AfterHelm(cmd, g, Ok(0, 0, 0)) == SaveDone(done, 0) && done.id == g.id
    ensures done.status == FinishedStatus(cmd) && done.version == g.version + if cmd.Rollback? then 0 else 1
  {
    done := Step(g, FinishOp(cmd, 0, 0, 0));
  }

  lemma SavedColumns(w: World, g: State)
    ensures g.id in Save(w, g).store
    ensures Save(w, g).store[g.id].status == g.status && Save(w, g).store[g.id].version == g.version
  {}

  /** Helm succeeds and the result is saved. */
  lemma Finish(s0: Sys, acts: seq<Act>, live: map<nat, Call>, w: World, p: nat, cmd: Cmd, g: State, q: nat, b: Call)
    returns (more: seq<Act>, v: World, done: State)
    requires p != q && Reaches(s0, acts, Duo(live, w, p, Call(cmd, CallHelm(g)), q, b))
    requires !cmd.Uninstall? && g.status == StartedStatus(cmd)
    ensures Continues(acts, more, {p, q}) && Reaches(s0, more, Duo(live, v, p, Call(cmd, PublishDone(done, 0)), q, b))
    ensures g.id in v.store && v.store[g.id].status == FinishedStatus(cmd)
    ensures v.store[g.id].version == g.version + if cmd.Rollback? then 0 else 1
  {
    done := FinishedBy(cmd, g);
    more, v := Move(s0, acts, live, w, p, Call(cmd, CallHelm(g)), q, b, Ok(0, 0, 0));
    SavedColumns(v, done);
    more, v := Move(s0, more, live, v, p, Call(cmd, SaveDone(done, 0)), q, b, Ok(0, 0, 0));
  }

  /** Helm fails and the failure is saved. */
  lemma Fail(s0: Sys, acts: seq<Act>, live: map<nat, Call>, w: World, p: nat, cmd: Cmd, g: State, q: nat, b: Call)
    returns (more: seq<Act>, v: World, failed: State)
    requires p != q && Reaches(s0, acts, Duo(live, w, p, Call(cmd, CallHelm(g)), q, b)) && !cmd.Uninstall?
    ensures Continues(acts, more, {p, q}) && Reaches(s0, more, Duo(live, v, p, Call(cmd, PublishFailed(failed)), q, b))
    ensures g.id in v.store && v.store[g.id].version == g.version
  {
    failed := Step(g, MarkFailed("", 0));
    more, v := Move(s0, acts, live, w, p, Call(cmd, CallHelm(g)), q, b, Fault("", 0));
    SavedColumns(v, failed);
    more, v := Move(s0, more, live, v, p, Call(cmd, SaveFailed(failed)), q, b, Ok(0, 0, 0));
  }

  /** An uninstall deletes a row of its release. */
  lemma Forget(s0: Sys, acts: seq<Act>, live: map<nat, Call>, w: World, p: nat, cmd: Cmd, q: nat, b: Call, id: ID)
    returns (more: seq<Act>, v: World, pc: Pc)
    requires p != q && Reaches(s0, acts, Duo(live, w, p, Call(cmd, UninstallHelm), q, b))
    requires cmd.Uninstall? && id in w.store && Matches(w.store[id], cmd.name, cmd.namespace)
    ensures Continues(acts, more, {p, q}) && Reaches(s0, more, Duo(live, v, p, Call(cmd, pc), q, b)) && id !in v.store
  {
    more, v := Move(s0, acts, live, w, p, Call(cmd, UninstallHelm), q, b, Ok(0, 0, 0));
    more, v := Move(s0, more, live, v, p, Call(cmd, UninstallFind), q, b, Hit(id, 0));
    more, v := Move(s0, more, live, v, p, Call(cmd, UninstallDelete(id)), q, b, Ok(0, 0, 0));
    pc := Returned(Removed);
  }

  /** An install makes its first save. */
  lemma FirstSave(s0: Sys, acts: seq<Act>, live: map<nat, Call>, w: World, p: nat, cmd: Cmd, g: State, q: nat, b: Call)
    returns (more: seq<Act>, v: World, h: State)
    requires p != q && Reaches(s0, acts, Duo(live, w, p, Call(cmd, SaveInitial(g)), q, b))
    requires TableOk(w.store) && g.id !in w.store && cmd.Install? && g.status == Pending
    requires Matches(Inserted(g), cmd.name, cmd.namespace)
    ensures Continues(acts, more, {p, q}) && Reaches(s0, more, Duo(live, v, p, Call(cmd, SaveStarted(h)), q, b))
    ensures TableOk(v.store) && h.id == g.id && g.id in v.store && Matches(v.store[g.id], cmd.name, cmd.namespace)
  {
    LoadAfterSave(w.store, g);
    h := Step(g, StartOp(cmd, 0));
    more, v := Move(s0, acts, live, w, p, Call(cmd, SaveInitial(g)), q, b, Ok(0, 0, 0));
  }

  /** An install comes to call Helm. */
  lemma InstallStarts(s0: Sys, acts: seq<Act>, live: map<nat, Call>, w: World, p: nat, cmd: Cmd, x: ID, q: nat, b: Call)
    returns (more: seq<Act>, v: World, g: State)
    requires p != q && Reaches(s0, acts, Duo(live, w, p, Call(cmd, Begin(cmd, true, x, 0)), q, b))
    requires TableOk(w.store) && x !in w.store
    requires cmd.Install? && ValidRequest(cmd.name, cmd.namespace, Requested(cmd), true)
    ensures Continues(acts, more, {p, q}) && Reaches(s0, more, Duo(live, v, p, Call(cmd, CallHelm(g)), q, b))
    ensures g.id in v.store && Matches(v.store[g.id], cmd.name, cmd.namespace)
  {
    var pc := Begin(cmd, true, x, 0);
    var born := pc.g;
    more, v := acts, w;
    if pc.EnsureNamespace? {
      more, v := Move(s0, acts, live, w, p, Call(cmd, pc), q, b, Ok(0, 0, 0));
    }
    more, v, g := FirstSave(s0, more, live, v, p, cmd, born, q, b);
    more, v := SaveStart(s0, more, live, v, p, cmd, g, q, b);
  }

  // ---- the pairs that break something ----

  /** The world offers the command something to work on. */
  predicate Offers(w: World, cmd: Cmd) {
    match cmd
    case Install(name, ns, _, _, _, _, _, _) => ValidRequest(name, ns, Requested(cmd), true)
    case Uninstall(_, _, _) => true
    case _ => exists id | id in w.store :: CanStart(w, cmd, id)
  }

  /** A row both may start on. */
  lemma CommonRow(w: World, a: Cmd, b: Cmd) returns (id: ID)
    requires Changes(a) && Changes(b) && SameRelease(a, b) && Offers(w, a) && Offers(w, b)
    ensures id in w.store && CanStart(w, a, id) && CanStart(w, b, id)
  {
    if a.Upgrade? {
      id :| id in w.store && CanStart(w, a, id);
    } else {
      id :| id in w.store && CanStart(w, b, id);
    }
  }

  /** Both calls load one row. */
  lemma BothFound(s: Sys, a: Cmd, b: Cmd, id: ID)
    returns (p: nat, q: nat, acts: seq<Act>, w: World, g: State, h: State)
    requires TableOk(s.w.store) && Changes(a) && Changes(b) && CanStart(s.w, a, id) && CanStart(s.w, b, id)
    ensures p != q && p !in s.live && q !in s.live && TableOk(w.store)
    ensures JustThese(acts, a, b) && acts[0].tid == p && acts[1].tid == q
    ensures Reaches(s, acts, Duo(s.live, w, p, Call(a, SaveStarted(g)), q, Call(b, SaveStarted(h))))
    ensures g.id == h.id == id && g.status == StartedStatus(a) && h.status == StartedStatus(b)
    ensures g.version == h.version
  {
    var x;
    p, q, x, acts, w := Fork(s, a, b);
    acts, g := FindRow(s, acts, s.live, w, p, a, q, Call(b, Find), id);
    var A := Call(a, SaveStarted(g));
    Swap(s.live, w, p, A, q, Call(b, Find));
    acts, h := FindRow(s, acts, s.live, w, q, b, p, A, id);
    Swap(s.live, w, p, A, q, Call(b, SaveStarted(h)));
  }

  /** Then both save that they started. */
  lemma BothStarted(s: Sys, a: Cmd, b: Cmd, id: ID)
    returns (p: nat, q: nat, acts: seq<Act>, w: World, g: State, h: State)
    requires TableOk(s.w.store) && Changes(a) && Changes(b) && CanStart(s.w, a, id) && CanStart(s.w, b, id)
    ensures p != q && p !in s.live && q !in s.live
    ensures JustThese(acts, a, b) && acts[0].tid == p && acts[1].tid == q
    ensures Reaches(s, acts, Duo(s.live, w, p, Call(a, CallHelm(g)), q, Call(b, CallHelm(h))))
    ensures g.id == h.id == id && g.status == StartedStatus(a) && h.status == StartedStatus(b)
    ensures g.version == h.version
  {
    p, q, acts, w, g, h := BothFound(s, a, b, id);
    acts, w := SaveStart(s, acts, s.live, w, p, a, g, q, Call(b, SaveStarted(h)));
    Swap(s.live, w, p, Call(a, CallHelm(g)), q, Call(b, SaveStarted(h)));
    acts, w := SaveStart(s, acts, s.live, w, q, b, h, p, Call(a, CallHelm(g)));
    Swap(s.live, w, p, Call(a, CallHelm(g)), q, Call(b, CallHelm(h)));
  }

  /** A call other than `others` is about to reach Helm and its row is not stored as started. */
  predicate Unrecorded(s: Sys, others: set<nat>) {
    exists t | t in s.live && t !in others :: s.live[t].pc.CallHelm? &&
      (s.live[t].pc.g.id !in s.w.store || s.w.store[s.live[t].pc.g.id].status != StartedStatus(s.live[t].cmd))
  }

  ghost predicate BreaksWriteAhead(s: Sys, a: Cmd, b: Cmd) {
    exists acts, t :: JustThese(acts, a, b) && Reaches(s, acts, t) && Unrecorded(t, s.live.Keys)
  }

  /** Two changes: the second finishes while the first is at Helm. */
  lemma ChangesBreak(s: Sys, a: Cmd, b: Cmd)
    requires TableOk(s.w.store) && Changes(a) && Changes(b) && SameRelease(a, b) && Offers(s.w, a) && Offers(s.w, b)
    ensures BreaksWriteAhead(s, a, b)
  {
    var id := CommonRow(s.w, a, b);
    var p, q, acts, w, g, h := BothStarted(s, a, b, id);
    Swap(s.live, w, p, Call(a, CallHelm(g)), q, Call(b, CallHelm(h)));
    var more, v, done := Finish(s, acts, s.live, w, q, b, h, p, Call(a, CallHelm(g)));
    var t := Duo(s.live, v, q, Call(b, PublishDone(done, 0)), p, Call(a, CallHelm(g)));
    assert t.live[p] == Call(a, CallHelm(g));
    assert JustThese(more, a, b) && Reaches(s, more, t) && Unrecorded(t, s.live.Keys);
  }

  /** A call other than an uninstall comes to call Helm, beside any other call. */
  lemma Starts(s: Sys, acts: seq<Act>, w: World, p: nat, cmd: Cmd, x: ID, q: nat, b: Call)
    returns (more: seq<Act>, v: World, g: State)
    requires p != q && Reaches(s, acts, Duo(s.live, w, p, Call(cmd, Begin(cmd, true, x, 0)), q, b))
    requires TableOk(w.store) && x !in w.store && !cmd.Uninstall? && Offers(w, cmd)
    ensures Continues(acts, more, {p, q}) && Reaches(s, more, Duo(s.live, v, p, Call(cmd, CallHelm(g)), q, b))
    ensures g.id in v.store && Matches(v.store[g.id], cmd.name, cmd.namespace)
  {
    if cmd.Install? {
      more, v, g := InstallStarts(s, acts, s.live, w, p, cmd, x, q, b);
    } else {
      var id :| id in w.store && CanStart(w, cmd, id);
      more, g := FindRow(s, acts, s.live, w, p, cmd, q, b, id);
      more, v := SaveStart(s, more, s.live, w, p, cmd, g, q, b);
    }
  }

  /** An uninstall beside another call: the row is gone when Helm is called. */
  lemma UninstallBreaks(s: Sys, acts: seq<Act>, w: World, p: nat, cmd: Cmd, x: ID, q: nat, b: Cmd)
    returns (more: seq<Act>, t: Sys)
    requires p != q && p !in s.live && SameRelease(cmd, b) && b.Uninstall? && !cmd.Uninstall?
    requires Reaches(s, acts, Duo(s.live, w, p, Call(cmd, Begin(cmd, true, x, 0)), q, Call(b, UninstallHelm)))
    requires TableOk(w.store) && x !in w.store && Offers(w, cmd)
    ensures Continues(acts, more, {p, q}) && Reaches(s, more, t) && Unrecorded(t, s.live.Keys)
  {
    var v, g, pc;
    more, v, g := Starts(s, acts, w, p, cmd, x, q, Call(b, UninstallHelm));
    Swap(s.live, v, p, Call(cmd, CallHelm(g)), q, Call(b, UninstallHelm));
    more, v, pc := Forget(s, more, s.live, v, q, b, p, Call(cmd, CallHelm(g)), g.id);
    t := Duo(s.live, v, q, Call(b, pc), p, Call(cmd, CallHelm(g)));
    assert t.live[p] == Call(cmd, CallHelm(g));
  }

  lemma ConflictBreaks(s: Sys, a: Cmd, b: Cmd)
    requires Inv(s) && Offers(s.w, a) && Offers(s.w, b) && Clash(WriteAheadAim, a, b)
    ensures BreaksWriteAhead(s, a, b)
  {
    if Changes(a) && Changes(b) {
      ChangesBreak(s, a, b);
    } else {
      var p, q, x, acts, w := Fork(s, a, b);
      RowsAreUsed(s.w);
      var more, t;
      if b.Uninstall? {
        more, t := UninstallBreaks(s, acts, w, p, a, x, q, b);
      } else {
        Swap(s.live, w, p, Call(a, UninstallHelm), q, Call(b, Begin(b, true, x, 0)));
        more, t := UninstallBreaks(s, acts, w, q, b, x, p, a);
      }
      assert JustThese(more, a, b) && Reaches(s, more, t) && Unrecorded(t, s.live.Keys);
    }
  }

  /** The version of some deployment falls between two points of the run. */
  ghost predicate Falls(s: Sys, mid: seq<Act>, t: Sys, last: seq<Act>, u: Sys, id: ID) {
    && mid <= last && Reaches(s, mid, t) && Reaches(s, last, u)
    && id in t.w.store && id in u.w.store && u.w.store[id].version < t.w.store[id].version
  }

  ghost predicate LetsVersionFall(s: Sys, a: Cmd, b: Cmd) {
    exists mid, t, last, u, id :: JustThese(mid, a, b) && JustThese(last, a, b) && Falls(s, mid, t, last, u, id)
  }

  /** The upgrade `p` finishes, then the other call fails and saves what it loaded before. */
  lemma StaleSave(s: Sys, acts: seq<Act>, w: World, p: nat, up: Cmd, g: State, q: nat, b: Cmd, h: State)
    returns (mid: seq<Act>, t: Sys, last: seq<Act>, u: Sys)
    requires p != q && up.Upgrade? && !b.Uninstall?
    requires Reaches(s, acts, Duo(s.live, w, p, Call(up, CallHelm(g)), q, Call(b, CallHelm(h))))
    requires g.id == h.id && g.version == h.version && g.status == Upgrading
    ensures Continues(acts, mid, {p, q}) && Continues(acts, last, {p, q}) && Falls(s, mid, t, last, u, g.id)
  {
    var v, done, failed;
    mid, v, done := Finish(s, acts, s.live, w, p, up, g, q, Call(b, CallHelm(h)));
    var A := Call(up, PublishDone(done, 0));
    t := Duo(s.live, v, p, A, q, Call(b, CallHelm(h)));
    Swap(s.live, v, p, A, q, Call(b, CallHelm(h)));
    last, v, failed := Fail(s, mid, s.live, v, q, b, h, p, A);
    u := Duo(s.live, v, q, Call(b, PublishFailed(failed)), p, A);
  }

  lemma StillThese(acts: seq<Act>, more: seq<Act>, a: Cmd, b: Cmd, p: nat, q: nat)
    requires JustThese(acts, a, b) && acts[0].tid == p && acts[1].tid == q
    requires Continues(acts, more, {p, q})
    ensures JustThese(more, a, b)
  {}

  lemma StaleSaveFalls(s: Sys, a: Cmd, b: Cmd)
    requires Inv(s) && Offers(s.w, a) && Offers(s.w, b) && Clash(VersionAim, a, b)
    ensures LetsVersionFall(s, a, b)
  {
    var id := CommonRow(s.w, a, b);
    var p, q, acts, w, g, h := BothStarted(s, a, b, id);
    var mid, t, last, u;
    if a.Upgrade? {
      mid, t, last, u := StaleSave(s, acts, w, p, a, g, q, b, h);
    } else {
      Swap(s.live, w, p, Call(a, CallHelm(g)), q, Call(b, CallHelm(h)));
      mid, t, last, u := StaleSave(s, acts, w, q, b, h, p, a, g);
    }
    StillThese(acts, mid, a, b, p, q);
    StillThese(acts, last, a, b, p, q);
    assert Falls(s, mid, t, last, u, id);
  }

  // ---- and no others ----

  lemma {:induction false} PairSerialised(aim: Aim, s: Sys, acts: seq<Act>, a: Cmd, b: Cmd)
    requires Quiet(s) && JustThese(acts, a, b) && After(s, acts).Some? && !Clash(aim, a, b)
    ensures Serialised(aim, s, acts)
    decreases |acts|
  {
    var front := acts[..|acts| - 1];
    if |acts| > 2 {
      PairSerialised(aim, s, front, a, b);
    } else {
      var none: seq<Act> := front[..0];
      assert After(s, none) == Some(s) && Serialised(aim, s, none);
      assert front == none + [acts[0]] && front[|front| - 1] == acts[0];
      assert !Meets(aim, s, acts[0]);
      assert Serialised(aim, s, front);
    }
  }

  // ---- the results ----

  /** Exactly which pairs break write-ahead ordering: begun together in any reachable state that
      offers both something to work on and has nothing else in flight, two calls can lead to a Helm
      call whose row is not stored as started if and only if they name one release and both change
      its row or just one of them uninstalls it. */
  lemma WriteAheadBreaksExactly(past: seq<Act>, s: Sys, a: Cmd, b: Cmd)
    requires Reaches(INITIAL, past, s) && Quiet(s) && Offers(s.w, a) && Offers(s.w, b)
    ensures BreaksWriteAhead(s, a, b) <==> Clash(WriteAheadAim, a, b)
  {
    InvReachable(past, s);
    if Clash(WriteAheadAim, a, b) {
      ConflictBreaks(s, a, b);
    } else {
      forall acts, t | JustThese(acts, a, b) && Reaches(s, acts, t) ensures !Unrecorded(t, s.live.Keys) {
        PairSerialised(WriteAheadAim, s, acts, a, b);
        forall tid | tid in t.live && t.live[tid].pc.CallHelm?
          ensures t.live[tid].pc.g.id in t.w.store
          ensures t.w.store[t.live[tid].pc.g.id].status == StartedStatus(t.live[tid].cmd)
        {
          WriteAheadIfSerialised(past, s, acts, t, tid);
        }
      }
    }
  }

  /** Exactly which pairs let a stored version fall: two changes of one release, one an upgrade. */
  lemma VersionsFallExactly(past: seq<Act>, s: Sys, a: Cmd, b: Cmd)
    requires Reaches(INITIAL, past, s) && Quiet(s) && Offers(s.w, a) && Offers(s.w, b)
    ensures LetsVersionFall(s, a, b) <==> Clash(VersionAim, a, b)
  {
    InvReachable(past, s);
    if Clash(VersionAim, a, b) {
      StaleSaveFalls(s, a, b);
    } else {
      forall mid, t, last, u, id | JustThese(mid, a, b) && JustThese(last, a, b)
        ensures !Falls(s, mid, t, last, u, id)
      {
        if Falls(s, mid, t, last, u, id) {
          PairSerialised(VersionAim, s, mid, a, b);
          assert last == mid + last[|mid|..];
          AfterAppend(s, mid, last[|mid|..]);
          VersionsNeverFall(past, s, mid, t, last[|mid|..], u, id);
        }
      }
    }
  }

  /** Whatever else is in flight, a clashing pair can break both. */
  lemma ClashesBreakAnywhere(past: seq<Act>, s: Sys, a: Cmd, b: Cmd)
    requires Reaches(INITIAL, past, s) && Offers(s.w, a) && Offers(s.w, b)
    ensures Clash(WriteAheadAim, a, b) ==> BreaksWriteAhead(s, a, b)
    ensures Clash(VersionAim, a, b) ==> LetsVersionFall(s, a, b)
  {
    InvReachable(past, s);
    if Clash(WriteAheadAim, a, b) { ConflictBreaks(s, a, b); }
    if Clash(VersionAim, a, b) { StaleSaveFalls(s, a, b); }
  }
}

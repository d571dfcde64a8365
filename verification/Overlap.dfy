// Which overlapping calls disturb each other. The service takes no lock and checks no version on
// save; write-ahead ordering and monotone versions rest on certain pairs of calls not overlapping.
module Overlap {
  import opened Deployments
  import opened Store
  import opened Machine
  import opened Interleaving
  import opened Mirroring

  predicate SameRelease(a: Cmd, b: Cmd) {
    a.name == b.name && a.namespace == b.namespace
  }

  /** Commands that work on a row they find. */
  predicate Changes(cmd: Cmd) {
    cmd.Upgrade? || cmd.Rollback?
  }

  /** The two properties at stake. */
  datatype Aim = WriteAheadAim | VersionAim

  /** Calls on one release that must not overlap: for write-ahead, two that change a row, or an
      uninstall and anything else; for versions, an upgrade and another call that changes a row. */
  predicate Clash(aim: Aim, a: Cmd, b: Cmd) {
    && SameRelease(a, b)
    && match aim
       case WriteAheadAim => (Changes(a) && Changes(b)) || a.Uninstall? != b.Uninstall?
       case VersionAim => Changes(a) && Changes(b) && (a.Upgrade? || b.Upgrade?)
  }

  /** A call begins while one it clashes with has not returned. */
  predicate Meets(aim: Aim, s: Sys, act: Act) {
    act.Spawn? && exists t | t in s.live :: !s.live[t].pc.Returned? && Clash(aim, s.live[t].cmd, act.cmd)
  }

  /** No two clashing calls overlap in the run. */
  predicate Serialised(aim: Aim, s0: Sys, acts: seq<Act>) {
    acts == [] ||
    var front := acts[..|acts| - 1];
    && Serialised(aim, s0, front)
    && After(s0, front).Some? && !Meets(aim, After(s0, front).value, acts[|acts| - 1])
  }

  /** No call is in flight. */
  predicate Quiet(s: Sys) {
    forall t | t in s.live :: s.live[t].pc.Returned?
  }

  // ---- what a call that may still save needs of the store ----

  /** The call holds an aggregate it may still save. */
  predicate Writes(pc: Pc) {
    Agg(pc).Some? && !pc.PublishFailed? && !pc.PublishDone?
  }

  /** The version the aggregate had when the call last read or wrote its row. */
  function Base(cmd: Cmd, pc: Pc): int
    requires Agg(pc).Some?
  {
    var g := Agg(pc).value;
    if pc.SaveDone? && !cmd.Rollback? then g.version - 1 else g.version
  }

  /** While stored, the row of a call that may still save is as the call knows it. */
  predicate Current(w: World, cmd: Cmd, pc: Pc) {
    && (pc.UninstallDelete? ==> pc.id in w.used)
    && (Writes(pc) ==>
      var g := Agg(pc).value;
      && Matches(Inserted(g), cmd.name, cmd.namespace)
      && (g.id in w.store ==>
        && Matches(w.store[g.id], cmd.name, cmd.namespace) && w.store[g.id].version == Base(cmd, pc)
        && (cmd.Install? ==> w.store[g.id].status in {Pending, Deploying})))
  }

  /** And it is stored, as started by the time Helm is called. */
  predicate Recorded(w: World, cmd: Cmd, pc: Pc) {
    && (Writes(pc) && !Unborn(pc) ==> Agg(pc).value.id in w.store)
    && (pc.CallHelm? ==> w.store[pc.g.id].status == StartedStatus(cmd) && Mirrors(w.store[pc.g.id], pc.g))
    && (pc.UninstallDelete? && pc.id in w.store ==> Matches(w.store[pc.id], cmd.name, cmd.namespace))
  }

  predicate Sound(aim: Aim, w: World, c: Call) {
    Current(w, c.cmd, c.pc) && (aim.WriteAheadAim? ==> Recorded(w, c.cmd, c.pc))
  }

  /** Two calls in flight do not clash, and may save the same row only if both roll it back. */
  predicate Harmless(aim: Aim, c: Call, d: Call) {
    && (!c.pc.Returned? && !d.pc.Returned? ==> !Clash(aim, c.cmd, d.cmd))
    && (Writes(c.pc) && Writes(d.pc) && Agg(c.pc).value.id == Agg(d.pc).value.id ==>
      && c.cmd.Rollback? && d.cmd.Rollback? && SameRelease(c.cmd, d.cmd)
      && Agg(c.pc).value.version == Agg(d.pc).value.version)
    && (Unborn(c.pc) && d.pc.UninstallDelete? ==> c.pc.g.id != d.pc.id)
  }

  ghost predicate Orderly(aim: Aim, s: Sys) {
    && (forall t | t in s.live :: Sound(aim, s.w, s.live[t]))
    && (forall t, u | t in s.live && u in s.live && t != u :: Harmless(aim, s.live[t], s.live[u]))
  }

  // ---- one move ----

  lemma OwnSave(aim: Aim, w: World, cmd: Cmd, pc: Pc, a: Answer)
    requires TableOk(w.store) && PcOk(w, cmd, pc) && Sound(aim, w, Call(cmd, pc)) && Possible(w, cmd, pc, a)
    requires pc.SaveInitial? || pc.SaveStarted? || pc.SaveFailed? || pc.SaveDone?
    ensures Sound(aim, Advance(w, cmd, pc, a).0, Call(cmd, Advance(w, cmd, pc, a).1))
  {
    if a.Ok? { SaveMirrors(w, pc.g); }
  }

  lemma OwnHelm(aim: Aim, w: World, cmd: Cmd, pc: Pc, a: Answer)
    requires PcOk(w, cmd, pc) && Sound(aim, w, Call(cmd, pc)) && Possible(w, cmd, pc, a) && pc.CallHelm?
    ensures Sound(aim, Advance(w, cmd, pc, a).0, Call(cmd, Advance(w, cmd, pc, a).1))
  {}

  lemma OwnSearch(aim: Aim, w: World, cmd: Cmd, pc: Pc, a: Answer)
    requires StoreOk(w) && PcOk(w, cmd, pc) && Sound(aim, w, Call(cmd, pc)) && Possible(w, cmd, pc, a)
    requires Agg(pc).None? || pc.EnsureNamespace? || pc.PublishFailed? || pc.PublishDone?
    ensures Sound(aim, Advance(w, cmd, pc, a).0, Call(cmd, Advance(w, cmd, pc, a).1))
  {
    if a.Hit? { assert RowOk(w, a.id); }
  }

  lemma OwnStep(aim: Aim, w: World, cmd: Cmd, pc: Pc, a: Answer)
    requires StoreOk(w) && PcOk(w, cmd, pc) && Sound(aim, w, Call(cmd, pc)) && Possible(w, cmd, pc, a)
    ensures Sound(aim, Advance(w, cmd, pc, a).0, Call(cmd, Advance(w, cmd, pc, a).1))
  {
    match pc
    case SaveInitial(_) | SaveStarted(_) | SaveFailed(_) | SaveDone(_, _) => OwnSave(aim, w, cmd, pc, a);
    case CallHelm(_) => OwnHelm(aim, w, cmd, pc, a);
    case _ => OwnSearch(aim, w, cmd, pc, a);
  }

  /** A save for one call leaves another as sound as it was. */
  lemma OtherSave(aim: Aim, w: World, c: Call, d: Call)
    requires TableOk(w.store) && Writes(c.pc) && Sound(aim, w, c) && Sound(aim, w, d)
    requires Harmless(aim, c, d) && Harmless(aim, d, c) && Apart(c.pc, d.pc)
    requires Unborn(c.pc) || c.pc.SaveStarted? || c.pc.SaveFailed? || c.pc.SaveDone?
    ensures Sound(aim, Save(w, Agg(c.pc).value), d)
  {
    SaveMirrors(w, Agg(c.pc).value);
  }

  /** So does a deletion. */
  lemma OtherDelete(aim: Aim, w: World, c: Call, d: Call)
    requires Sound(aim, w, c) && Sound(aim, w, d) && Fits(c.cmd, c.pc) && Fits(d.cmd, d.pc)
    requires Harmless(aim, c, d) && c.pc.UninstallDelete?
    ensures Sound(aim, Log(w.(store := w.store - {c.pc.id}), Deleted(c.pc.id)), d)
  {}

  lemma OtherSound(aim: Aim, w: World, c: Call, a: Answer, d: Call)
    requires StoreOk(w) && PcOk(w, c.cmd, c.pc) && PcOk(w, d.cmd, d.pc) && Possible(w, c.cmd, c.pc, a)
    requires Sound(aim, w, c) && Sound(aim, w, d)
    requires Harmless(aim, c, d) && Harmless(aim, d, c) && Apart(c.pc, d.pc)
    ensures Sound(aim, Advance(w, c.cmd, c.pc, a).0, d)
  {
    match c.pc
    case SaveInitial(_) | SaveStarted(_) | SaveFailed(_) | SaveDone(_, _) => OtherSave(aim, w, c, d);
    case UninstallDelete(_) => OtherDelete(aim, w, c, d);
    case _ =>
  }

  /** A call that finds a row it may start on is the only one that may save it, up to rollbacks. */
  lemma OtherFind(aim: Aim, w: World, c: Call, a: Answer, d: Call)
    requires Fits(d.cmd, d.pc) && Possible(w, c.cmd, c.pc, a) && Agg(c.pc).None?
    requires StoreOk(w) && Sound(aim, w, d) && Harmless(aim, c, d) && Harmless(aim, d, c)
    requires Unborn(d.pc) ==> d.pc.g.id !in w.store
    ensures var e := Call(c.cmd, Advance(w, c.cmd, c.pc, a).1);
      Harmless(aim, e, d) && Harmless(aim, d, e)
  {
    if a.Hit? { assert RowOk(w, a.id); }
  }

  lemma OtherHarmless(aim: Aim, w: World, c: Call, a: Answer, d: Call)
    requires Possible(w, c.cmd, c.pc, a) && Agg(c.pc).Some?
    requires Harmless(aim, c, d) && Harmless(aim, d, c)
    ensures var e := Call(c.cmd, Advance(w, c.cmd, c.pc, a).1);
      Harmless(aim, e, d) && Harmless(aim, d, e)
  {}

  lemma OrderlyPort(aim: Aim, s: Sys, act: Act)
    requires Inv(s) && Orderly(aim, s) && act.Port? && Allowed(s, act)
    ensures Orderly(aim, Next(s, act))
  {
    var t, c := Next(s, act), s.live[act.tid];
    OwnStep(aim, s.w, c.cmd, c.pc, act.a);
    forall u | u in s.live && u != act.tid
      ensures Sound(aim, t.w, s.live[u])
      ensures Harmless(aim, t.live[act.tid], s.live[u]) && Harmless(aim, s.live[u], t.live[act.tid])
    {
      OtherSound(aim, s.w, c, act.a, s.live[u]);
      if Agg(c.pc).None? {
        OtherFind(aim, s.w, c, act.a, s.live[u]);
      } else {
        OtherHarmless(aim, s.w, c, act.a, s.live[u]);
      }
    }
  }

  lemma NewCall(aim: Aim, w: World, act: Act, d: Call)
    requires StoreOk(w) && act.Spawn? && (act.cmd.Install? ==> act.id !in w.used)
    requires PcOk(w, d.cmd, d.pc) && Sound(aim, w, d) && (!d.pc.Returned? ==> !Clash(aim, d.cmd, act.cmd))
    ensures var (v, c) := (Opened(w, act.cmd, act.id), Call(act.cmd, Begin(act.cmd, act.semver, act.id, act.now)));
      Sound(aim, v, d) && Harmless(aim, c, d) && Harmless(aim, d, c)
  {}

  lemma NewSound(aim: Aim, w: World, act: Act)
    requires StoreOk(w) && act.Spawn? && (act.cmd.Install? ==> act.id !in w.used)
    ensures var (v, c) := (Opened(w, act.cmd, act.id), Call(act.cmd, Begin(act.cmd, act.semver, act.id, act.now)));
      Sound(aim, v, c)
  {
    RowsAreUsed(w);
  }

  lemma OrderlySpawn(aim: Aim, s: Sys, act: Act)
    requires Inv(s) && Orderly(aim, s) && act.Spawn? && Allowed(s, act) && !Meets(aim, s, act)
    ensures Orderly(aim, Next(s, act))
  {
    var t := Next(s, act);
    NewSound(aim, s.w, act);
    forall u | u in s.live
      ensures Sound(aim, t.w, s.live[u])
      ensures Harmless(aim, t.live[act.tid], s.live[u]) && Harmless(aim, s.live[u], t.live[act.tid])
    {
      NewCall(aim, s.w, act, s.live[u]);
    }
  }

  lemma {:induction false} OrderlyKept(aim: Aim, s0: Sys, acts: seq<Act>, s: Sys)
    requires Inv(s0) && Orderly(aim, s0) && Reaches(s0, acts, s) && Serialised(aim, s0, acts)
    ensures Inv(s) && Orderly(aim, s)
    decreases |acts|
  {
    InvKept(s0, acts, s);
    if acts != [] {
      var front, act := acts[..|acts| - 1], acts[|acts| - 1];
      var m := After(s0, front).value;
      OrderlyKept(aim, s0, front, m);
      match act
      case Spawn(_, _, _, _, _) => OrderlySpawn(aim, m, act);
      case Port(_, _) => OrderlyPort(aim, m, act);
      case Crash =>
    }
  }

  /** A quiet state is orderly, whatever happened before. */
  lemma QuietIsOrderly(aim: Aim, s: Sys)
    requires Quiet(s)
    ensures Orderly(aim, s)
  {}

  lemma OrderlyReached(aim: Aim, past: seq<Act>, s0: Sys, acts: seq<Act>, s: Sys)
    requires Reaches(INITIAL, past, s0) && Quiet(s0) && Reaches(s0, acts, s) && Serialised(aim, s0, acts)
    ensures Inv(s) && Orderly(aim, s)
  {
    InvReachable(past, s0);
    QuietIsOrderly(aim, s0);
    OrderlyKept(aim, s0, acts, s);
  }

  // ---- the results ----

  /** Write-ahead under overlap: from any reachable quiet state, through any interleaving, fault and
      crash, as long as no two calls on one release overlap that both change its row or of which just
      one is an uninstall: a call about to reach Helm has its row stored as DEPLOYING, UPGRADING or
      ROLLING_BACK, mirroring its aggregate. */
  lemma WriteAheadIfSerialised(past: seq<Act>, s0: Sys, acts: seq<Act>, s: Sys, tid: nat)
    requires Reaches(INITIAL, past, s0) && Quiet(s0) && Reaches(s0, acts, s) && Serialised(WriteAheadAim, s0, acts)
    requires tid in s.live && s.live[tid].pc.CallHelm?
    ensures var g := s.live[tid].pc.g;
      && g.id in s.w.store && s.w.store[g.id].status == StartedStatus(s.live[tid].cmd)
      && Mirrors(s.w.store[g.id], g)
  {
    OrderlyReached(WriteAheadAim, past, s0, acts, s);
    RecordedAtHelm(s.w, s.live[tid]);
  }

  lemma RecordedAtHelm(w: World, c: Call)
    requires Sound(WriteAheadAim, w, c) && c.pc.CallHelm?
    ensures c.pc.g.id in w.store && w.store[c.pc.g.id].status == StartedStatus(c.cmd)
    ensures Mirrors(w.store[c.pc.g.id], c.pc.g)
  {}

  /** If the call saves deployment `id` again, then as version `k` or later. */
  predicate Above(c: Call, id: ID, k: int) {
    Writes(c.pc) && Agg(c.pc).value.id == id ==> !Unborn(c.pc) && Base(c.cmd, c.pc) >= k
  }

  predicate StoredAbove(w: World, id: ID, k: int) {
    id in w.used && (id in w.store ==> w.store[id].version >= k)
  }

  /** Deployment `id` is stored with at least version `k`, or will be if it is stored again. */
  ghost predicate Floor(s: Sys, id: ID, k: int) {
    StoredAbove(s.w, id, k) && forall t | t in s.live :: Above(s.live[t], id, k)
  }

  lemma SaveVersion(w: World, g: State)
    ensures g.id in Save(w, g).store && Save(w, g).store[g.id].version == g.version
  {}

  lemma FloorStep(w: World, cmd: Cmd, pc: Pc, a: Answer, id: ID, k: int)
    requires TableOk(w.store) && StoredAbove(w, id, k) && Above(Call(cmd, pc), id, k) && Possible(w, cmd, pc, a)
    requires pc.CallHelm? ==> pc.g.status == StartedStatus(cmd)
    ensures StoredAbove(Advance(w, cmd, pc, a).0, id, k) && Above(Call(cmd, Advance(w, cmd, pc, a).1), id, k)
  {
    if Writes(pc) { SaveVersion(w, Agg(pc).value); }
  }

  lemma FloorPort(s: Sys, act: Act, id: ID, k: int)
    requires Inv(s) && Floor(s, id, k) && act.Port? && Allowed(s, act)
    ensures Floor(Next(s, act), id, k)
  {
    var c := s.live[act.tid];
    assert PcOk(s.w, c.cmd, c.pc);
    FloorStep(s.w, c.cmd, c.pc, act.a, id, k);
  }

  lemma {:induction false} FloorKept(s: Sys, acts: seq<Act>, t: Sys, id: ID, k: int)
    requires Inv(s) && Floor(s, id, k) && Reaches(s, acts, t)
    ensures Floor(t, id, k)
    decreases |acts|
  {
    if acts != [] {
      var front, act := acts[..|acts| - 1], acts[|acts| - 1];
      var m := After(s, front).value;
      InvKept(s, front, m);
      FloorKept(s, front, m, id, k);
      if act.Port? { FloorPort(m, act, id, k); }
    }
  }

  lemma OrderlyFloor(s: Sys, id: ID)
    requires Inv(s) && Orderly(VersionAim, s) && id in s.w.store
    ensures Floor(s, id, s.w.store[id].version)
  {
    assert RowOk(s.w, id);
    forall u | u in s.live ensures Above(s.live[u], id, s.w.store[id].version) {
      assert PcOk(s.w, s.live[u].cmd, s.live[u].pc) && Sound(VersionAim, s.w, s.live[u]);
    }
  }

  /** Stored versions never fall below what they were at a point up to which no upgrade overlapped
      another call changing a row of its release; what happens after that point does not matter. */
  lemma VersionsNeverFall(past: seq<Act>, s0: Sys, acts: seq<Act>, s: Sys, more: seq<Act>, t: Sys, id: ID)
    requires Reaches(INITIAL, past, s0) && Quiet(s0) && Reaches(s0, acts, s) && Serialised(VersionAim, s0, acts)
    requires Reaches(s, more, t) && id in s.w.store && id in t.w.store
    ensures s.w.store[id].version <= t.w.store[id].version
  {
    OrderlyReached(VersionAim, past, s0, acts, s);
    OrderlyFloor(s, id);
    FloorKept(s, more, t, id, s.w.store[id].version);
  }
}

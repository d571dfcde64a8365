// The ports of the service on record: what each was asked, what it answered, and that a call of the
// machine was told exactly that.
module Ports {
  import opened Options
  import opened Deployments
  import opened Store
  import opened Machine
  import opened Sequential

  datatype HelmReply = HelmOk(revision: int) | HelmError(message: string)

  datatype Heard =
    | AskedNamespace(namespace: string, ok: bool)
    | AskedSave(g: State, ok: bool)
    | AskedFind(name: string, namespace: string, ok: bool, hit: Option<ID>)
    | AskedHelm(id: ID, request: HelmRequest, reply: HelmReply)
    | AskedUninstall(name: string, namespace: string, dryRun: bool, ok: bool)
    | AskedDelete(id: ID, ok: bool)
    | AskedPublish(events: seq<Event>, ok: bool)

  // ---- the record is true ----

  predicate ToStore(h: Heard) {
    h.AskedSave? || h.AskedFind? || h.AskedDelete?
  }

  function StoreCalls(hs: seq<Heard>): seq<Heard> {
    if hs == [] then []
    else StoreCalls(hs[..|hs| - 1]) + if ToStore(hs[|hs| - 1]) then [hs[|hs| - 1]] else []
  }

  function OtherCalls(hs: seq<Heard>): seq<Heard> {
    if hs == [] then []
    else OtherCalls(hs[..|hs| - 1]) + if ToStore(hs[|hs| - 1]) then [] else [hs[|hs| - 1]]
  }

  /** How the n-th request to anything but the store is answered, by each port. */
  datatype Environment = Environment(
    cluster: nat -> bool, helm: nat -> HelmReply, uninstaller: nat -> bool, publisher: nat -> bool)

  predicate AsStore(h: Heard, up: nat -> bool, n: nat) {
    match h
    case AskedSave(_, ok) => ok == up(n)
    case AskedFind(_, _, ok, _) => ok == up(n)
    case AskedDelete(_, ok) => ok == up(n)
    case _ => false
  }

  predicate AsOutside(h: Heard, env: Environment, n: nat) {
    match h
    case AskedNamespace(_, ok) => ok == env.cluster(n)
    case AskedHelm(_, _, reply) => reply == env.helm(n)
    case AskedUninstall(_, _, _, ok) => ok == env.uninstaller(n)
    case AskedPublish(_, ok) => ok == env.publisher(n)
    case _ => false
  }

  /** The record holds one entry for each request to the store and to the environment, in order, each
      with the answer that request was given: nothing is left out and nothing made up. */
  ghost predicate Truthful(hs: seq<Heard>, up: nat -> bool, storeAsked: nat, env: Environment, asked: nat) {
    && |StoreCalls(hs)| == storeAsked && (forall n | 0 <= n < storeAsked :: AsStore(StoreCalls(hs)[n], up, n))
    && |OtherCalls(hs)| == asked && (forall n | 0 <= n < asked :: AsOutside(OtherCalls(hs)[n], env, n))
  }

  lemma RecordStore(hs: seq<Heard>, h: Heard, up: nat -> bool, storeAsked: nat, env: Environment, asked: nat)
    requires Truthful(hs, up, storeAsked, env, asked) && AsStore(h, up, storeAsked)
    ensures Truthful(hs + [h], up, storeAsked + 1, env, asked)
  {
    assert (hs + [h])[..|hs|] == hs;
  }

  lemma RecordOutside(hs: seq<Heard>, h: Heard, up: nat -> bool, storeAsked: nat, env: Environment, asked: nat)
    requires Truthful(hs, up, storeAsked, env, asked) && AsOutside(h, env, asked)
    ensures Truthful(hs + [h], up, storeAsked, env, asked + 1)
  {
    assert (hs + [h])[..|hs|] == hs;
  }

  // ---- and the machine was told what is on record ----

  /** The machine waits on port `pc` and is given answer `a`; the port was asked and answered so. */
  predicate Reports(w: World, cmd: Cmd, pc: Pc, a: Answer, h: Heard) {
    match pc
    case EnsureNamespace(_) => h == AskedNamespace(cmd.namespace, a.Ok?)
    case SaveInitial(g) => h == AskedSave(g, a.Ok?)
    case SaveStarted(g) => h == AskedSave(g, a.Ok?)
    case SaveFailed(g) => h == AskedSave(g, a.Ok?)
    case SaveDone(g, _) => h == AskedSave(g, a.Ok?)
    case Find => ReportsSearch(w, cmd, a, h)
    case UninstallFind => ReportsSearch(w, cmd, a, h)
    case CallHelm(g) =>
      && !cmd.Uninstall? && !a.Hit?
      && h == AskedHelm(g.id, RequestOf(cmd), if a.Ok? then HelmOk(a.revision) else HelmError(a.reason))
    case PublishFailed(g) => h == AskedPublish(g.events, a.Ok?)
    case PublishDone(g, _) => h == AskedPublish(g.events, a.Ok?)
    case UninstallHelm => cmd.Uninstall? && h == AskedUninstall(cmd.name, cmd.namespace, cmd.dryRun, a.Ok?)
    case UninstallDelete(id) => h == AskedDelete(id, a.Ok?)
    case Returned(_) => false
  }

  /** A search that finds nothing was refused, or no row has the name. */
  predicate ReportsSearch(w: World, cmd: Cmd, a: Answer, h: Heard) {
    && h.AskedFind? && h.name == cmd.name && h.namespace == cmd.namespace
    && h.hit == (if a.Hit? then Some(a.id) else None) && (a.Hit? ==> h.ok)
    && (h.ok && !a.Hit? ==> forall id | id in w.store :: !Matches(w.store[id], cmd.name, cmd.namespace))
  }

  /** Session `x`, begun in `w0`, has come to wait on `pc` in world `w`. */
  ghost predicate At(w0: World, x: Session, w: World, pc: Pc) {
    SessionAfter(w0, x) == Some((w, pc))
  }

  function Upto(x: Session, k: nat): Session
    requires k <= |x.answers|
  {
    x.(answers := x.answers[..k])
  }

  function Answered(x: Session, a: Answer): Session {
    x.(answers := x.answers + [a])
  }

  /** It has, and its answers are those on record, port by port. */
  ghost predicate Follows(w0: World, x: Session, hs: seq<Heard>, w: World, pc: Pc) {
    && At(w0, x, w, pc) && |hs| == |x.answers|
    && forall k | 0 <= k < |hs| ::
         var m := SessionAfter(w0, Upto(x, k));
         m.Some? && Reports(m.value.0, x.cmd, m.value.1, x.answers[k], hs[k])
  }

  lemma FollowsFromStart(w0: World, x: Session)
    requires CanOpen(w0, x) && x.answers == []
    ensures Follows(w0, x, [], Opened(w0, x.cmd, x.id), Begin(x.cmd, x.semver, x.id, x.now))
  {}

  lemma Proceed(w0: World, x: Session, hs: seq<Heard>, w: World, pc: Pc, a: Answer, h: Heard)
    requires Follows(w0, x, hs, w, pc) && Possible(w, x.cmd, pc, a) && Reports(w, x.cmd, pc, a, h)
    ensures Follows(w0, Answered(x, a), hs + [h], Advance(w, x.cmd, pc, a).0, Advance(w, x.cmd, pc, a).1)
  {
    CallSnoc(Opened(w0, x.cmd, x.id), x.cmd, Begin(x.cmd, x.semver, x.id, x.now), x.answers, a);
    var y := Answered(x, a);
    forall k | 0 <= k < |hs| + 1
      ensures SessionAfter(w0, Upto(y, k)).Some?
      ensures Reports(SessionAfter(w0, Upto(y, k)).value.0, x.cmd, SessionAfter(w0, Upto(y, k)).value.1,
                      y.answers[k], (hs + [h])[k])
    {
      if k < |hs| {
        assert y.answers[..k] == x.answers[..k] && Upto(y, k) == Upto(x, k);
      } else {
        assert y.answers[..k] == x.answers && Upto(y, k) == x;
      }
    }
  }

  /** The same, of the part of a record that begins at position `from`. */
  lemma Told(w0: World, x: Session, record: seq<Heard>, from: nat, w: World, pc: Pc, a: Answer, h: Heard)
    requires from <= |record| && Follows(w0, x, record[from..], w, pc)
    requires Possible(w, x.cmd, pc, a) && Reports(w, x.cmd, pc, a, h)
    ensures Follows(w0, Answered(x, a), (record + [h])[from..], Advance(w, x.cmd, pc, a).0, Advance(w, x.cmd, pc, a).1)
  {
    Proceed(w0, x, record[from..], w, pc, a, h);
    assert (record + [h])[from..] == record[from..] + [h];
  }

  function Plain(ok: bool): Answer {
    if ok then Ok(0, 0, 0) else Answer.Fault("", 0)
  }

  lemma ToldNamespace(w0: World, x: Session, record: seq<Heard>, from: nat, w: World, g: State, ok: bool)
    requires x.cmd.Install? && from <= |record| && Follows(w0, x, record[from..], w, EnsureNamespace(g))
    ensures Follows(w0, Answered(x, Plain(ok)), (record + [AskedNamespace(x.cmd.namespace, ok)])[from..],
                    Log(w, NamespaceEnsured(x.cmd.namespace, ok)), if ok then SaveInitial(g) else Returned(Error))
  {
    Told(w0, x, record, from, w, EnsureNamespace(g), Plain(ok), AskedNamespace(x.cmd.namespace, ok));
  }

  lemma ToldStarted(w0: World, x: Session, record: seq<Heard>, from: nat, w: World, g: State, ok: bool)
    requires from <= |record| && Follows(w0, x, record[from..], w, SaveStarted(g)) && !x.cmd.Uninstall?
    ensures Follows(w0, Answered(x, Plain(ok)), (record + [AskedSave(g, ok)])[from..],
                    if ok then Save(w, g) else w, if ok then CallHelm(g) else Returned(Error))
  {
    Told(w0, x, record, from, w, SaveStarted(g), Plain(ok), AskedSave(g, ok));
  }

  lemma ToldUninstalled(w0: World, x: Session, record: seq<Heard>, from: nat, w: World, ok: bool)
    requires x.cmd.Uninstall? && from <= |record| && Follows(w0, x, record[from..], w, UninstallHelm)
    ensures Follows(w0, Answered(x, Plain(ok)),
                    (record + [AskedUninstall(x.cmd.name, x.cmd.namespace, x.cmd.dryRun, ok)])[from..],
                    Log(w, HelmUninstalled(x.cmd.name, x.cmd.namespace, x.cmd.dryRun, ok)),
                    if ok then UninstallFind else Returned(Error))
  {
    Told(w0, x, record, from, w, UninstallHelm, Plain(ok),
         AskedUninstall(x.cmd.name, x.cmd.namespace, x.cmd.dryRun, ok));
  }

  // ---- a failure of Helm on record ----

  lemma SessionMoves(w0: World, x: Session, k: nat)
    requires SessionAfter(w0, x).Some? && k < |x.answers|
    ensures var m := SessionAfter(w0, Upto(x, k));
      && m.Some? && Possible(m.value.0, x.cmd, m.value.1, x.answers[k])
      && SessionAfter(w0, Upto(x, k + 1)) == Some(Advance(m.value.0, x.cmd, m.value.1, x.answers[k]))
  {
    PrefixRuns(Opened(w0, x.cmd, x.id), x.cmd, Begin(x.cmd, x.semver, x.id, x.now), x.answers, k);
  }

  /** Where Helm failed, the failed aggregate was then saved and its events published, whether or not
      either was answered; and if the save was, the row is FAILED. */
  predicate FailureKept(hs: seq<Heard>, t: Table) {
    forall k | 0 <= k < |hs| && hs[k].AskedHelm? && hs[k].reply.HelmError? ::
      && |hs| == k + 3 && hs[k + 1].AskedSave? && hs[k + 2].AskedPublish?
      && hs[k + 1].g.id == hs[k].id && hs[k + 1].g.status == Failed
      && (hs[k + 1].ok ==> hs[k].id in t && t[hs[k].id].status == Failed)
  }

  lemma FailureIsKept(w0: World, x: Session, hs: seq<Heard>, w: World, reply: Reply)
    requires Follows(w0, x, hs, w, Returned(reply))
    ensures FailureKept(hs, w.store)
  {
    forall k | 0 <= k < |hs| && hs[k].AskedHelm? && hs[k].reply.HelmError?
      ensures |hs| == k + 3 && hs[k + 1].AskedSave? && hs[k + 2].AskedPublish?
      ensures hs[k + 1].g.id == hs[k].id && hs[k + 1].g.status == Failed
      ensures hs[k + 1].ok ==> hs[k].id in w.store && w.store[hs[k].id].status == Failed
    {
      FailureAt(w0, x, hs, w, reply, k);
    }
  }

  lemma FailureAt(w0: World, x: Session, hs: seq<Heard>, w: World, reply: Reply, k: nat)
    requires Follows(w0, x, hs, w, Returned(reply)) && k < |hs| && hs[k].AskedHelm? && hs[k].reply.HelmError?
    ensures |hs| == k + 3 && hs[k + 1].AskedSave? && hs[k + 2].AskedPublish?
    ensures hs[k + 1].g.id == hs[k].id && hs[k + 1].g.status == Failed
    ensures hs[k + 1].ok ==> hs[k].id in w.store && w.store[hs[k].id].status == Failed
  {
    SessionMoves(w0, x, k);
    var m := SessionAfter(w0, Upto(x, k)).value;
    assert Reports(m.0, x.cmd, m.1, x.answers[k], hs[k]) && m.1.CallHelm?;
    var failed := Step(m.1.g, MarkFailed(x.answers[k].reason, x.answers[k].at));
    var v1 := Advance(m.0, x.cmd, m.1, x.answers[k]).0;
    assert SessionAfter(w0, Upto(x, k + 1)) == Some((v1, SaveFailed(failed)));
    Whole(x, k + 1);
    SessionMoves(w0, x, k + 1);
    var v2 := Advance(v1, x.cmd, SaveFailed(failed), x.answers[k + 1]).0;
    assert SessionAfter(w0, Upto(x, k + 2)) == Some((v2, PublishFailed(failed)));
    Whole(x, k + 2);
    SessionMoves(w0, x, k + 2);
    var v3 := Advance(v2, x.cmd, PublishFailed(failed), x.answers[k + 2]).0;
    assert SessionAfter(w0, Upto(x, k + 3)) == Some((v3, Returned(Error)));
    Ends(w0, x, k + 3);
    assert Reports(v1, x.cmd, SaveFailed(failed), x.answers[k + 1], hs[k + 1]);
    assert Reports(v2, x.cmd, PublishFailed(failed), x.answers[k + 2], hs[k + 2]);
  }

  /** Where an uninstall was answered, a row was searched for, and the row found was deleted if the store
      answered that; the store is otherwise as it was. */
  predicate UninstallKept(hs: seq<Heard>, t0: Table, t: Table) {
    && |hs| >= 1 && hs[0].AskedUninstall?
    && (!hs[0].ok ==> |hs| == 1 && t == t0)
    && (hs[0].ok ==>
      && |hs| >= 2 && hs[1].AskedFind?
      && match hs[1].hit
         case None => |hs| == 2 && t == t0
         case Some(id) => |hs| == 3 && hs[2].AskedDelete? && hs[2].id == id && t == if hs[2].ok then t0 - {id} else t0)
  }

  lemma UninstallIsKept(w0: World, x: Session, hs: seq<Heard>, w: World, reply: Reply)
    requires Follows(w0, x, hs, w, Returned(reply)) && x.cmd.Uninstall?
    ensures UninstallKept(hs, w0.store, w.store)
  {
    assert SessionAfter(w0, Upto(x, 0)) == Some((w0, UninstallHelm));
    Whole(x, 0);
    SessionMoves(w0, x, 0);
    var (w1, pc1) := SessionAfter(w0, Upto(x, 1)).value;
    assert Reports(w0, x.cmd, UninstallHelm, x.answers[0], hs[0]) && w1.store == w0.store;
    Whole(x, 1);
    if pc1.Returned? {
      Ends(w0, x, 1);
    } else {
      SessionMoves(w0, x, 1);
      var (w2, pc2) := SessionAfter(w0, Upto(x, 2)).value;
      assert Reports(w1, x.cmd, pc1, x.answers[1], hs[1]) && w2 == w1;
      Whole(x, 2);
      if pc2.Returned? {
        Ends(w0, x, 2);
      } else {
        SessionMoves(w0, x, 2);
        assert Reports(w2, x.cmd, pc2, x.answers[2], hs[2]);
        Ends(w0, x, 3);
      }
    }
  }

  /** A call that has returned is asked nothing more. */
  lemma Ends(w0: World, x: Session, k: nat)
    requires SessionAfter(w0, x).Some? && k <= |x.answers|
    requires SessionAfter(w0, Upto(x, k)).Some? && SessionAfter(w0, Upto(x, k)).value.1.Returned?
    ensures |x.answers| == k && Upto(x, k) == x
  {
    Whole(x, k);
    if k < |x.answers| {
      SessionMoves(w0, x, k);
      assert false;
    }
  }

  lemma Whole(x: Session, k: nat)
    requires k <= |x.answers|
    ensures k == |x.answers| ==> Upto(x, k) == x
  {
    if k == |x.answers| { assert x.answers[..k] == x.answers; }
  }
}

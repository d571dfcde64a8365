// How a stored row relates to the aggregate it was saved from, and which rows a command may work on.
module Mirroring {
  import opened Deployments
  import opened AggregateRuns
  import opened Store
  import opened Machine

  function RowView(r: Row): View {
    View(r.id, r.name, r.namespace, r.chart, r.status, r.version, PastOf(r.history))
  }

  /** Equal but for the chart columns a save never updates. */
  predicate Like(a: View, b: View) {
    a.(chart := b.chart) == b && a.chart.version == b.chart.version
  }

  /** The stored row is the aggregate, up to the frozen chart columns. */
  predicate Mirrors(r: Row, g: State) {
    && Like(RowView(r), ViewOf(g)) && r.history == g.history && r.values == g.values
    && r.annotations == g.annotations && r.labels == g.labels
  }

  /** The chart an install or upgrade asks for, column by column. */
  predicate AskedFor(c: Chart, cmd: Cmd) {
    && (cmd.Install? || cmd.Upgrade?)
    && c.name == cmd.chartName && c.repo == cmd.repoURL && c.version == cmd.chartVersion && c.source == RepoSource
  }

  predicate SameSource(a: Chart, b: Chart) {
    a.name == b.name && a.repo == b.repo && a.source == b.source
  }

  /** The columns no save changes. */
  predicate Kept(w0: World, w: World, id: ID)
    requires id in w.store
  {
    id in w0.store ==>
      && w.store[id].id == w0.store[id].id && w.store[id].name == w0.store[id].name
      && w.store[id].namespace == w0.store[id].namespace && w.store[id].createdAt == w0.store[id].createdAt
      && SameSource(w.store[id].chart, w0.store[id].chart)
  }

  /** A save brings the row up to the aggregate. */
  lemma SaveMirrors(w: World, g: State)
    requires TableOk(w.store)
    requires g.id in w.store ==> Matches(w.store[g.id], g.name, g.namespace)
    ensures var v := Save(w, g);
      && g.id in v.store && Mirrors(v.store[g.id], g) && v.store[g.id].status == g.status && v.store[g.id].id == g.id
      && Matches(v.store[g.id], g.name, g.namespace)
      && Kept(w, v, g.id)
      && forall i | i != g.id :: (i in v.store <==> i in w.store) && (i in w.store ==> v.store[i] == w.store[i])
  {}

  /** The deployments a command may work on: a new one, or a stored one of its release in the status
      its guard asks for. */
  predicate CanStart(w0: World, cmd: Cmd, id: ID) {
    match cmd
    case Install(_, _, _, _, _, _, _, _) => id !in w0.store
    case Upgrade(name, ns, _, _, _, _, _) =>
      id in w0.store && w0.store[id].status == Succeeded && Matches(w0.store[id], name, ns)
    case Rollback(name, ns, _, _) =>
      id in w0.store && w0.store[id].status in {Failed, Succeeded} && Matches(w0.store[id], name, ns)
    case Uninstall(_, _, _) => false
  }
}

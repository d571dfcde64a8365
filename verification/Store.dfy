// The SQLite repository of internal/adapters/storage/sqlite/repository.go as a table of rows.
module Store {
  import opened Options
  import opened Deployments

  const SECOND: Time := 1_000_000_000

  /** RFC 3339 without fractions, as created_at and updated_at are stored. */
  function WholeSeconds(t: Time): Time {
    t - t % SECOND
  }

  datatype Row = Row(
    id: ID, name: string, namespace: string, chart: Chart, values: Values, status: Status, version: int,
    history: seq<Entry>, annotations: map<string, string>, labels: map<string, string>,
    createdAt: Time, updatedAt: Time)

  type Table = map<ID, Row>

  function Inserted(s: State): Row {
    Row(s.id, s.name, s.namespace, s.chart, s.values, s.status, s.version, s.history, s.annotations, s.labels,
        WholeSeconds(s.createdAt), WholeSeconds(s.updatedAt))
  }

  /** The ON CONFLICT clause: chart name, chart repo, chart source and created_at are not among
      the columns it sets, nor are the release name and namespace. */
  function Updated(r: Row, s: State): Row {
    r.(status := s.status, version := s.version, chart := r.chart.(version := s.chart.version), values := s.values,
       history := s.history, annotations := s.annotations, labels := s.labels, updatedAt := WholeSeconds(s.updatedAt))
  }

  function Upsert(t: Table, s: State): Table {
    t[s.id := if s.id in t then Updated(t[s.id], s) else Inserted(s)]
  }

  function Load(r: Row): State {
    State(r.id, r.name, r.namespace, r.chart, r.values, r.status, r.version, r.history, [],
          r.createdAt, r.updatedAt, r.annotations, r.labels)
  }

  /** Rows sit under their own id and hold whole-second times: what every table reached by
      saves and deletes satisfies. */
  ghost predicate TableOk(t: Table) {
    forall id | id in t :: t[id].id == id && WholeSeconds(t[id].createdAt) == t[id].createdAt
                           && WholeSeconds(t[id].updatedAt) == t[id].updatedAt
  }

  predicate Matches(r: Row, name: string, namespace: string) {
    r.name == name && r.namespace == namespace
  }

  datatype Search = Found(d: Deployment) | NotFound | SearchError

  /** The table behind a database that answers or fails each request as `up` has it. */
  class Repository {
    const up: nat -> bool
    var asked: nat
    var table: Table

    constructor (up: nat -> bool)
      ensures this.up == up && asked == 0 && table == map[] && TableOk(table)
    {
      this.up, asked, table := up, 0, map[];
    }

    /** One request: does the database answer it? */
    method Ask() returns (ok: bool)
      modifies this`asked
      ensures ok == up(old(asked)) && asked == old(asked) + 1
    {
      ok := up(asked);
      asked := asked + 1;
    }

    /** Upserts the row if the database answers; a save that returns an error changed nothing. */
    method Save(d: Deployment) returns (ok: bool)
      requires TableOk(table)
      modifies this
      ensures ok == up(old(asked)) && asked == old(asked) + 1
      ensures table == if ok then Upsert(old(table), d.Snapshot()) else old(table)
      ensures TableOk(table)
    {
      ok := Ask();
      if ok {
        var row := Row(d.id, d.name, d.namespace, d.chart, d.values, d.status, d.version, d.history, d.annotations,
                       d.labels, WholeSeconds(d.createdAt), WholeSeconds(d.updatedAt));
        if d.id in table {
          var r := table[d.id];
          row := r.(status := row.status, version := row.version,
                    chart := Chart(r.chart.name, r.chart.repo, row.chart.version, r.chart.source),
                    values := row.values, history := row.history, annotations := row.annotations,
                    labels := row.labels, updatedAt := row.updatedAt);
        }
        table := table[d.id := row];
      }
    }

    method Scan(r: Row) returns (d: Deployment)
      ensures fresh(d) && d.Snapshot() == Load(r)
    {
      d := new Deployment.Reconstitute(r.id, r.name, r.namespace, r.chart, r.values, r.status, r.version, r.history,
                                       r.createdAt, r.updatedAt, r.annotations, r.labels);
    }

    method FindByID(id: ID) returns (r: Search)
      modifies this`asked
      ensures asked == old(asked) + 1
      ensures r.SearchError? <==> !up(old(asked))
      ensures r.NotFound? <==> up(old(asked)) && id !in table
      ensures r.Found? ==> id in table && fresh(r.d) && r.d.Snapshot() == Load(table[id])
    {
      var ok := Ask();
      if !ok {
        return SearchError;
      }
      if id !in table {
        return NotFound;
      }
      var d := Scan(table[id]);
      return Found(d);
    }

    /** Some matching row: (release_name, namespace) is not unique and the query has no order. */
    method FindByReleaseName(name: string, namespace: string) returns (r: Search)
      requires TableOk(table)
      modifies this`asked
      ensures asked == old(asked) + 1
      ensures r.SearchError? <==> !up(old(asked))
      ensures r.NotFound? <==>
        up(old(asked)) && forall id | id in table :: table[id].name != name || table[id].namespace != namespace
      ensures r.Found? ==>
        && r.d.id in table && table[r.d.id].name == name && table[r.d.id].namespace == namespace
        && fresh(r.d) && r.d.Snapshot() == Load(table[r.d.id])
    {
      var ok := Ask();
      if !ok {
        return SearchError;
      }
      if forall id | id in table :: !Matches(table[id], name, namespace) {
        return NotFound;
      }
      var id :| id in table && Matches(table[id], name, namespace);
      var d := Scan(table[id]);
      return Found(d);
    }

    /** Scans these rows, each once, in whatever order the database yields them; it may fail at every
        row. */
    method ScanAll(ids: set<ID>) returns (r: Option<seq<Deployment>>)
      requires TableOk(table) && ids <= table.Keys
      modifies this`asked
      ensures old(asked) <= asked && (r.Some? <==> forall n | old(asked) <= n < asked :: up(n))
      ensures r.Some? ==>
        && (forall i | 0 <= i < |r.value| :: fresh(r.value[i]) && r.value[i].id in ids)
        && (forall i | 0 <= i < |r.value| :: r.value[i].Snapshot() == Load(table[r.value[i].id]))
        && (forall i, j | 0 <= i < j < |r.value| :: r.value[i].id != r.value[j].id)
        && (forall id | id in ids :: exists i | 0 <= i < |r.value| :: r.value[i].id == id)
    {
      var todo := ids;
      var result: seq<Deployment> := [];
      while todo != {}
        invariant old(asked) <= asked && forall n | old(asked) <= n < asked :: up(n)
        invariant todo <= ids
        invariant forall i | 0 <= i < |result| :: fresh(result[i]) && result[i].id in ids - todo
        invariant forall i | 0 <= i < |result| :: result[i].Snapshot() == Load(table[result[i].id])
        invariant forall i, j | 0 <= i < j < |result| :: result[i].id != result[j].id
        invariant forall id | id in ids && id !in todo :: exists i | 0 <= i < |result| :: result[i].id == id
        decreases todo
      {
        var ok := Ask();
        if !ok {
          return None;
        }
        var id :| id in todo;
        var d := Scan(table[id]);
        ghost var before := result;
        result := result + [d];
        todo := todo - {id};
        assert result[|before|].id == id;
        assert forall i | 0 <= i < |before| :: result[i] == before[i];
      }
      return Some(result);
    }

    /** The rows of one status, each once, if the database answers the query and every row of it. */
    method ListByStatus(st: Status) returns (r: Option<seq<Deployment>>)
      requires TableOk(table)
      modifies this`asked
      ensures old(asked) < asked && (r.Some? <==> forall n | old(asked) <= n < asked :: up(n))
      ensures r.Some? ==>
        && (forall i | 0 <= i < |r.value| :: fresh(r.value[i]))
        && (forall i | 0 <= i < |r.value| :: r.value[i].id in table && table[r.value[i].id].status == st)
        && (forall i | 0 <= i < |r.value| :: r.value[i].Snapshot() == Load(table[r.value[i].id]))
        && (forall i, j | 0 <= i < j < |r.value| :: r.value[i].id != r.value[j].id)
        && (forall id | id in table && table[id].status == st :: exists i | 0 <= i < |r.value| :: r.value[i].id == id)
    {
      var ok := Ask();
      if !ok {
        return None;
      }
      ghost var ids := WithStatus(table, st);
      assert forall id | id in table && table[id].status == st :: id in ids;
      r := ScanAll(WithStatus(table, st));
    }

    method Delete(id: ID) returns (ok: bool)
      requires TableOk(table)
      modifies this
      ensures ok == up(old(asked)) && asked == old(asked) + 1
      ensures table == if ok then old(table) - {id} else old(table)
      ensures TableOk(table)
    {
      ok := Ask();
      if ok {
        table := table - {id};
      }
    }
  }

  function WithStatus(t: Table, st: Status): set<ID> {
    set id | id in t && t[id].status == st
  }

  // ---- laws of the table ----

  /** Stored times are whole seconds, less than a second before the time saved. */
  lemma TimesAreCut(t: Time)
    ensures WholeSeconds(t) <= t < WholeSeconds(t) + 1_000_000_000 && WholeSeconds(t) % 1_000_000_000 == 0
  {
    assert WholeSeconds(t) == SECOND * (t / SECOND);
  }

  /** Saving twice is saving once. */
  lemma SaveIsIdempotent(t: Table, s: State)
    ensures Upsert(Upsert(t, s), s) == Upsert(t, s)
  {
    var u := Upsert(t, s);
    assert Upsert(u, s)[s.id] == u[s.id];
  }

  /** Saving a row that was just loaded leaves the table as it is. */
  lemma SaveOfLoadedIsNothing(t: Table, id: ID)
    requires TableOk(t) && id in t
    ensures Upsert(t, Load(t[id])) == t
  {
    assert Upsert(t, Load(t[id]))[id] == t[id];
  }

  /** Load after save: times lose their fraction and the buffer is empty; on a later save the
      name, namespace, created_at and the chart's name, repo and source are those of the first. */
  lemma LoadAfterSave(t: Table, s: State)
    requires TableOk(t)
    ensures s.id in Upsert(t, s) && TableOk(Upsert(t, s))
    ensures var l := Load(Upsert(t, s)[s.id]);
      if s.id !in t
      then l == s.(events := [], createdAt := WholeSeconds(s.createdAt), updatedAt := WholeSeconds(s.updatedAt))
      else
        var first := Load(t[s.id]);
        l == s.(events := [], updatedAt := WholeSeconds(s.updatedAt),
                name := first.name, namespace := first.namespace, createdAt := first.createdAt,
                chart := Chart(first.chart.name, first.chart.repo, s.chart.version, first.chart.source))
    ensures forall id | id != s.id :: (id in Upsert(t, s) <==> id in t) && (id in t ==> Upsert(t, s)[id] == t[id])
  {}

  /** Load after save is the identity on a stored deployment's own data exactly when the saved
      aggregate kept the frozen columns, which StartUpgrade need not. */
  lemma SavePreservesExactly(t: Table, s: State)
    requires TableOk(t) && s.id in t && s.name == t[s.id].name && s.namespace == t[s.id].namespace
    requires s.createdAt == t[s.id].createdAt && WholeSeconds(s.updatedAt) == s.updatedAt
    ensures Load(Upsert(t, s)[s.id]) == s.(events := []) <==>
      s.chart.name == t[s.id].chart.name && s.chart.repo == t[s.id].chart.repo && s.chart.source == t[s.id].chart.source
  {}

  datatype Write = Put(s: State) | Remove(id: ID)

  function Written(t: Table, ws: seq<Write>): Table {
    if ws == [] then t
    else
      var u, w := Written(t, ws[..|ws| - 1]), ws[|ws| - 1];
      match w
      case Put(s) => Upsert(u, s)
      case Remove(id) => u - {id}
  }

  /** As long as a row is not deleted, no sequence of saves and deletes changes its frozen columns. */
  lemma {:induction false} FrozenColumns(t: Table, ws: seq<Write>, id: ID)
    requires id in t && Remove(id) !in ws
    ensures id in Written(t, ws)
    ensures var r := Written(t, ws)[id];
      && r.id == t[id].id && r.name == t[id].name && r.namespace == t[id].namespace && r.createdAt == t[id].createdAt
      && r.chart.name == t[id].chart.name && r.chart.repo == t[id].chart.repo && r.chart.source == t[id].chart.source
    decreases |ws|
  {
    if ws != [] {
      FrozenColumns(t, ws[..|ws| - 1], id);
    }
  }

  const ALL_STATUSES: seq<Status> :=
    [Pending, Planning, Validating, Deploying, Succeeded, Failed, RollingBack, RolledBack, Upgrading, Uninstalled]

  function TotalOver(t: Table, sts: seq<Status>): nat {
    if sts == [] then 0 else TotalOver(t, sts[..|sts| - 1]) + |WithStatus(t, sts[|sts| - 1])|
  }

  function WithAny(t: Table, sts: seq<Status>): set<ID> {
    set id | id in t && t[id].status in sts
  }

  lemma WithAnySnoc(t: Table, sts: seq<Status>, st: Status)
    requires st !in sts
    ensures |WithAny(t, sts + [st])| == |WithAny(t, sts)| + |WithStatus(t, st)|
  {
    assert WithAny(t, sts + [st]) == WithAny(t, sts) + WithStatus(t, st);
    assert WithAny(t, sts) !! WithStatus(t, st);
  }

  lemma {:induction false} ListsAddUp(t: Table, sts: seq<Status>)
    requires forall i, j | 0 <= i < j < |sts| :: sts[i] != sts[j]
    ensures TotalOver(t, sts) == |WithAny(t, sts)|
    decreases |sts|
  {
    if sts == [] {
      assert WithAny(t, sts) == {};
    } else {
      var front, st := sts[..|sts| - 1], sts[|sts| - 1];
      ListsAddUp(t, front);
      WithAnySnoc(t, front, st);
      assert sts == front + [st];
    }
  }

  lemma EveryStatusListed(st: Status)
    ensures st in ALL_STATUSES
  {
    var k := match st
      case Pending => 0 case Planning => 1 case Validating => 2 case Deploying => 3 case Succeeded => 4
      case Failed => 5 case RollingBack => 6 case RolledBack => 7 case Upgrading => 8 case Uninstalled => 9;
    assert ALL_STATUSES[k] == st;
  }

  /** The lists over all statuses partition the table: every row is in exactly one. */
  lemma ListsPartitionTable(t: Table)
    ensures forall id :: id in t <==> exists st :: id in WithStatus(t, st)
    ensures forall st, st' | st != st' :: WithStatus(t, st) !! WithStatus(t, st')
    ensures TotalOver(t, ALL_STATUSES) == |t|
  {
    forall id | id in t ensures id in WithStatus(t, t[id].status) {}
    ListsAddUp(t, ALL_STATUSES);
    forall id | id in t ensures id in WithAny(t, ALL_STATUSES) {
      EveryStatusListed(t[id].status);
    }
    assert WithAny(t, ALL_STATUSES) == t.Keys;
  }
}

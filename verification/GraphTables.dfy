/** The workflow_nodes and workflow_edges tables (services/api/internal/migrate/sql/
    005_workflow_graph.sql) and the statements SaveGraph issues on them, in order
    (services/api/internal/repository/workflows.go). */
module GraphTables {
  import opened Wrappers

  type Uuid = nat

  datatype NodeRow = NodeRow(workflow: Uuid, nodeType: string, agent: Option<Uuid>, x: real, y: real, config: string)
  datatype EdgeRow = EdgeRow(workflow: Uuid, source: Uuid, target: Uuid, caption: Option<string>)
  datatype Tables = Tables(workflows: set<Uuid>, agents: set<Uuid>, nodes: map<Uuid, NodeRow>, edges: map<Uuid, EdgeRow>)

  datatype Result = Saved(tables: Tables) | UnknownEdgeNode | Rejected

  /** One upsert, its parameters already cast to the column types. */
  datatype NodeReq = NodeReq(id: Uuid, row: NodeRow)

  /** One edge: its client ids looked up and cast. */
  datatype EdgeReq = Unknown | Uncastable | Between(source: Uuid, target: Uuid, caption: Option<string>)

  predicate Foreign(t: Tables, wf: Uuid, u: Uuid) { u in t.nodes && t.nodes[u].workflow != wf }

  /** Foreign keys hold. */
  ghost predicate Integrity(t: Tables) {
    && (forall u :: u in t.nodes ==> t.nodes[u].workflow in t.workflows)
    && (forall u :: u in t.nodes && t.nodes[u].agent.Some? ==> t.nodes[u].agent.value in t.agents)
    && (forall e :: e in t.edges ==> t.edges[e].workflow in t.workflows)
    && (forall e :: e in t.edges ==> t.edges[e].source in t.nodes)
    && (forall e :: e in t.edges ==> t.edges[e].target in t.nodes)
  }

  // -------------------------------------------------------------- statements

  /** Delete the workflow's nodes that are not kept; edges at them go with them. */
  function DeleteAbsent(t: Tables, wf: Uuid, keep: set<Uuid>): Tables {
    var nodes := map u | u in t.nodes && (t.nodes[u].workflow != wf || u in keep) :: t.nodes[u];
    t.(nodes := nodes, edges := map e | e in t.edges && t.edges[e].source in nodes && t.edges[e].target in nodes :: t.edges[e])
  }

  /** Insert or update; a row of another workflow is left alone without an error. */
  function Upsert(t: Tables, req: NodeReq): Result {
    if Foreign(t, req.row.workflow, req.id) then Saved(t)
    else if req.row.agent.Some? && req.row.agent.value !in t.agents then Rejected
    else if req.id !in t.nodes && req.row.workflow !in t.workflows then Rejected
    else Saved(t.(nodes := t.nodes[req.id := req.row]))
  }

  /** The first n upserts. */
  function Upserts(t: Tables, reqs: seq<Option<NodeReq>>, n: nat): Result
    requires n <= |reqs|
    decreases n
  {
    if n == 0 then Saved(t)
    else match Upserts(t, reqs, n - 1)
      case Saved(s) => if reqs[n - 1].None? then Rejected else Upsert(s, reqs[n - 1].value)
      case error => error
  }

  function ClearEdges(t: Tables, wf: Uuid): Tables {
    t.(edges := map e | e in t.edges && t.edges[e].workflow != wf :: t.edges[e])
  }

  function InsertEdge(t: Tables, wf: Uuid, id: Uuid, req: EdgeReq): Result {
    match req
    case Unknown => UnknownEdgeNode
    case Uncastable => Rejected
    case Between(source, target, caption) =>
      if id in t.edges || wf !in t.workflows || source !in t.nodes || target !in t.nodes then Rejected
      else Saved(t.(edges := t.edges[id := EdgeRow(wf, source, target, caption)]))
  }

  /** The first n edge insertions, the k-th under the fresh id `ids[k]`. */
  function InsertEdges(t: Tables, wf: Uuid, reqs: seq<EdgeReq>, ids: seq<Uuid>, n: nat): Result
    requires n <= |reqs| == |ids|
    decreases n
  {
    if n == 0 then Saved(t)
    else match InsertEdges(t, wf, reqs, ids, n - 1)
      case Saved(s) => InsertEdge(s, wf, ids[n - 1], reqs[n - 1])
      case error => error
  }

  /** Everything inside the transaction. `keep` is absent when an id does not cast. */
  function SaveAll(t: Tables, wf: Uuid, keep: Option<set<Uuid>>, nodes: seq<Option<NodeReq>>, edges: seq<EdgeReq>, ids: seq<Uuid>): Result
    requires |edges| == |ids|
  {
    if keep.None? then Rejected
    else match Upserts(DeleteAbsent(t, wf, keep.value), nodes, |nodes|)
      case Saved(s) => InsertEdges(ClearEdges(s, wf), wf, edges, ids, |edges|)
      case error => error
  }

  // ------------------------------------------------------------------- upserts

  ghost predicate ForWorkflow(reqs: seq<Option<NodeReq>>, wf: Uuid) {
    forall i :: 0 <= i < |reqs| && reqs[i].Some? ==> reqs[i].value.row.workflow == wf
  }

  predicate Names(reqs: seq<Option<NodeReq>>, i: nat, u: Uuid) {
    i < |reqs| && reqs[i].Some? && reqs[i].value.id == u
  }

  lemma {:induction false} UpsertsKeepRest(t: Tables, reqs: seq<Option<NodeReq>>, n: nat)
    requires n <= |reqs| && Upserts(t, reqs, n).Saved?
    ensures var s := Upserts(t, reqs, n).tables;
            s.workflows == t.workflows && s.agents == t.agents && s.edges == t.edges
    decreases n
  {
    if n > 0 { UpsertsKeepRest(t, reqs, n - 1); }
  }

  /** Which rows exist afterwards, and that nobody else's row has moved. */
  lemma {:induction false} UpsertsNode(t: Tables, wf: Uuid, reqs: seq<Option<NodeReq>>, n: nat, u: Uuid)
    requires n <= |reqs| && Upserts(t, reqs, n).Saved? && ForWorkflow(reqs, wf)
    ensures var s := Upserts(t, reqs, n).tables;
            && (u in s.nodes <==> u in t.nodes || exists i: nat :: i < n && Names(reqs, i, u))
            && (Foreign(s, wf, u) <==> Foreign(t, wf, u))
            && ((Foreign(t, wf, u) || !exists i: nat :: i < n && Names(reqs, i, u)) && u in t.nodes ==> s.nodes[u] == t.nodes[u])
    decreases n
  {
    if n > 0 {
      UpsertsNode(t, wf, reqs, n - 1, u);
      assert reqs[n - 1].value.row.workflow == wf;
      if reqs[n - 1].value.id == u { assert Names(reqs, n - 1, u); }
    }
  }

  ghost predicate DistinctNodes(reqs: seq<Option<NodeReq>>) {
    forall i, j, u :: 0 <= i < j < |reqs| && Names(reqs, i, u) ==> !Names(reqs, j, u)
  }

  /** With distinct ids, each own row is exactly the one submitted. */
  lemma {:induction false} UpsertsRow(t: Tables, wf: Uuid, reqs: seq<Option<NodeReq>>, n: nat, i: nat, u: Uuid)
    requires i < n <= |reqs| && Upserts(t, reqs, n).Saved? && ForWorkflow(reqs, wf) && DistinctNodes(reqs)
    requires Names(reqs, i, u) && !Foreign(t, wf, u)
    ensures var s := Upserts(t, reqs, n).tables; u in s.nodes && s.nodes[u] == reqs[i].value.row
    decreases n
  {
    if i < n - 1 {
      UpsertsRow(t, wf, reqs, n - 1, i, u);
      assert !Names(reqs, n - 1, u);
    } else {
      UpsertsNode(t, wf, reqs, n - 1, u);
    }
  }

  predicate Acceptable(t: Tables, wf: Uuid, req: Option<NodeReq>) {
    req.Some? && (Foreign(t, wf, req.value.id) || req.value.row.agent.None? || req.value.row.agent.value in t.agents)
  }

  /** The upserts succeed exactly when every parameter casts and every agent that
      would be written exists. */
  lemma {:induction false} UpsertsSucceed(t: Tables, wf: Uuid, reqs: seq<Option<NodeReq>>, n: nat)
    requires n <= |reqs| && wf in t.workflows && ForWorkflow(reqs, wf)
    ensures Upserts(t, reqs, n).Saved? <==> forall i :: 0 <= i < n ==> Acceptable(t, wf, reqs[i])
    ensures !Upserts(t, reqs, n).UnknownEdgeNode?
    decreases n
  {
    if n > 0 {
      UpsertsSucceed(t, wf, reqs, n - 1);
      if Upserts(t, reqs, n - 1).Saved? {
        UpsertsKeepRest(t, reqs, n - 1);
        if reqs[n - 1].Some? { UpsertsNode(t, wf, reqs, n - 1, reqs[n - 1].value.id); }
        assert Upserts(t, reqs, n).Saved? <==> Acceptable(t, wf, reqs[n - 1]);
      }
    }
  }

  // --------------------------------------------------------------------- edges

  lemma {:induction false} InsertEdgesKeepRest(t: Tables, wf: Uuid, reqs: seq<EdgeReq>, ids: seq<Uuid>, n: nat)
    requires n <= |reqs| == |ids| && InsertEdges(t, wf, reqs, ids, n).Saved?
    ensures var s := InsertEdges(t, wf, reqs, ids, n).tables;
            s.workflows == t.workflows && s.agents == t.agents && s.nodes == t.nodes
    decreases n
  {
    if n > 0 { InsertEdgesKeepRest(t, wf, reqs, ids, n - 1); }
  }

  predicate EdgeAt(reqs: seq<EdgeReq>, ids: seq<Uuid>, k: nat, e: Uuid) { k < |reqs| == |ids| && ids[k] == e }

  /** The edges afterwards: those before, and one per insertion, as submitted. */
  lemma {:induction false} InsertEdgesRow(t: Tables, wf: Uuid, reqs: seq<EdgeReq>, ids: seq<Uuid>, n: nat, e: Uuid)
    requires n <= |reqs| == |ids| && InsertEdges(t, wf, reqs, ids, n).Saved?
    ensures var s := InsertEdges(t, wf, reqs, ids, n).tables;
            && (e in t.edges ==> e in s.edges && s.edges[e] == t.edges[e])
            && (e in s.edges ==> e in t.edges || exists k: nat :: k < n && EdgeAt(reqs, ids, k, e))
            && (forall k: nat :: k < n && EdgeAt(reqs, ids, k, e) ==> Written(s, wf, reqs[k], e) && e !in t.edges)
    decreases n
  {
    if n > 0 {
      InsertEdgesRow(t, wf, reqs, ids, n - 1, e);
      if ids[n - 1] == e { assert EdgeAt(reqs, ids, n - 1, e); }
      var before := InsertEdges(t, wf, reqs, ids, n - 1).tables;
      var s := InsertEdges(t, wf, reqs, ids, n).tables;
      forall k: nat | k < n && EdgeAt(reqs, ids, k, e) ensures Written(s, wf, reqs[k], e) && e !in t.edges {
        if k < n - 1 { assert Written(before, wf, reqs[k], e); }
      }
    }
  }

  predicate Written(t: Tables, wf: Uuid, req: EdgeReq, e: Uuid) {
    req.Between? && e in t.edges && t.edges[e] == EdgeRow(wf, req.source, req.target, req.caption)
  }

  ghost predicate FreshIds(t: Tables, ids: seq<Uuid>) {
    && (forall k :: 0 <= k < |ids| ==> ids[k] !in t.edges)
    && (forall j, k :: 0 <= j < k < |ids| ==> ids[j] != ids[k])
  }

  predicate Joins(t: Tables, req: EdgeReq) { req.Between? && req.source in t.nodes && req.target in t.nodes }

  lemma {:induction false} InsertEdgesSucceed(t: Tables, wf: Uuid, reqs: seq<EdgeReq>, ids: seq<Uuid>, n: nat)
    requires n <= |reqs| == |ids| && wf in t.workflows && FreshIds(t, ids)
    ensures InsertEdges(t, wf, reqs, ids, n).Saved? <==> forall k :: 0 <= k < n ==> Joins(t, reqs[k])
    decreases n
  {
    if n > 0 {
      InsertEdgesSucceed(t, wf, reqs, ids, n - 1);
      if InsertEdges(t, wf, reqs, ids, n - 1).Saved? {
        InsertEdgesKeepRest(t, wf, reqs, ids, n - 1);
        InsertEdgesRow(t, wf, reqs, ids, n - 1, ids[n - 1]);
        assert ids[n - 1] !in InsertEdges(t, wf, reqs, ids, n - 1).tables.edges;
        assert InsertEdges(t, wf, reqs, ids, n).Saved? <==> Joins(t, reqs[n - 1]);
      }
    }
  }

  // ------------------------------------------------------- the whole transaction

  lemma {:induction false} SaveStages(t: Tables, wf: Uuid, keep: Option<set<Uuid>>, nodes: seq<Option<NodeReq>>, edges: seq<EdgeReq>, ids: seq<Uuid>)
    requires |edges| == |ids| && SaveAll(t, wf, keep, nodes, edges, ids).Saved?
    ensures keep.Some? && Upserts(DeleteAbsent(t, wf, keep.value), nodes, |nodes|).Saved?
    ensures var s := Upserts(DeleteAbsent(t, wf, keep.value), nodes, |nodes|).tables; var r := SaveAll(t, wf, keep, nodes, edges, ids).tables;
            && InsertEdges(ClearEdges(s, wf), wf, edges, ids, |edges|) == Saved(r)
            && r.nodes == s.nodes && r.workflows == t.workflows && r.agents == t.agents && s.edges == DeleteAbsent(t, wf, keep.value).edges
  {
    UpsertsKeepRest(DeleteAbsent(t, wf, keep.value), nodes, |nodes|);
    var s := Upserts(DeleteAbsent(t, wf, keep.value), nodes, |nodes|).tables;
    InsertEdgesKeepRest(ClearEdges(s, wf), wf, edges, ids, |edges|);
  }

  /** Whatever is submitted, another workflow's node rows stay exactly as they are,
      and no row changes hands. */
  lemma ForeignNodesUntouched(t: Tables, wf: Uuid, keep: Option<set<Uuid>>, nodes: seq<Option<NodeReq>>, edges: seq<EdgeReq>, ids: seq<Uuid>, u: Uuid)
    requires |edges| == |ids| && ForWorkflow(nodes, wf) && SaveAll(t, wf, keep, nodes, edges, ids).Saved?
    ensures var r := SaveAll(t, wf, keep, nodes, edges, ids).tables;
            && (Foreign(r, wf, u) <==> Foreign(t, wf, u))
            && (Foreign(t, wf, u) ==> r.nodes[u] == t.nodes[u])
  {
    SaveStages(t, wf, keep, nodes, edges, ids);
    UpsertsNode(DeleteAbsent(t, wf, keep.value), wf, nodes, |nodes|, u);
  }

  /** Another workflow's edge is lost only when it hung on a node that was deleted. */
  lemma ForeignEdgesCascade(t: Tables, wf: Uuid, keep: Option<set<Uuid>>, nodes: seq<Option<NodeReq>>, edges: seq<EdgeReq>, ids: seq<Uuid>, e: Uuid)
    requires |edges| == |ids| && SaveAll(t, wf, keep, nodes, edges, ids).Saved?
    requires Integrity(t) && FreshIds(t, ids) && e in t.edges && t.edges[e].workflow != wf
    ensures var r := SaveAll(t, wf, keep, nodes, edges, ids).tables;
            e in r.edges <==> Survives(t, wf, keep.value, t.edges[e].source) && Survives(t, wf, keep.value, t.edges[e].target)
    ensures var r := SaveAll(t, wf, keep, nodes, edges, ids).tables; e in r.edges ==> r.edges[e] == t.edges[e]
  {
    SaveStages(t, wf, keep, nodes, edges, ids);
    var s := Upserts(DeleteAbsent(t, wf, keep.value), nodes, |nodes|).tables;
    InsertEdgesRow(ClearEdges(s, wf), wf, edges, ids, |edges|, e);
  }

  predicate Survives(t: Tables, wf: Uuid, keep: set<Uuid>, u: Uuid) {
    u in t.nodes && (t.nodes[u].workflow != wf || u in keep)
  }

  /** The workflow's nodes afterwards: those submitted, apart from ids that belong to
      another workflow, and those it had that were kept. */
  lemma SavedNodes(t: Tables, wf: Uuid, keep: Option<set<Uuid>>, nodes: seq<Option<NodeReq>>, edges: seq<EdgeReq>, ids: seq<Uuid>, u: Uuid)
    requires |edges| == |ids| && ForWorkflow(nodes, wf) && SaveAll(t, wf, keep, nodes, edges, ids).Saved?
    ensures var r := SaveAll(t, wf, keep, nodes, edges, ids).tables;
            && (u in r.nodes && r.nodes[u].workflow == wf <==>
                !Foreign(t, wf, u) && ((u in t.nodes && u in keep.value) || exists i: nat :: i < |nodes| && Names(nodes, i, u)))
            && (!(exists i: nat :: i < |nodes| && Names(nodes, i, u)) && u in r.nodes ==> u in t.nodes && r.nodes[u] == t.nodes[u])
  {
    SaveStages(t, wf, keep, nodes, edges, ids);
    UpsertsNode(DeleteAbsent(t, wf, keep.value), wf, nodes, |nodes|, u);
  }

  lemma SavedRow(t: Tables, wf: Uuid, keep: Option<set<Uuid>>, nodes: seq<Option<NodeReq>>, edges: seq<EdgeReq>, ids: seq<Uuid>, i: nat, u: Uuid)
    requires |edges| == |ids| && ForWorkflow(nodes, wf) && DistinctNodes(nodes) && SaveAll(t, wf, keep, nodes, edges, ids).Saved?
    requires i < |nodes| && Names(nodes, i, u) && !Foreign(t, wf, u)
    ensures var r := SaveAll(t, wf, keep, nodes, edges, ids).tables; u in r.nodes && r.nodes[u] == nodes[i].value.row
  {
    SaveStages(t, wf, keep, nodes, edges, ids);
    UpsertsRow(DeleteAbsent(t, wf, keep.value), wf, nodes, |nodes|, i, u);
  }

  /** The workflow's edges afterwards are exactly those submitted, one row each. */
  lemma SavedEdges(t: Tables, wf: Uuid, keep: Option<set<Uuid>>, nodes: seq<Option<NodeReq>>, edges: seq<EdgeReq>, ids: seq<Uuid>, e: Uuid)
    requires |edges| == |ids| && SaveAll(t, wf, keep, nodes, edges, ids).Saved?
    ensures var r := SaveAll(t, wf, keep, nodes, edges, ids).tables;
            && (e in r.edges && r.edges[e].workflow == wf <==> exists k: nat :: k < |edges| && EdgeAt(edges, ids, k, e))
            && (forall k: nat :: k < |edges| && EdgeAt(edges, ids, k, e) ==> Written(r, wf, edges[k], e))
  {
    SaveStages(t, wf, keep, nodes, edges, ids);
    var s := Upserts(DeleteAbsent(t, wf, keep.value), nodes, |nodes|).tables;
    InsertEdgesRow(ClearEdges(s, wf), wf, edges, ids, |edges|, e);
  }

  ghost predicate Known(t: Tables, keep: set<Uuid>, wf: Uuid, nodes: seq<Option<NodeReq>>, u: Uuid) {
    (exists i: nat :: i < |nodes| && Names(nodes, i, u)) || Survives(t, wf, keep, u)
  }

  ghost predicate Insertable(t: Tables, keep: set<Uuid>, wf: Uuid, nodes: seq<Option<NodeReq>>, edge: EdgeReq) {
    edge.Between? && Known(t, keep, wf, nodes, edge.source) && Known(t, keep, wf, nodes, edge.target)
  }

  /** The transaction commits exactly when every parameter casts, every agent to be
      written exists, and every edge joins known nodes. */
  lemma SaveSucceeds(t: Tables, wf: Uuid, keep: Option<set<Uuid>>, nodes: seq<Option<NodeReq>>, edges: seq<EdgeReq>, ids: seq<Uuid>)
    requires |edges| == |ids| && wf in t.workflows && FreshIds(t, ids) && ForWorkflow(nodes, wf)
    ensures SaveAll(t, wf, keep, nodes, edges, ids).Saved? <==>
            && keep.Some? && (forall i :: 0 <= i < |nodes| ==> Acceptable(t, wf, nodes[i]))
            && (forall k :: 0 <= k < |edges| ==> Insertable(t, keep.value, wf, nodes, edges[k]))
  {
    if keep.Some? {
      var d := DeleteAbsent(t, wf, keep.value);
      UpsertsSucceed(d, wf, nodes, |nodes|);
      if Upserts(d, nodes, |nodes|).Saved? {
        var s := Upserts(d, nodes, |nodes|).tables;
        UpsertsKeepRest(d, nodes, |nodes|);
        InsertEdgesSucceed(ClearEdges(s, wf), wf, edges, ids, |edges|);
        forall k | 0 <= k < |edges| && edges[k].Between?
          ensures Joins(ClearEdges(s, wf), edges[k]) <==> Insertable(t, keep.value, wf, nodes, edges[k])
        {
          UpsertsNode(d, wf, nodes, |nodes|, edges[k].source);
          UpsertsNode(d, wf, nodes, |nodes|, edges[k].target);
        }
      }
    }
  }

  predicate Own(t: Tables, wf: Uuid, u: Uuid) { u in t.nodes && t.nodes[u].workflow == wf }

  /** A workflow reads back a closed graph, every edge between its own nodes, exactly
      when no submitted edge names another workflow's node: the guard on the upsert
      keeps the row but does not keep the id out of the edges. */
  lemma GraphClosed(t: Tables, wf: Uuid, keep: Option<set<Uuid>>, nodes: seq<Option<NodeReq>>, edges: seq<EdgeReq>, ids: seq<Uuid>)
    requires |edges| == |ids| && FreshIds(t, ids) && ForWorkflow(nodes, wf) && SaveAll(t, wf, keep, nodes, edges, ids).Saved?
    ensures ClosedFor(SaveAll(t, wf, keep, nodes, edges, ids).tables, wf) <==>
            forall k :: 0 <= k < |edges| && edges[k].Between? ==> !Foreign(t, wf, edges[k].source) && !Foreign(t, wf, edges[k].target)
  {
    var r := SaveAll(t, wf, keep, nodes, edges, ids).tables;
    forall k | 0 <= k < |edges| ensures
      var e := ids[k];
      && edges[k].Between? && e in r.edges && r.edges[e] == EdgeRow(wf, edges[k].source, edges[k].target, edges[k].caption)
      && (Own(r, wf, edges[k].source) <==> !Foreign(t, wf, edges[k].source))
      && (Own(r, wf, edges[k].target) <==> !Foreign(t, wf, edges[k].target))
    {
      EdgeEnds(t, wf, keep, nodes, edges, ids, k);
    }
    forall e | e in r.edges && r.edges[e].workflow == wf ensures exists k :: 0 <= k < |edges| && ids[k] == e {
      SavedEdges(t, wf, keep, nodes, edges, ids, e);
      var k: nat :| k < |edges| && EdgeAt(edges, ids, k, e);
      assert ids[k] == e;
    }
  }

  ghost predicate ClosedFor(t: Tables, wf: Uuid) {
    forall e :: e in t.edges && t.edges[e].workflow == wf ==> Own(t, wf, t.edges[e].source) && Own(t, wf, t.edges[e].target)
  }

  lemma EdgeEnds(t: Tables, wf: Uuid, keep: Option<set<Uuid>>, nodes: seq<Option<NodeReq>>, edges: seq<EdgeReq>, ids: seq<Uuid>, k: nat)
    requires |edges| == |ids| && ForWorkflow(nodes, wf) && SaveAll(t, wf, keep, nodes, edges, ids).Saved? && k < |edges|
    ensures var r := SaveAll(t, wf, keep, nodes, edges, ids).tables;
            && edges[k].Between? && ids[k] in r.edges
            && r.edges[ids[k]] == EdgeRow(wf, edges[k].source, edges[k].target, edges[k].caption)
            && (Own(r, wf, edges[k].source) <==> !Foreign(t, wf, edges[k].source))
            && (Own(r, wf, edges[k].target) <==> !Foreign(t, wf, edges[k].target))
  {
    var r := SaveAll(t, wf, keep, nodes, edges, ids).tables;
    SavedEdges(t, wf, keep, nodes, edges, ids, ids[k]);
    assert EdgeAt(edges, ids, k, ids[k]);
    assert Written(r, wf, edges[k], ids[k]);
    EndsExist(t, wf, keep, nodes, edges, ids, k);
    ForeignNodesUntouched(t, wf, keep, nodes, edges, ids, edges[k].source);
    ForeignNodesUntouched(t, wf, keep, nodes, edges, ids, edges[k].target);
  }

  lemma EndsExist(t: Tables, wf: Uuid, keep: Option<set<Uuid>>, nodes: seq<Option<NodeReq>>, edges: seq<EdgeReq>, ids: seq<Uuid>, k: nat)
    requires |edges| == |ids| && SaveAll(t, wf, keep, nodes, edges, ids).Saved? && k < |edges| && edges[k].Between?
    ensures var r := SaveAll(t, wf, keep, nodes, edges, ids).tables; edges[k].source in r.nodes && edges[k].target in r.nodes
  {
    SaveStages(t, wf, keep, nodes, edges, ids);
    var s := Upserts(DeleteAbsent(t, wf, keep.value), nodes, |nodes|).tables;
    InsertedEnds(ClearEdges(s, wf), wf, edges, ids, |edges|, k);
  }

  lemma {:induction false} InsertedEnds(t: Tables, wf: Uuid, reqs: seq<EdgeReq>, ids: seq<Uuid>, n: nat, k: nat)
    requires k < n <= |reqs| == |ids| && InsertEdges(t, wf, reqs, ids, n).Saved? && reqs[k].Between?
    ensures reqs[k].source in t.nodes && reqs[k].target in t.nodes
    decreases n
  {
    InsertEdgesKeepRest(t, wf, reqs, ids, n - 1);
    if k < n - 1 { InsertedEnds(t, wf, reqs, ids, n - 1, k); }
  }

  /** Foreign keys still hold after a save. */
  lemma SaveKeepsIntegrity(t: Tables, wf: Uuid, keep: Option<set<Uuid>>, nodes: seq<Option<NodeReq>>, edges: seq<EdgeReq>, ids: seq<Uuid>)
    requires |edges| == |ids| && Integrity(t) && SaveAll(t, wf, keep, nodes, edges, ids).Saved?
    ensures Integrity(SaveAll(t, wf, keep, nodes, edges, ids).tables)
  {
    var d := DeleteAbsent(t, wf, keep.value);
    UpsertsKeepIntegrity(d, nodes, |nodes|);
    InsertEdgesKeepIntegrity(ClearEdges(Upserts(d, nodes, |nodes|).tables, wf), wf, edges, ids, |edges|);
  }

  lemma {:induction false} UpsertsKeepIntegrity(t: Tables, reqs: seq<Option<NodeReq>>, n: nat)
    requires n <= |reqs| && Integrity(t) && Upserts(t, reqs, n).Saved?
    ensures Integrity(Upserts(t, reqs, n).tables)
    decreases n
  {
    if n > 0 { UpsertsKeepIntegrity(t, reqs, n - 1); }
  }

  lemma {:induction false} InsertEdgesKeepIntegrity(t: Tables, wf: Uuid, reqs: seq<EdgeReq>, ids: seq<Uuid>, n: nat)
    requires n <= |reqs| == |ids| && Integrity(t) && InsertEdges(t, wf, reqs, ids, n).Saved?
    ensures Integrity(InsertEdges(t, wf, reqs, ids, n).tables)
    decreases n
  {
    if n > 0 { InsertEdgesKeepIntegrity(t, wf, reqs, ids, n - 1); }
  }
}

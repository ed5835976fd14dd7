/** Saving and loading a workflow's canvas (services/api/internal/repository/
    workflows.go, tx.go): client ids are resolved to row ids, and everything is
    written in one transaction. */
module WorkflowGraph {
  import opened Wrappers
  import opened DatabaseCalls
  import opened GraphTables

  /** Which strings are taken for UUIDs, what the database's casts make of a text,
      and how it prints a UUID. */
  datatype Codec = Codec(isUuid: string -> bool, cast: string -> Option<Uuid>, text: Uuid -> string, jsonb: string -> Option<string>)

  ghost predicate Lawful(c: Codec) {
    && (forall u: Uuid :: c.isUuid(c.text(u)))
    && (forall u: Uuid :: c.cast(c.text(u)) == Some(u))
    && c.cast("") == None && c.jsonb("") == None
    && (forall t, v :: c.jsonb(t) == Some(v) ==> c.jsonb(v) == Some(v))
  }

  datatype ClientNode = ClientNode(id: string, nodeType: string, agent: string, x: real, y: real, config: string)
  datatype ClientEdge = ClientEdge(source: string, target: string, caption: string)
  datatype LoadedEdge = LoadedEdge(id: string, edge: ClientEdge)

  // --------------------------------------------------------------- resolution

  function IdOf(c: Codec, mint: nat -> Uuid, nodes: seq<ClientNode>, k: nat): string
    requires k < |nodes|
  {
    if c.isUuid(nodes[k].id) then nodes[k].id else c.text(mint(k))
  }

  /** Client id to row id, over the first n nodes; a repeated id keeps the last. */
  function Resolve(c: Codec, mint: nat -> Uuid, nodes: seq<ClientNode>, n: nat): map<string, string>
    requires n <= |nodes|
    decreases n
  {
    if n == 0 then map[] else Resolve(c, mint, nodes, n - 1)[nodes[n - 1].id := IdOf(c, mint, nodes, n - 1)]
  }

  /** The array of kept ids, absent when one of them does not cast. */
  function Keep(c: Codec, mint: nat -> Uuid, nodes: seq<ClientNode>, n: nat): Option<set<Uuid>>
    requires n <= |nodes|
    decreases n
  {
    if n == 0 then Some({})
    else
      var rest, last := Keep(c, mint, nodes, n - 1), c.cast(IdOf(c, mint, nodes, n - 1));
      if rest.None? || last.None? then None else Some(rest.value + {last.value})
  }

  function Request(c: Codec, wf: Uuid, id: string, node: ClientNode): Option<NodeReq> {
    var row := c.cast(id);
    var agent := c.cast(node.agent);
    var config := c.jsonb(if node.config == "" then "{}" else node.config);
    if row.None? || config.None? || (node.agent != "" && agent.None?) then None
    else Some(NodeReq(row.value, NodeRow(wf, node.nodeType, if node.agent == "" then None else agent, node.x, node.y, config.value)))
  }

  function EdgeRequest(c: Codec, ids: map<string, string>, e: ClientEdge): EdgeReq {
    if e.source !in ids || e.target !in ids then Unknown
    else
      var source, target := c.cast(ids[e.source]), c.cast(ids[e.target]);
      if source.None? || target.None? then Uncastable
      else Between(source.value, target.value, if e.caption == "" then None else Some(e.caption))
  }

  function Requests(c: Codec, wf: Uuid, ids: map<string, string>, nodes: seq<ClientNode>): seq<Option<NodeReq>>
    requires forall k :: 0 <= k < |nodes| ==> nodes[k].id in ids
  {
    seq(|nodes|, k requires 0 <= k < |nodes| => Request(c, wf, ids[nodes[k].id], nodes[k]))
  }

  function EdgeRequests(c: Codec, ids: map<string, string>, edges: seq<ClientEdge>): seq<EdgeReq> {
    seq(|edges|, k requires 0 <= k < |edges| => EdgeRequest(c, ids, edges[k]))
  }

  lemma {:induction false} ResolveDomain(c: Codec, mint: nat -> Uuid, nodes: seq<ClientNode>, n: nat)
    requires n <= |nodes|
    ensures forall k :: 0 <= k < n ==> nodes[k].id in Resolve(c, mint, nodes, n)
    decreases n
  {
    if n > 0 { ResolveDomain(c, mint, nodes, n - 1); }
  }

  /** What SaveGraph makes of the tables. */
  function Save(c: Codec, t: Tables, wf: Uuid, nodes: seq<ClientNode>, edges: seq<ClientEdge>, mint: nat -> Uuid, minted: seq<Uuid>): Result
    requires |minted| == |edges|
  {
    ResolveDomain(c, mint, nodes, |nodes|);
    var ids := Resolve(c, mint, nodes, |nodes|);
    SaveAll(t, wf, Keep(c, mint, nodes, |nodes|), Requests(c, wf, ids, nodes), EdgeRequests(c, ids, edges), minted)
  }

  /** COALESCE to the empty string. */
  function Text(c: Codec, u: Option<Uuid>): string { if u.None? then "" else c.text(u.value) }

  function Loaded(c: Codec, u: Uuid, row: NodeRow): ClientNode {
    ClientNode(c.text(u), row.nodeType, Text(c, row.agent), row.x, row.y, row.config)
  }

  function LoadedFrom(c: Codec, row: EdgeRow): ClientEdge {
    ClientEdge(c.text(row.source), c.text(row.target), if row.caption.None? then "" else row.caption.value)
  }

  function GraphNodes(c: Codec, t: Tables, wf: Uuid): set<ClientNode> {
    set u | u in t.nodes && t.nodes[u].workflow == wf :: Loaded(c, u, t.nodes[u])
  }

  function Shown(c: Codec, e: Uuid, row: EdgeRow): LoadedEdge { LoadedEdge(c.text(e), LoadedFrom(c, row)) }

  function GraphEdges(c: Codec, t: Tables, wf: Uuid): set<LoadedEdge> {
    set e | e in t.edges && t.edges[e].workflow == wf :: Shown(c, e, t.edges[e])
  }

  // ----------------------------------------------------------------- programs

  datatype Reply = Committed | UnknownNode | Failure

  /** Database calls between begin and commit: two deletes, the upserts, the inserts. */
  function BodyCalls(nodes: seq<ClientNode>, edges: seq<ClientEdge>): nat { 2 + |nodes| + |edges| }

  class Repository {
    const codec: Codec
    var tables: Tables
    var calls: Calls

    constructor (codec: Codec, tables: Tables, calls: Calls)
      ensures this.codec == codec && this.tables == tables && this.calls == calls
    {
      this.codec, this.tables, this.calls := codec, tables, calls;
    }

    method Call() returns (ok: bool)
      modifies this`calls
      ensures ok == Served(old(calls)) && calls == Later(old(calls))
    {
      ok := calls != [] && calls[0];
      if calls != [] { calls := calls[1..]; }
    }

    /** WithTx around the body: the tables change at the commit or not at all. */
    method SaveGraph(wf: Uuid, nodes: seq<ClientNode>, edges: seq<ClientEdge>, mint: nat -> Uuid, minted: seq<Uuid>)
      returns (reply: Reply)
      requires |minted| == |edges|
      modifies this
      ensures !reply.Committed? ==> tables == old(tables)
      ensures var r := Save(codec, old(tables), wf, nodes, edges, mint, minted);
              && (reply.Committed? <==> Take(old(calls), BodyCalls(nodes, edges) + 2).served && r.Saved?)
              && (reply.Committed? ==> r == Saved(tables))
              && (reply.UnknownNode? ==> r.UnknownEdgeNode?)
              && (Take(old(calls), BodyCalls(nodes, edges) + 1).served ==> (reply.UnknownNode? <==> r.UnknownEdgeNode?))
    {
      WholeTransaction(calls, BodyCalls(nodes, edges));
      var ok := Call();
      if !ok { return Failure; }
      var tx;
      tx, reply := Body(wf, nodes, edges, mint, minted);
      if !reply.Committed? { return; }
      ok := Call();
      if !ok { return Failure; }
      tables := tx;
    }

    method Body(wf: Uuid, nodes: seq<ClientNode>, edges: seq<ClientEdge>, mint: nat -> Uuid, minted: seq<Uuid>)
      returns (tx: Tables, reply: Reply)
      requires |minted| == |edges|
      modifies this`calls
      ensures var served, r := Take(old(calls), BodyCalls(nodes, edges)), Save(codec, tables, wf, nodes, edges, mint, minted);
              && (reply.Committed? <==> served.served && r.Saved?)
              && (reply.Committed? ==> r == Saved(tx) && calls == served.left)
              && (reply.UnknownNode? ==> r.UnknownEdgeNode?)
              && (served.served ==> (reply.UnknownNode? <==> r.UnknownEdgeNode?))
    {
      tx := tables;
      var ids, keep := ResolveIds(nodes, mint);
      ResolveDomain(codec, mint, nodes, |nodes|);
      WholeBody(calls, nodes, edges);
      var ok := Call();
      if !ok || keep.None? { return tx, Failure; }
      tx := DeleteAbsent(tx, wf, keep.value);
      tx, reply := UpsertNodes(tx, wf, ids, nodes);
      if !reply.Committed? { return; }
      ok := Call();
      if !ok { return tx, Failure; }
      tx, reply := WriteEdges(ClearEdges(tx, wf), wf, ids, edges, minted);
    }

    method ResolveIds(nodes: seq<ClientNode>, mint: nat -> Uuid) returns (ids: map<string, string>, keep: Option<set<Uuid>>)
      ensures ids == Resolve(codec, mint, nodes, |nodes|) && keep == Keep(codec, mint, nodes, |nodes|)
    {
      ids, keep := map[], Some({});
      for k := 0 to |nodes|
        invariant ids == Resolve(codec, mint, nodes, k) && keep == Keep(codec, mint, nodes, k)
      {
        var id := nodes[k].id;
        if !codec.isUuid(id) { id := codec.text(mint(k)); }
        ids := ids[nodes[k].id := id];
        var cast := codec.cast(id);
        keep := if keep.None? || cast.None? then None else Some(keep.value + {cast.value});
      }
    }

    method UpsertOne(t: Tables, wf: Uuid, id: string, node: ClientNode) returns (ok: bool, tx: Tables)
      modifies this`calls
      ensures var row := Request(codec, wf, id, node);
              && (ok <==> Served(old(calls)) && row.Some? && Upsert(t, row.value).Saved?)
              && (ok ==> Upsert(t, row.value) == Saved(tx))
              && calls == Later(old(calls))
    {
      tx := t;
      ok := Call();
      if !ok { return; }
      var row := Request(codec, wf, id, node);
      if row.None? { return false, tx; }
      match Upsert(t, row.value) {
        case Saved(next) => tx := next;
        case _ => ok := false;
      }
    }

    method UpsertNodes(t: Tables, wf: Uuid, ids: map<string, string>, nodes: seq<ClientNode>) returns (tx: Tables, reply: Reply)
      requires forall k :: 0 <= k < |nodes| ==> nodes[k].id in ids
      modifies this`calls
      ensures var r, served := Upserts(t, Requests(codec, wf, ids, nodes), |nodes|), Take(old(calls), |nodes|);
              && !reply.UnknownNode? && !r.UnknownEdgeNode?
              && (reply.Committed? <==> served.served && r.Saved?)
              && (reply.Committed? ==> r == Saved(tx) && calls == served.left)
    {
      tx := t;
      ghost var rows, all := Requests(codec, wf, ids, nodes), Take(calls, |nodes|);
      UpsertsReject(t, rows, |nodes|);
      for k := 0 to |nodes|
        invariant Upserts(t, rows, k) == Saved(tx)
        invariant Take(calls, |nodes| - k) == all
      {
        UpsertsNext(t, rows, k);
        assert rows[k] == Request(codec, wf, ids[nodes[k].id], nodes[k]);
        var ok;
        ok, tx := UpsertOne(tx, wf, ids[nodes[k].id], nodes[k]);
        if !ok { return tx, Failure; }
      }
      reply := Committed;
    }

    method WriteEdges(t: Tables, wf: Uuid, ids: map<string, string>, edges: seq<ClientEdge>, minted: seq<Uuid>)
      returns (tx: Tables, reply: Reply)
      requires |minted| == |edges|
      modifies this`calls
      ensures var r, served := InsertEdges(t, wf, EdgeRequests(codec, ids, edges), minted, |edges|), Take(old(calls), |edges|);
              && (reply.Committed? <==> served.served && r.Saved?)
              && (reply.Committed? ==> r == Saved(tx) && calls == served.left)
              && (reply.UnknownNode? ==> r.UnknownEdgeNode?)
              && (served.served ==> (reply.UnknownNode? <==> r.UnknownEdgeNode?))
    {
      tx := t;
      ghost var links, all := EdgeRequests(codec, ids, edges), Take(calls, |edges|);
      for k := 0 to |edges|
        invariant InsertEdges(t, wf, links, minted, k) == Saved(tx)
        invariant Take(calls, |edges| - k) == all
      {
        InsertEdgesStop(t, wf, links, minted, k + 1, |edges|);
        var link := EdgeRequest(codec, ids, edges[k]);
        assert link == links[k];
        if link.Unknown? { return tx, UnknownNode; }
        var ok := Call();
        if !ok { return tx, Failure; }
        match InsertEdge(tx, wf, minted[k], link) {
          case Saved(next) => tx := next;
          case _ => return tx, Failure;
        }
      }
      reply := Committed;
    }

    /** The rows of one workflow, whatever their order. */
    method GetGraph(wf: Uuid) returns (ok: bool, nodes: set<ClientNode>, edges: set<LoadedEdge>)
      modifies this`calls
      ensures ok <==> Take(old(calls), 2).served
      ensures ok ==> nodes == GraphNodes(codec, tables, wf) && edges == GraphEdges(codec, tables, wf)
    {
      assert Take(calls, 2).served <==> Served(calls) && Served(Later(calls)) by { TakeMore(calls, 1, 1); }
      nodes, edges := {}, {};
      ok := Call();
      if !ok { return; }
      nodes := GraphNodes(codec, tables, wf);
      ok := Call();
      if ok { edges := GraphEdges(codec, tables, wf); }
    }
  }

  /** Begin, body, commit. */
  lemma {:induction false} WholeTransaction(calls: Calls, n: nat)
    ensures var body := Take(Later(calls), n);
            && (Take(calls, n + 1).served <==> Served(calls) && body.served)
            && (Take(calls, n + 2).served <==> Served(calls) && body.served && Served(body.left))
  {
    TakeMore(Later(calls), n, 1);
  }

  /** Delete, upserts, delete, inserts. */
  lemma {:induction false} WholeBody(calls: Calls, nodes: seq<ClientNode>, edges: seq<ClientEdge>)
    ensures var all, upserts := Take(calls, BodyCalls(nodes, edges)), Take(Later(calls), |nodes|);
            && (all.served <==> Served(calls) && upserts.served && Served(upserts.left) && Take(Later(upserts.left), |edges|).served)
            && (all.served ==> all.left == Take(Later(upserts.left), |edges|).left)
  {
    TakeMore(Later(calls), |nodes|, 1 + |edges|);
  }

  lemma {:induction false} UpsertsStop(t: Tables, reqs: seq<Option<NodeReq>>, n: nat, m: nat)
    requires n <= m <= |reqs|
    ensures !Upserts(t, reqs, n).Saved? ==> Upserts(t, reqs, m) == Upserts(t, reqs, n)
    decreases m
  {
    if n < m { UpsertsStop(t, reqs, n, m - 1); }
  }

  lemma UpsertsNext(t: Tables, reqs: seq<Option<NodeReq>>, k: nat)
    requires k < |reqs| && Upserts(t, reqs, k).Saved?
    ensures reqs[k].None? ==> !Upserts(t, reqs, |reqs|).Saved?
    ensures reqs[k].Some? ==> Upserts(t, reqs, k + 1) == Upsert(Upserts(t, reqs, k).tables, reqs[k].value)
    ensures reqs[k].Some? && !Upsert(Upserts(t, reqs, k).tables, reqs[k].value).Saved? ==> !Upserts(t, reqs, |reqs|).Saved?
  {
    UpsertsStop(t, reqs, k + 1, |reqs|);
  }

  lemma {:induction false} UpsertsReject(t: Tables, reqs: seq<Option<NodeReq>>, n: nat)
    requires n <= |reqs|
    ensures !Upserts(t, reqs, n).UnknownEdgeNode?
    decreases n
  {
    if n > 0 { UpsertsReject(t, reqs, n - 1); }
  }

  lemma {:induction false} InsertEdgesStop(t: Tables, wf: Uuid, reqs: seq<EdgeReq>, ids: seq<Uuid>, n: nat, m: nat)
    requires n <= m <= |reqs| == |ids|
    ensures !InsertEdges(t, wf, reqs, ids, n).Saved? ==> InsertEdges(t, wf, reqs, ids, m) == InsertEdges(t, wf, reqs, ids, n)
    decreases m
  {
    if n < m { InsertEdgesStop(t, wf, reqs, ids, n, m - 1); }
  }

  // --------------------------------------------------------------- round trip

  /** The row node k belongs in: the UUID it names, or the one minted for it. */
  function Target(c: Codec, mint: nat -> Uuid, nodes: seq<ClientNode>, k: nat): Option<Uuid>
    requires k < |nodes|
  {
    if c.isUuid(nodes[k].id) then c.cast(nodes[k].id) else Some(mint(k))
  }

  predicate Named(c: Codec, nodes: seq<ClientNode>, k: nat) { k < |nodes| && c.isUuid(nodes[k].id) }

  /** No client id and no UUID occurs twice, and the ids minted for the other nodes are
      new: none twice, and none that a client named. */
  ghost predicate DistinctIds(c: Codec, mint: nat -> Uuid, nodes: seq<ClientNode>) {
    && (forall i, j :: 0 <= i < j < |nodes| ==> nodes[i].id != nodes[j].id)
    && (forall i, j :: 0 <= i < j < |nodes| && Named(c, nodes, i) && Named(c, nodes, j) ==> c.cast(nodes[i].id) != c.cast(nodes[j].id))
    && (forall i, j :: 0 <= i < j < |nodes| && !Named(c, nodes, i) && !Named(c, nodes, j) ==> mint(i) != mint(j))
    && (forall i, j :: 0 <= i < |nodes| && 0 <= j < |nodes| && Named(c, nodes, i) && !Named(c, nodes, j) ==> c.cast(nodes[i].id) != Some(mint(j)))
  }

  lemma DistinctTargets(c: Codec, mint: nat -> Uuid, nodes: seq<ClientNode>, i: nat, j: nat)
    requires DistinctIds(c, mint, nodes) && i < |nodes| && j < |nodes| && i != j
    ensures Target(c, mint, nodes, i) != Target(c, mint, nodes, j)
  {
    var _ := Named(c, nodes, i) && Named(c, nodes, j);
  }

  /** What resolving makes of a client id casts to the row it belongs in. */
  lemma IdCasts(c: Codec, mint: nat -> Uuid, nodes: seq<ClientNode>, k: nat)
    requires Lawful(c) && k < |nodes|
    ensures c.cast(IdOf(c, mint, nodes, k)) == Target(c, mint, nodes, k)
  {
  }

  /** A node whose client id is no UUID gets the id minted for it, and no other node does. */
  lemma {:induction false} MintedId(c: Codec, mint: nat -> Uuid, nodes: seq<ClientNode>, k: nat)
    requires DistinctIds(c, mint, nodes) && k < |nodes| && !c.isUuid(nodes[k].id)
    ensures var ids := Resolve(c, mint, nodes, |nodes|); nodes[k].id in ids && ids[nodes[k].id] == c.text(mint(k))
    ensures forall j :: 0 <= j < |nodes| && Target(c, mint, nodes, j) == Some(mint(k)) ==> j == k
  {
    ResolveAt(c, mint, nodes, |nodes|, k);
    forall j | 0 <= j < |nodes| && j != k ensures Target(c, mint, nodes, j) != Some(mint(k)) { DistinctTargets(c, mint, nodes, k, j); }
  }

  lemma {:induction false} ResolveAt(c: Codec, mint: nat -> Uuid, nodes: seq<ClientNode>, n: nat, k: nat)
    requires k < n <= |nodes| && DistinctIds(c, mint, nodes)
    ensures var ids := Resolve(c, mint, nodes, n); nodes[k].id in ids && ids[nodes[k].id] == IdOf(c, mint, nodes, k)
    decreases n
  {
    if k < n - 1 { ResolveAt(c, mint, nodes, n - 1, k); }
  }

  lemma {:induction false} ResolveOnly(c: Codec, mint: nat -> Uuid, nodes: seq<ClientNode>, n: nat, id: string)
    requires n <= |nodes| && id in Resolve(c, mint, nodes, n)
    ensures exists k :: 0 <= k < n && nodes[k].id == id && Resolve(c, mint, nodes, n)[id] == IdOf(c, mint, nodes, k)
    decreases n
  {
    if id == nodes[n - 1].id {
      assert nodes[n - 1].id == id;
    } else {
      ResolveOnly(c, mint, nodes, n - 1, id);
    }
  }

  lemma {:induction false} KeepExactly(c: Codec, mint: nat -> Uuid, nodes: seq<ClientNode>, n: nat)
    requires Lawful(c) && n <= |nodes|
    ensures Keep(c, mint, nodes, n).Some? <==> forall k :: 0 <= k < n ==> Target(c, mint, nodes, k).Some?
    ensures Keep(c, mint, nodes, n).Some? ==>
              forall u :: u in Keep(c, mint, nodes, n).value <==> exists k :: 0 <= k < n && Target(c, mint, nodes, k) == Some(u)
    decreases n
  {
    if n > 0 {
      KeepExactly(c, mint, nodes, n - 1);
      IdCasts(c, mint, nodes, n - 1);
    }
  }

  ghost predicate Submitted(nodes: seq<ClientNode>, id: string) { exists k :: 0 <= k < |nodes| && nodes[k].id == id }

  /** The id is a row's that is not another workflow's, the agent exists, and the
      config is JSON. */
  ghost predicate StorableNode(c: Codec, t: Tables, wf: Uuid, mint: nat -> Uuid, nodes: seq<ClientNode>, k: nat)
    requires k < |nodes|
  {
    var n, row := nodes[k], Target(c, mint, nodes, k);
    && row.Some? && !Foreign(t, wf, row.value)
    && (n.agent != "" ==> c.cast(n.agent).Some? && c.cast(n.agent).value in t.agents)
    && c.jsonb(if n.config == "" then "{}" else n.config).Some?
  }

  /** Every parameter casts, agents exist, no id belongs to another workflow, and the
      edges run over the submitted nodes. */
  ghost predicate Storable(c: Codec, t: Tables, wf: Uuid, mint: nat -> Uuid, nodes: seq<ClientNode>, edges: seq<ClientEdge>) {
    && (forall k :: 0 <= k < |nodes| ==> StorableNode(c, t, wf, mint, nodes, k))
    && (forall k :: 0 <= k < |edges| ==> Submitted(nodes, edges[k].source) && Submitted(nodes, edges[k].target))
  }

  /** The node as it should read back. */
  function Expected(c: Codec, mint: nat -> Uuid, nodes: seq<ClientNode>, k: nat): ClientNode
    requires k < |nodes|
  {
    var n, config := nodes[k], c.jsonb(if nodes[k].config == "" then "{}" else nodes[k].config);
    ClientNode(Text(c, Target(c, mint, nodes, k)), n.nodeType, if n.agent == "" then "" else Text(c, c.cast(n.agent)),
               n.x, n.y, if config.None? then "" else config.value)
  }

  lemma RowReadsBack(c: Codec, wf: Uuid, mint: nat -> Uuid, nodes: seq<ClientNode>, k: nat)
    requires Lawful(c) && k < |nodes| && Request(c, wf, IdOf(c, mint, nodes, k), nodes[k]).Some?
    ensures var req := Request(c, wf, IdOf(c, mint, nodes, k), nodes[k]).value;
            Target(c, mint, nodes, k) == Some(req.id) && Loaded(c, req.id, req.row) == Expected(c, mint, nodes, k)
  {
    IdCasts(c, mint, nodes, k);
  }

  /** The requests of a graph with distinct ids, seen without the map. */
  lemma {:induction false} RequestsAt(c: Codec, wf: Uuid, mint: nat -> Uuid, nodes: seq<ClientNode>, k: nat)
    requires k < |nodes| && DistinctIds(c, mint, nodes)
    ensures (forall i :: 0 <= i < |nodes| ==> nodes[i].id in Resolve(c, mint, nodes, |nodes|))
    ensures Requests(c, wf, Resolve(c, mint, nodes, |nodes|), nodes)[k] == Request(c, wf, IdOf(c, mint, nodes, k), nodes[k])
  {
    ResolveDomain(c, mint, nodes, |nodes|);
    ResolveAt(c, mint, nodes, |nodes|, k);
  }

  lemma {:induction false} RequestsAreDistinct(c: Codec, wf: Uuid, mint: nat -> Uuid, nodes: seq<ClientNode>)
    requires Lawful(c) && DistinctIds(c, mint, nodes)
    requires forall i :: 0 <= i < |nodes| ==> nodes[i].id in Resolve(c, mint, nodes, |nodes|)
    ensures DistinctNodes(Requests(c, wf, Resolve(c, mint, nodes, |nodes|), nodes))
    ensures ForWorkflow(Requests(c, wf, Resolve(c, mint, nodes, |nodes|), nodes), wf)
  {
    var reqs := Requests(c, wf, Resolve(c, mint, nodes, |nodes|), nodes);
    forall i, j, u | 0 <= i < j < |reqs| && Names(reqs, i, u) ensures !Names(reqs, j, u) {
      RequestsAt(c, wf, mint, nodes, i);
      RequestsAt(c, wf, mint, nodes, j);
      IdCasts(c, mint, nodes, i);
      IdCasts(c, mint, nodes, j);
      DistinctTargets(c, mint, nodes, i, j);
    }
  }

  /** The first node with this client id. */
  function NodeNamed(nodes: seq<ClientNode>, id: string): (k: nat)
    ensures k <= |nodes| && (k < |nodes| ==> nodes[k].id == id)
  {
    if nodes == [] || nodes[0].id == id then 0 else 1 + NodeNamed(nodes[1..], id)
  }

  lemma {:induction false} NodeNamedIs(nodes: seq<ClientNode>, k: nat)
    requires k < |nodes| && forall i, j :: 0 <= i < j < |nodes| ==> nodes[i].id != nodes[j].id
    ensures NodeNamed(nodes, nodes[k].id) == k
  {
    if k > 0 { NodeNamedIs(nodes[1..], k - 1); }
  }

  /** The row of the node that has this client id. */
  function RowId(c: Codec, mint: nat -> Uuid, nodes: seq<ClientNode>, id: string): Option<Uuid> {
    var k := NodeNamed(nodes, id);
    if k < |nodes| then Target(c, mint, nodes, k) else None
  }

  lemma {:induction false} RowIdOf(c: Codec, mint: nat -> Uuid, nodes: seq<ClientNode>, k: nat)
    requires Lawful(c) && k < |nodes| && DistinctIds(c, mint, nodes)
    ensures RowId(c, mint, nodes, nodes[k].id) == Target(c, mint, nodes, k)
    ensures var ids := Resolve(c, mint, nodes, |nodes|);
            nodes[k].id in ids && c.cast(ids[nodes[k].id]) == Target(c, mint, nodes, k)
  {
    ResolveAt(c, mint, nodes, |nodes|, k);
    IdCasts(c, mint, nodes, k);
    NodeNamedIs(nodes, k);
  }

  lemma {:induction false} EdgeResolves(c: Codec, t: Tables, wf: Uuid, mint: nat -> Uuid, nodes: seq<ClientNode>, edges: seq<ClientEdge>, k: nat)
    requires Lawful(c)
    requires DistinctIds(c, mint, nodes) && Storable(c, t, wf, mint, nodes, edges) && k < |edges|
    ensures var source, target := RowId(c, mint, nodes, edges[k].source), RowId(c, mint, nodes, edges[k].target);
            && source.Some? && target.Some?
            && EdgeRequest(c, Resolve(c, mint, nodes, |nodes|), edges[k])
               == Between(source.value, target.value, if edges[k].caption == "" then None else Some(edges[k].caption))
            && (exists i :: 0 <= i < |nodes| && Target(c, mint, nodes, i) == source)
            && (exists i :: 0 <= i < |nodes| && Target(c, mint, nodes, i) == target)
  {
    assert Submitted(nodes, edges[k].source) && Submitted(nodes, edges[k].target);
    var i :| 0 <= i < |nodes| && nodes[i].id == edges[k].source;
    var j :| 0 <= j < |nodes| && nodes[j].id == edges[k].target;
    RowIdOf(c, mint, nodes, i);
    RowIdOf(c, mint, nodes, j);
    assert StorableNode(c, t, wf, mint, nodes, i) && StorableNode(c, t, wf, mint, nodes, j);
    assert Target(c, mint, nodes, i).Some? && Target(c, mint, nodes, j).Some?;
  }

  lemma TargetNamed(c: Codec, t: Tables, wf: Uuid, mint: nat -> Uuid, nodes: seq<ClientNode>, reqs: seq<Option<NodeReq>>, i: nat, u: Uuid)
    requires Lawful(c)
    requires DistinctIds(c, mint, nodes) && |reqs| == |nodes| && i < |nodes|
    requires StorableNode(c, t, wf, mint, nodes, i) && reqs[i] == Request(c, wf, IdOf(c, mint, nodes, i), nodes[i])
    ensures Names(reqs, i, u) <==> Target(c, mint, nodes, i) == Some(u)
    ensures Acceptable(t, wf, reqs[i])
  {
    IdCasts(c, mint, nodes, i);
  }

  /** A graph that can be stored is. */
  lemma StorableIsSaved(c: Codec, t: Tables, wf: Uuid, mint: nat -> Uuid, nodes: seq<ClientNode>, edges: seq<ClientEdge>, minted: seq<Uuid>)
    requires Lawful(c)
    requires |minted| == |edges| && wf in t.workflows && FreshIds(t, minted)
    requires DistinctIds(c, mint, nodes) && Storable(c, t, wf, mint, nodes, edges)
    ensures Save(c, t, wf, nodes, edges, mint, minted).Saved?
  {
    ResolveDomain(c, mint, nodes, |nodes|);
    var ids, keep := Resolve(c, mint, nodes, |nodes|), Keep(c, mint, nodes, |nodes|);
    var reqs, links := Requests(c, wf, ids, nodes), EdgeRequests(c, ids, edges);
    KeepExactly(c, mint, nodes, |nodes|);
    RequestsAreDistinct(c, wf, mint, nodes);
    forall i | 0 <= i < |nodes|
      ensures Acceptable(t, wf, reqs[i]) && Target(c, mint, nodes, i).Some? && Names(reqs, i, Target(c, mint, nodes, i).value)
    {
      RequestsAt(c, wf, mint, nodes, i);
      assert StorableNode(c, t, wf, mint, nodes, i);
      TargetNamed(c, t, wf, mint, nodes, reqs, i, reqs[i].value.id);
    }
    assert keep.Some?;
    forall k | 0 <= k < |links| ensures Insertable(t, keep.value, wf, reqs, links[k]) {
      EdgeResolves(c, t, wf, mint, nodes, edges, k);
    }
    SaveSucceeds(t, wf, keep, reqs, links, minted);
  }

  /** Each submitted node is a row of the workflow, reading back as expected. */
  lemma NodeStored(c: Codec, t: Tables, wf: Uuid, mint: nat -> Uuid, nodes: seq<ClientNode>, edges: seq<ClientEdge>, minted: seq<Uuid>, k: nat)
    requires Lawful(c)
    requires |minted| == |edges| && k < |nodes| && DistinctIds(c, mint, nodes) && Storable(c, t, wf, mint, nodes, edges)
    requires Save(c, t, wf, nodes, edges, mint, minted).Saved?
    ensures StorableNode(c, t, wf, mint, nodes, k)
    ensures var r, u := Save(c, t, wf, nodes, edges, mint, minted).tables, Target(c, mint, nodes, k).value;
            && u in r.nodes && r.nodes[u] == Request(c, wf, IdOf(c, mint, nodes, k), nodes[k]).value.row
            && r.nodes[u].workflow == wf && Loaded(c, u, r.nodes[u]) == Expected(c, mint, nodes, k)
  {
    ResolveDomain(c, mint, nodes, |nodes|);
    var ids := Resolve(c, mint, nodes, |nodes|);
    var reqs := Requests(c, wf, ids, nodes);
    RequestsAreDistinct(c, wf, mint, nodes);
    RequestsAt(c, wf, mint, nodes, k);
    assert StorableNode(c, t, wf, mint, nodes, k);
    var u := Target(c, mint, nodes, k).value;
    TargetNamed(c, t, wf, mint, nodes, reqs, k, u);
    SavedRow(t, wf, Keep(c, mint, nodes, |nodes|), reqs, EdgeRequests(c, ids, edges), minted, k, u);
    RowReadsBack(c, wf, mint, nodes, k);
  }

  /** The workflow has no other rows. */
  lemma OnlySubmittedNodes(c: Codec, t: Tables, wf: Uuid, mint: nat -> Uuid, nodes: seq<ClientNode>, edges: seq<ClientEdge>, minted: seq<Uuid>, u: Uuid)
    requires Lawful(c)
    requires |minted| == |edges| && DistinctIds(c, mint, nodes) && Save(c, t, wf, nodes, edges, mint, minted).Saved?
    requires var r := Save(c, t, wf, nodes, edges, mint, minted).tables; u in r.nodes && r.nodes[u].workflow == wf
    ensures exists k :: 0 <= k < |nodes| && Target(c, mint, nodes, k) == Some(u)
  {
    ResolveDomain(c, mint, nodes, |nodes|);
    var ids, keep := Resolve(c, mint, nodes, |nodes|), Keep(c, mint, nodes, |nodes|);
    var reqs := Requests(c, wf, ids, nodes);
    RequestsAreDistinct(c, wf, mint, nodes);
    KeepExactly(c, mint, nodes, |nodes|);
    SavedNodes(t, wf, keep, reqs, EdgeRequests(c, ids, edges), minted, u);
    if i: nat :| i < |reqs| && Names(reqs, i, u) {
      RequestsAt(c, wf, mint, nodes, i);
      assert Target(c, mint, nodes, i) == Some(u);
    }
  }

  function ExpectedEdge(c: Codec, mint: nat -> Uuid, nodes: seq<ClientNode>, e: ClientEdge, id: Uuid): LoadedEdge {
    LoadedEdge(c.text(id), ClientEdge(Text(c, RowId(c, mint, nodes, e.source)), Text(c, RowId(c, mint, nodes, e.target)), e.caption))
  }

  lemma EdgeStored(c: Codec, t: Tables, wf: Uuid, mint: nat -> Uuid, nodes: seq<ClientNode>, edges: seq<ClientEdge>, minted: seq<Uuid>, k: nat)
    requires Lawful(c)
    requires |minted| == |edges| && k < |edges| && DistinctIds(c, mint, nodes) && Storable(c, t, wf, mint, nodes, edges)
    requires Save(c, t, wf, nodes, edges, mint, minted).Saved?
    ensures var r := Save(c, t, wf, nodes, edges, mint, minted).tables;
            && minted[k] in r.edges && r.edges[minted[k]].workflow == wf
            && Shown(c, minted[k], r.edges[minted[k]]) == ExpectedEdge(c, mint, nodes, edges[k], minted[k])
  {
    ResolveDomain(c, mint, nodes, |nodes|);
    var ids, keep := Resolve(c, mint, nodes, |nodes|), Keep(c, mint, nodes, |nodes|);
    var links := EdgeRequests(c, ids, edges);
    EdgeResolves(c, t, wf, mint, nodes, edges, k);
    SavedEdges(t, wf, keep, Requests(c, wf, ids, nodes), links, minted, minted[k]);
    assert EdgeAt(links, minted, k, minted[k]);
  }

  lemma OnlySubmittedEdges(c: Codec, t: Tables, wf: Uuid, mint: nat -> Uuid, nodes: seq<ClientNode>, edges: seq<ClientEdge>, minted: seq<Uuid>, e: Uuid)
    requires |minted| == |edges| && Save(c, t, wf, nodes, edges, mint, minted).Saved?
    requires var r := Save(c, t, wf, nodes, edges, mint, minted).tables; e in r.edges && r.edges[e].workflow == wf
    ensures exists k :: 0 <= k < |edges| && minted[k] == e
  {
    ResolveDomain(c, mint, nodes, |nodes|);
    var ids, keep := Resolve(c, mint, nodes, |nodes|), Keep(c, mint, nodes, |nodes|);
    var links := EdgeRequests(c, ids, edges);
    SavedEdges(t, wf, keep, Requests(c, wf, ids, nodes), links, minted, e);
    var k: nat :| k < |links| && EdgeAt(links, minted, k, e);
    assert minted[k] == e;
  }

  /** Loading after saving gives the submitted graph under the id map. */
  lemma RoundTrip(c: Codec, t: Tables, wf: Uuid, mint: nat -> Uuid, nodes: seq<ClientNode>, edges: seq<ClientEdge>, minted: seq<Uuid>)
    requires Lawful(c)
    requires |minted| == |edges| && wf in t.workflows && FreshIds(t, minted)
    requires DistinctIds(c, mint, nodes) && Storable(c, t, wf, mint, nodes, edges)
    ensures Save(c, t, wf, nodes, edges, mint, minted).Saved?
    ensures GraphNodes(c, Save(c, t, wf, nodes, edges, mint, minted).tables, wf)
            == set k | 0 <= k < |nodes| :: Expected(c, mint, nodes, k)
    ensures GraphEdges(c, Save(c, t, wf, nodes, edges, mint, minted).tables, wf)
            == set k | 0 <= k < |edges| :: ExpectedEdge(c, mint, nodes, edges[k], minted[k])
  {
    StorableIsSaved(c, t, wf, mint, nodes, edges, minted);
    NodesReadBack(c, t, wf, mint, nodes, edges, minted);
    EdgesReadBack(c, t, wf, mint, nodes, edges, minted);
  }

  lemma NodesReadBack(c: Codec, t: Tables, wf: Uuid, mint: nat -> Uuid, nodes: seq<ClientNode>, edges: seq<ClientEdge>, minted: seq<Uuid>)
    requires Lawful(c)
    requires |minted| == |edges| && DistinctIds(c, mint, nodes) && Storable(c, t, wf, mint, nodes, edges)
    requires Save(c, t, wf, nodes, edges, mint, minted).Saved?
    ensures GraphNodes(c, Save(c, t, wf, nodes, edges, mint, minted).tables, wf)
            == set k | 0 <= k < |nodes| :: Expected(c, mint, nodes, k)
  {
    var r := Save(c, t, wf, nodes, edges, mint, minted).tables;
    var expected := set k | 0 <= k < |nodes| :: Expected(c, mint, nodes, k);
    forall u | u in r.nodes && r.nodes[u].workflow == wf ensures Loaded(c, u, r.nodes[u]) in expected {
      OnlySubmittedNodes(c, t, wf, mint, nodes, edges, minted, u);
      var k :| 0 <= k < |nodes| && Target(c, mint, nodes, k) == Some(u);
      NodeStored(c, t, wf, mint, nodes, edges, minted, k);
    }
    forall k | 0 <= k < |nodes| ensures Expected(c, mint, nodes, k) in GraphNodes(c, r, wf) {
      NodeStored(c, t, wf, mint, nodes, edges, minted, k);
    }
  }

  lemma EdgesReadBack(c: Codec, t: Tables, wf: Uuid, mint: nat -> Uuid, nodes: seq<ClientNode>, edges: seq<ClientEdge>, minted: seq<Uuid>)
    requires Lawful(c)
    requires |minted| == |edges| && DistinctIds(c, mint, nodes) && Storable(c, t, wf, mint, nodes, edges)
    requires Save(c, t, wf, nodes, edges, mint, minted).Saved?
    ensures GraphEdges(c, Save(c, t, wf, nodes, edges, mint, minted).tables, wf)
            == set k | 0 <= k < |edges| :: ExpectedEdge(c, mint, nodes, edges[k], minted[k])
  {
    var r := Save(c, t, wf, nodes, edges, mint, minted).tables;
    forall k | 0 <= k < |edges|
      ensures minted[k] in r.edges && r.edges[minted[k]].workflow == wf
      ensures Shown(c, minted[k], r.edges[minted[k]]) == ExpectedEdge(c, mint, nodes, edges[k], minted[k])
    {
      EdgeStored(c, t, wf, mint, nodes, edges, minted, k);
    }
    forall e | e in r.edges && r.edges[e].workflow == wf ensures exists k :: 0 <= k < |edges| && minted[k] == e {
      OnlySubmittedEdges(c, t, wf, mint, nodes, edges, minted, e);
    }
    ShownAll(c, r, wf, mint, nodes, edges, minted);
  }

  lemma ShownAll(c: Codec, r: Tables, wf: Uuid, mint: nat -> Uuid, nodes: seq<ClientNode>, edges: seq<ClientEdge>, minted: seq<Uuid>)
    requires |minted| == |edges|
    requires forall k :: 0 <= k < |edges| ==> minted[k] in r.edges && r.edges[minted[k]].workflow == wf
    requires forall k :: 0 <= k < |edges| ==> Shown(c, minted[k], r.edges[minted[k]]) == ExpectedEdge(c, mint, nodes, edges[k], minted[k])
    requires forall e :: e in r.edges && r.edges[e].workflow == wf ==> exists k :: 0 <= k < |edges| && minted[k] == e
    ensures GraphEdges(c, r, wf) == set k | 0 <= k < |edges| :: ExpectedEdge(c, mint, nodes, edges[k], minted[k])
  {
  }

  // ------------------------------------------------------ saving what was loaded

  ghost predicate ListsNodes(t: Tables, wf: Uuid, us: seq<Uuid>) {
    && (forall i, j :: 0 <= i < j < |us| ==> us[i] != us[j])
    && (forall u :: Own(t, wf, u) <==> u in us)
  }

  ghost predicate ListsEdges(t: Tables, wf: Uuid, es: seq<Uuid>) {
    && (forall i, j :: 0 <= i < j < |es| ==> es[i] != es[j])
    && (forall e :: e in t.edges && t.edges[e].workflow == wf <==> e in es)
  }

  /** Rows as SaveGraph itself stores them: normalised configs, NULL for no caption. */
  ghost predicate Normal(c: Codec, t: Tables) {
    && (forall u :: u in t.nodes ==> c.jsonb(t.nodes[u].config) == Some(t.nodes[u].config))
    && (forall e :: e in t.edges ==> t.edges[e].caption != Some(""))
  }

  function LoadedNodes(c: Codec, t: Tables, us: seq<Uuid>): seq<ClientNode>
    requires forall u :: u in us ==> u in t.nodes
  {
    seq(|us|, k requires 0 <= k < |us| => Loaded(c, us[k], t.nodes[us[k]]))
  }

  function LoadedEdges(c: Codec, t: Tables, es: seq<Uuid>): seq<ClientEdge>
    requires forall e :: e in es ==> e in t.edges
  {
    seq(|es|, k requires 0 <= k < |es| => LoadedFrom(c, t.edges[es[k]]))
  }

  lemma LoadedRequest(c: Codec, t: Tables, wf: Uuid, mint: nat -> Uuid, us: seq<Uuid>, k: nat)
    requires Lawful(c) && Normal(c, t) && ListsNodes(t, wf, us) && k < |us|
    ensures var nodes := LoadedNodes(c, t, us);
            && Target(c, mint, nodes, k) == Some(us[k])
            && Request(c, wf, IdOf(c, mint, nodes, k), nodes[k]) == Some(NodeReq(us[k], t.nodes[us[k]]))
  {
    assert us[k] in us && Own(t, wf, us[k]);
    var row := t.nodes[us[k]];
    assert row.config != "";
    if row.agent.Some? { assert c.text(row.agent.value) != "" by { assert c.cast(c.text(row.agent.value)).Some?; } }
  }

  lemma LoadedDistinct(c: Codec, t: Tables, wf: Uuid, mint: nat -> Uuid, us: seq<Uuid>)
    requires Lawful(c) && Normal(c, t) && ListsNodes(t, wf, us)
    ensures DistinctIds(c, mint, LoadedNodes(c, t, us))
  {
  }

  lemma LoadedSubmitted(c: Codec, t: Tables, wf: Uuid, us: seq<Uuid>, u: Uuid)
    requires Lawful(c) && ListsNodes(t, wf, us)
    ensures Submitted(LoadedNodes(c, t, us), c.text(u)) <==> Own(t, wf, u)
  {
    var nodes := LoadedNodes(c, t, us);
    if Own(t, wf, u) {
      var k :| 0 <= k < |us| && us[k] == u;
      assert nodes[k].id == c.text(u);
    }
    if k :| 0 <= k < |nodes| && nodes[k].id == c.text(u) {
      assert c.cast(c.text(us[k])) == c.cast(c.text(u));
      assert Own(t, wf, us[k]);
    }
  }

  lemma LoadedStorable(c: Codec, t: Tables, wf: Uuid, mint: nat -> Uuid, us: seq<Uuid>, es: seq<Uuid>)
    requires Lawful(c) && Normal(c, t) && Integrity(t) && ListsNodes(t, wf, us) && ListsEdges(t, wf, es)
    ensures Storable(c, t, wf, mint, LoadedNodes(c, t, us), LoadedEdges(c, t, es)) <==> ClosedFor(t, wf)
  {
    var nodes, edges := LoadedNodes(c, t, us), LoadedEdges(c, t, es);
    forall k | 0 <= k < |nodes| ensures StorableNode(c, t, wf, mint, nodes, k) {
      LoadedRequest(c, t, wf, mint, us, k);
      assert Own(t, wf, us[k]);
    }
    forall k | 0 <= k < |edges|
      ensures Submitted(nodes, edges[k].source) <==> Own(t, wf, t.edges[es[k]].source)
      ensures Submitted(nodes, edges[k].target) <==> Own(t, wf, t.edges[es[k]].target)
    {
      LoadedSubmitted(c, t, wf, us, t.edges[es[k]].source);
      LoadedSubmitted(c, t, wf, us, t.edges[es[k]].target);
    }
    if Storable(c, t, wf, mint, nodes, edges) {
      forall e | e in t.edges && t.edges[e].workflow == wf ensures Own(t, wf, t.edges[e].source) && Own(t, wf, t.edges[e].target) {
        var k :| 0 <= k < |es| && es[k] == e;
        assert Submitted(nodes, edges[k].source) && Submitted(nodes, edges[k].target);
      }
    } else {
      assert exists k :: 0 <= k < |edges| && !(Submitted(nodes, edges[k].source) && Submitted(nodes, edges[k].target));
    }
  }

  /** An edge naming an id that was not submitted stops the save. */
  lemma UnsubmittedEdgeStops(c: Codec, t: Tables, wf: Uuid, mint: nat -> Uuid, nodes: seq<ClientNode>, edges: seq<ClientEdge>, minted: seq<Uuid>, k: nat)
    requires |minted| == |edges| && k < |edges| && !(Submitted(nodes, edges[k].source) && Submitted(nodes, edges[k].target))
    ensures !Save(c, t, wf, nodes, edges, mint, minted).Saved?
  {
    ResolveDomain(c, mint, nodes, |nodes|);
    var ids := Resolve(c, mint, nodes, |nodes|);
    NotSubmitted(c, mint, nodes, edges[k]);
    if Save(c, t, wf, nodes, edges, mint, minted).Saved? {
      SavedEdges(t, wf, Keep(c, mint, nodes, |nodes|), Requests(c, wf, ids, nodes), EdgeRequests(c, ids, edges), minted, minted[k]);
      assert EdgeAt(EdgeRequests(c, ids, edges), minted, k, minted[k]);
    }
  }

  lemma {:induction false} InsertEdgesPrefix(t: Tables, wf: Uuid, reqs: seq<EdgeReq>, ids: seq<Uuid>, m: nat, n: nat)
    requires n <= m <= |reqs| == |ids|
    ensures InsertEdges(t, wf, reqs[..m], ids[..m], n) == InsertEdges(t, wf, reqs, ids, n)
    decreases n
  {
    if n > 0 { InsertEdgesPrefix(t, wf, reqs, ids, m, n - 1); }
  }

  lemma UnknownStops(t: Tables, wf: Uuid, keep: Option<set<Uuid>>, reqs: seq<Option<NodeReq>>, links: seq<EdgeReq>, minted: seq<Uuid>, k: nat)
    requires k < |links| == |minted| && links[k] == Unknown && SaveAll(t, wf, keep, reqs, links[..k], minted[..k]).Saved?
    ensures SaveAll(t, wf, keep, reqs, links, minted) == UnknownEdgeNode
  {
    SaveStages(t, wf, keep, reqs, links[..k], minted[..k]);
    var cleared := ClearEdges(Upserts(DeleteAbsent(t, wf, keep.value), reqs, |reqs|).tables, wf);
    InsertEdgesPrefix(cleared, wf, links, minted, k, k);
    InsertEdgesStop(cleared, wf, links, minted, k + 1, |links|);
  }

  /** With all edges before it in order, an edge that names an id that was not submitted
      is reported as such. */
  lemma UnknownNodeIsReported(c: Codec, t: Tables, wf: Uuid, mint: nat -> Uuid, nodes: seq<ClientNode>, edges: seq<ClientEdge>, minted: seq<Uuid>, k: nat)
    requires Lawful(c) && |minted| == |edges| && wf in t.workflows && FreshIds(t, minted) && DistinctIds(c, mint, nodes)
    requires k < |edges| && Storable(c, t, wf, mint, nodes, edges[..k])
    requires !(Submitted(nodes, edges[k].source) && Submitted(nodes, edges[k].target))
    ensures Save(c, t, wf, nodes, edges, mint, minted) == UnknownEdgeNode
  {
    ResolveDomain(c, mint, nodes, |nodes|);
    var ids, keep := Resolve(c, mint, nodes, |nodes|), Keep(c, mint, nodes, |nodes|);
    var reqs, links := Requests(c, wf, ids, nodes), EdgeRequests(c, ids, edges);
    StorableIsSaved(c, t, wf, mint, nodes, edges[..k], minted[..k]);
    assert EdgeRequests(c, ids, edges[..k]) == links[..k];
    NotSubmitted(c, mint, nodes, edges[k]);
    UnknownStops(t, wf, keep, reqs, links, minted, k);
  }

  lemma {:induction false} NotSubmitted(c: Codec, mint: nat -> Uuid, nodes: seq<ClientNode>, e: ClientEdge)
    requires !(Submitted(nodes, e.source) && Submitted(nodes, e.target))
    ensures EdgeRequest(c, Resolve(c, mint, nodes, |nodes|), e) == Unknown
  {
    var ids := Resolve(c, mint, nodes, |nodes|);
    if e.source in ids { ResolveOnly(c, mint, nodes, |nodes|, e.source); }
    if e.target in ids { ResolveOnly(c, mint, nodes, |nodes|, e.target); }
  }

  lemma SavedIsAcceptable(c: Codec, t: Tables, wf: Uuid, mint: nat -> Uuid, nodes: seq<ClientNode>, edges: seq<ClientEdge>, minted: seq<Uuid>, k: nat)
    requires Lawful(c) && |minted| == |edges| && wf in t.workflows && FreshIds(t, minted) && DistinctIds(c, mint, nodes)
    requires Save(c, t, wf, nodes, edges, mint, minted).Saved? && k < |nodes|
    ensures Acceptable(t, wf, Request(c, wf, IdOf(c, mint, nodes, k), nodes[k]))
  {
    ResolveDomain(c, mint, nodes, |nodes|);
    RequestsAreDistinct(c, wf, mint, nodes);
    var ids := Resolve(c, mint, nodes, |nodes|);
    var reqs := Requests(c, wf, ids, nodes);
    SaveSucceeds(t, wf, Keep(c, mint, nodes, |nodes|), reqs, EdgeRequests(c, ids, edges), minted);
    assert Acceptable(t, wf, reqs[k]);
    RequestsAt(c, wf, mint, nodes, k);
  }

  lemma AcceptableIsStorable(c: Codec, t: Tables, wf: Uuid, mint: nat -> Uuid, nodes: seq<ClientNode>, k: nat)
    requires Lawful(c) && k < |nodes| && Acceptable(t, wf, Request(c, wf, IdOf(c, mint, nodes, k), nodes[k]))
    requires Target(c, mint, nodes, k).Some? ==> !Foreign(t, wf, Target(c, mint, nodes, k).value)
    ensures StorableNode(c, t, wf, mint, nodes, k)
  {
    IdCasts(c, mint, nodes, k);
  }

  /** A graph none of whose rows is another workflow's is saved exactly when it can be. */
  lemma SavedExactly(c: Codec, t: Tables, wf: Uuid, mint: nat -> Uuid, nodes: seq<ClientNode>, edges: seq<ClientEdge>, minted: seq<Uuid>)
    requires Lawful(c) && |minted| == |edges| && wf in t.workflows && FreshIds(t, minted) && DistinctIds(c, mint, nodes)
    requires forall k :: 0 <= k < |nodes| && Target(c, mint, nodes, k).Some? ==> !Foreign(t, wf, Target(c, mint, nodes, k).value)
    ensures Save(c, t, wf, nodes, edges, mint, minted).Saved? <==> Storable(c, t, wf, mint, nodes, edges)
  {
    if Storable(c, t, wf, mint, nodes, edges) {
      StorableIsSaved(c, t, wf, mint, nodes, edges, minted);
    } else if Save(c, t, wf, nodes, edges, mint, minted).Saved? {
      forall k | 0 <= k < |nodes| ensures StorableNode(c, t, wf, mint, nodes, k) {
        SavedIsAcceptable(c, t, wf, mint, nodes, edges, minted, k);
        AcceptableIsStorable(c, t, wf, mint, nodes, k);
      }
      var k :| 0 <= k < |edges| && !(Submitted(nodes, edges[k].source) && Submitted(nodes, edges[k].target));
      UnsubmittedEdgeStops(c, t, wf, mint, nodes, edges, minted, k);
    }
  }

  /** A loaded graph saves again exactly when it is closed, and then no node row
      changes at all. */
  lemma ResaveKeepsNodes(c: Codec, t: Tables, wf: Uuid, mint: nat -> Uuid, us: seq<Uuid>, es: seq<Uuid>, minted: seq<Uuid>)
    requires Lawful(c) && Normal(c, t) && Integrity(t) && ListsNodes(t, wf, us) && ListsEdges(t, wf, es)
    requires wf in t.workflows && |minted| == |es| && FreshIds(t, minted)
    ensures var after := Save(c, t, wf, LoadedNodes(c, t, us), LoadedEdges(c, t, es), mint, minted);
            && (after.Saved? <==> ClosedFor(t, wf))
            && (after.Saved? ==> after.tables.nodes == t.nodes)
  {
    var nodes, edges := LoadedNodes(c, t, us), LoadedEdges(c, t, es);
    LoadedDistinct(c, t, wf, mint, us);
    LoadedStorable(c, t, wf, mint, us, es);
    if ClosedFor(t, wf) {
      StorableIsSaved(c, t, wf, mint, nodes, edges, minted);
      forall u ensures u in Save(c, t, wf, nodes, edges, mint, minted).tables.nodes <==> u in t.nodes
               ensures u in t.nodes ==> Save(c, t, wf, nodes, edges, mint, minted).tables.nodes[u] == t.nodes[u] {
        ResavedRow(c, t, wf, mint, us, es, minted, u);
      }
    } else {
      var k := FirstDangling(c, t, wf, us, es);
      UnsubmittedEdgeStops(c, t, wf, mint, nodes, edges, minted, k);
    }
  }

  lemma FirstDangling(c: Codec, t: Tables, wf: Uuid, us: seq<Uuid>, es: seq<Uuid>) returns (k: nat)
    requires Lawful(c) && ListsNodes(t, wf, us) && ListsEdges(t, wf, es) && !ClosedFor(t, wf)
    ensures k < |es|
    ensures var nodes, edges := LoadedNodes(c, t, us), LoadedEdges(c, t, es);
            !(Submitted(nodes, edges[k].source) && Submitted(nodes, edges[k].target))
  {
    var e :| e in t.edges && t.edges[e].workflow == wf && !(Own(t, wf, t.edges[e].source) && Own(t, wf, t.edges[e].target));
    k :| 0 <= k < |es| && es[k] == e;
    LoadedSubmitted(c, t, wf, us, t.edges[e].source);
    LoadedSubmitted(c, t, wf, us, t.edges[e].target);
  }

  lemma ResavedRow(c: Codec, t: Tables, wf: Uuid, mint: nat -> Uuid, us: seq<Uuid>, es: seq<Uuid>, minted: seq<Uuid>, u: Uuid)
    requires Lawful(c) && Normal(c, t) && ListsNodes(t, wf, us) && ListsEdges(t, wf, es) && |minted| == |es|
    requires DistinctIds(c, mint, LoadedNodes(c, t, us)) && Storable(c, t, wf, mint, LoadedNodes(c, t, us), LoadedEdges(c, t, es))
    requires Save(c, t, wf, LoadedNodes(c, t, us), LoadedEdges(c, t, es), mint, minted).Saved?
    ensures var r := Save(c, t, wf, LoadedNodes(c, t, us), LoadedEdges(c, t, es), mint, minted).tables;
            (u in r.nodes <==> u in t.nodes) && (u in t.nodes ==> r.nodes[u] == t.nodes[u])
  {
    var nodes, edges := LoadedNodes(c, t, us), LoadedEdges(c, t, es);
    var r := Save(c, t, wf, nodes, edges, mint, minted).tables;
    if Own(t, wf, u) {
      var k :| 0 <= k < |us| && us[k] == u;
      LoadedRequest(c, t, wf, mint, us, k);
      NodeStored(c, t, wf, mint, nodes, edges, minted, k);
    } else {
      ForeignStays(c, t, wf, nodes, edges, mint, minted, u);
      if u in r.nodes && r.nodes[u].workflow == wf {
        OnlySubmittedNodes(c, t, wf, mint, nodes, edges, minted, u);
        var k :| 0 <= k < |nodes| && Target(c, mint, nodes, k) == Some(u);
        LoadedRequest(c, t, wf, mint, us, k);
      }
    }
  }

  lemma ForeignStays(c: Codec, t: Tables, wf: Uuid, nodes: seq<ClientNode>, edges: seq<ClientEdge>, mint: nat -> Uuid, minted: seq<Uuid>, u: Uuid)
    requires |minted| == |edges| && Save(c, t, wf, nodes, edges, mint, minted).Saved?
    ensures var r := Save(c, t, wf, nodes, edges, mint, minted).tables;
            && (Foreign(r, wf, u) <==> Foreign(t, wf, u))
            && (Foreign(t, wf, u) ==> r.nodes[u] == t.nodes[u])
  {
    ResolveDomain(c, mint, nodes, |nodes|);
    var ids := Resolve(c, mint, nodes, |nodes|);
    ForeignNodesUntouched(t, wf, Keep(c, mint, nodes, |nodes|), Requests(c, wf, ids, nodes), EdgeRequests(c, ids, edges), minted, u);
  }

  /** Only the edges' own ids are new. */
  lemma ResaveKeepsEdges(c: Codec, t: Tables, wf: Uuid, mint: nat -> Uuid, us: seq<Uuid>, es: seq<Uuid>, minted: seq<Uuid>, k: nat)
    requires Lawful(c) && Normal(c, t) && Integrity(t) && ListsNodes(t, wf, us) && ListsEdges(t, wf, es) && ClosedFor(t, wf)
    requires wf in t.workflows && |minted| == |es| && FreshIds(t, minted) && k < |es|
    ensures var after := Save(c, t, wf, LoadedNodes(c, t, us), LoadedEdges(c, t, es), mint, minted);
            && after.Saved? && minted[k] in after.tables.edges
            && LoadedFrom(c, after.tables.edges[minted[k]]) == LoadedFrom(c, t.edges[es[k]])
  {
    var nodes, edges := LoadedNodes(c, t, us), LoadedEdges(c, t, es);
    LoadedDistinct(c, t, wf, mint, us);
    LoadedStorable(c, t, wf, mint, us, es);
    StorableIsSaved(c, t, wf, mint, nodes, edges, minted);
    EdgeStored(c, t, wf, mint, nodes, edges, minted, k);
    var row := t.edges[es[k]];
    LoadedRowId(c, t, wf, mint, us, row.source);
    LoadedRowId(c, t, wf, mint, us, row.target);
  }

  lemma LoadedRowId(c: Codec, t: Tables, wf: Uuid, mint: nat -> Uuid, us: seq<Uuid>, u: Uuid)
    requires Lawful(c) && Normal(c, t) && ListsNodes(t, wf, us) && Own(t, wf, u)
    ensures RowId(c, mint, LoadedNodes(c, t, us), c.text(u)) == Some(u)
  {
    LoadedDistinct(c, t, wf, mint, us);
    var k :| 0 <= k < |us| && us[k] == u;
    RowIdOf(c, mint, LoadedNodes(c, t, us), k);
    LoadedRequest(c, t, wf, mint, us, k);
  }
}

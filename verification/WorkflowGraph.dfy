/** Building a workflow: validating its configuration, ordering its nodes, and filling the route
    tables the nodes send through. */
module WorkflowGraph {
  import opened Options
  import opened Topology

  datatype EventType = Signal | Payload | Audio | Video | Unknown

  /** A node and an edge, without the plugin configuration neither building nor wiring reads. */
  datatype NodeConfig = NodeConfig(id: string, name: string)
  datatype EdgeConfig = EdgeConfig(source: string, port: int, target: string, kind: EventType)
  datatype WorkflowConfig = WorkflowConfig(head: string, nodes: seq<NodeConfig>, edges: seq<EdgeConfig>)

  datatype GraphError =
    | NoHead
    | DuplicateNode(id: string)
    | NoBuilder(id: string)
    | HeadNotFound
    | SelfLoop(id: string)
    | SourceNotFound(id: string)
    | TargetNotFound(id: string)
    | UnknownType
    | ContractMismatch
    | DuplicateName(name: string)
    | BuildFailed(id: string)

  datatype Result<+T> = Ok(value: T) | Err(error: GraphError)

  // ---------------------------------------------------------------------------------------------
  // Validation
  // ---------------------------------------------------------------------------------------------

  ghost predicate UniqueIds(nodes: seq<NodeConfig>) {
    forall i, j :: 0 <= i < j < |nodes| ==> nodes[i].id != nodes[j].id
  }

  function Ids(nodes: seq<NodeConfig>): set<string> {
    set n | n in nodes :: n.id
  }

  /** An edge that may stand.  `fits` says whether the outputs of one node meet the inputs of another.
      Video edges are refused: the contract check knows no video prefix. */
  predicate EdgeStands(ids: set<string>, fits: (string, string, EventType) -> bool, e: EdgeConfig) {
    e.source in ids && e.target in ids && e.kind in {Signal, Payload, Audio} && fits(e.source, e.target, e.kind)
  }

  /** Why an edge does not stand: the first of the four conditions it breaks. */
  predicate Breaks(ids: set<string>, fits: (string, string, EventType) -> bool, e: EdgeConfig, error: GraphError) {
    match error
    case SourceNotFound(id) => id == e.source && id !in ids
    case TargetNotFound(id) => e.source in ids && id == e.target && id !in ids
    case UnknownType => e.source in ids && e.target in ids && e.kind !in {Signal, Payload, Audio}
    case ContractMismatch =>
      e.source in ids && e.target in ids && e.kind in {Signal, Payload, Audio} && !fits(e.source, e.target, e.kind)
    case _ => false
  }

  /** What BuildGraph accepts.  `builders` are the ids with a plugin builder. */
  ghost predicate Accepted(config: WorkflowConfig, builders: set<string>, fits: (string, string, EventType) -> bool) {
    && config.head != ""
    && UniqueIds(config.nodes)
    && Ids(config.nodes) <= builders
    && config.head in Ids(config.nodes)
    && (forall e :: e in config.edges ==> e.source != e.target)
    && (forall e :: e in config.edges ==> EdgeStands(Ids(config.nodes), fits, e))
  }

  method ParseNodes(nodes: seq<NodeConfig>, builders: set<string>) returns (r: Result<map<string, NodeConfig>>)
    ensures r.Ok? <==> UniqueIds(nodes) && Ids(nodes) <= builders
    ensures r.Ok? ==> r.value.Keys == Ids(nodes) && forall n :: n in nodes ==> r.value[n.id] == n
    ensures r.Err? ==> match r.error
      case DuplicateNode(id) => exists i, j :: 0 <= i < j < |nodes| && nodes[i].id == nodes[j].id == id
      case NoBuilder(id) => id in Ids(nodes) && id !in builders
      case _ => false
  {
    hide Parsed;
    var nodesMap: map<string, NodeConfig> := map[];
    ParsedNone(builders);
    assert nodes[..0] == [];
    for i := 0 to |nodes|
      invariant Parsed(nodes[..i], builders, nodesMap)
    {
      var n := nodes[i];
      if n.id in nodesMap {
        Repeated(nodes, i, builders, nodesMap);
        return Err(DuplicateNode(n.id));
      }
      if n.id !in builders {
        assert n in nodes;
        return Err(NoBuilder(n.id));
      }
      ParsedMore(nodes[..i], n, builders, nodesMap);
      assert nodes[..i + 1] == nodes[..i] + [n];
      nodesMap := nodesMap[n.id := n];
    }
    assert nodes[..|nodes|] == nodes;
    ParsedAll(nodes, builders, nodesMap);
    return Ok(nodesMap);
  }

  /** The map holds exactly these nodes, under distinct ids that all have a builder. */
  ghost predicate Parsed(nodes: seq<NodeConfig>, builders: set<string>, m: map<string, NodeConfig>) {
    && UniqueIds(nodes)
    && (forall k :: 0 <= k < |nodes| ==> nodes[k].id in m && m[nodes[k].id] == nodes[k])
    && (forall id :: id in m ==> id in builders && m[id] in nodes && m[id].id == id)
  }

  lemma ParsedNone(builders: set<string>)
    ensures Parsed([], builders, map[])
  {
  }

  lemma ParsedMore(nodes: seq<NodeConfig>, n: NodeConfig, builders: set<string>, m: map<string, NodeConfig>)
    requires Parsed(nodes, builders, m) && n.id !in m && n.id in builders
    ensures Parsed(nodes + [n], builders, m[n.id := n])
  {
  }

  lemma ParsedAll(nodes: seq<NodeConfig>, builders: set<string>, m: map<string, NodeConfig>)
    requires Parsed(nodes, builders, m)
    ensures UniqueIds(nodes) && Ids(nodes) <= builders && m.Keys == Ids(nodes)
    ensures forall n :: n in nodes ==> m[n.id] == n
  {
  }

  lemma Repeated(nodes: seq<NodeConfig>, j: nat, builders: set<string>, m: map<string, NodeConfig>)
    requires j < |nodes| && Parsed(nodes[..j], builders, m) && nodes[j].id in m
    ensures exists i :: 0 <= i < j && nodes[i].id == nodes[j].id
  {
    var first := m[nodes[j].id];
    assert first in nodes[..j];
    var i :| 0 <= i < j && nodes[..j][i] == first;
    assert nodes[i].id == nodes[j].id;
  }

  method CheckSelfLoops(edges: seq<EdgeConfig>) returns (loop: Option<string>)
    ensures loop.None? <==> forall e :: e in edges ==> e.source != e.target
    ensures loop.Some? ==> exists e :: e in edges && e.source == e.target == loop.value
  {
    for i := 0 to |edges|
      invariant forall k :: 0 <= k < i ==> edges[k].source != edges[k].target
    {
      if edges[i].source == edges[i].target {
        assert edges[i] in edges;
        return Some(edges[i].source);
      }
    }
    return None;
  }

  /** The error of the first edge that has one. */
  method ValidateEdgeContracts(ids: set<string>, edges: seq<EdgeConfig>, fits: (string, string, EventType) -> bool)
    returns (error: Option<GraphError>)
    ensures error.None? ==> forall e :: e in edges ==>
      e.source in ids && e.target in ids && e.kind in {Signal, Payload, Audio} && fits(e.source, e.target, e.kind)
    ensures error.Some? ==> exists i :: (
      && 0 <= i < |edges| && Breaks(ids, fits, edges[i], error.value)
      && forall k :: 0 <= k < i ==> EdgeStands(ids, fits, edges[k]))
  {
    for i := 0 to |edges|
      invariant forall k :: 0 <= k < i ==> EdgeStands(ids, fits, edges[k])
    {
      var e := edges[i];
      if e.source !in ids {
        return Some(SourceNotFound(e.source));
      }
      if e.target !in ids {
        return Some(TargetNotFound(e.target));
      }
      match e.kind {
        case Payload =>
        case Signal =>
        case Audio =>
        case _ =>
          return Some(UnknownType);
      }
      if !fits(e.source, e.target, e.kind) {
        return Some(ContractMismatch);
      }
    }
    return None;
  }

  function Arcs(edges: seq<EdgeConfig>): (arcs: seq<Arc<string>>)
    ensures |arcs| == |edges| && forall i :: 0 <= i < |arcs| ==> arcs[i] == Arc(edges[i].source, edges[i].target)
  {
    seq(|edges|, i requires 0 <= i < |edges| => Arc(edges[i].source, edges[i].target))
  }

  /** What an error of BuildGraph says about the configuration. */
  ghost predicate Rejects(config: WorkflowConfig, builders: set<string>, fits: (string, string, EventType) -> bool, error: GraphError) {
    match error
    case NoHead => config.head == ""
    case DuplicateNode(id) => exists i, j :: 0 <= i < j < |config.nodes| && config.nodes[i].id == config.nodes[j].id == id
    case NoBuilder(id) => id in Ids(config.nodes) && id !in builders
    case HeadNotFound => config.head !in Ids(config.nodes)
    case SelfLoop(id) => exists e :: e in config.edges && e.source == e.target == id
    case _ => exists e :: e in config.edges && Breaks(Ids(config.nodes), fits, e, error)
  }

  /** Fails exactly on the configurations that are not accepted; otherwise lists every node of the
      configuration once, its first part topologically ordered and the rest fed by a cycle. */
  method BuildGraph(config: WorkflowConfig, builders: set<string>, fits: (string, string, EventType) -> bool)
    returns (r: Result<seq<NodeConfig>>, ghost sorted: nat)
    ensures r.Ok? <==> Accepted(config, builders, fits)
    ensures r.Ok? ==> forall e :: e in config.edges ==>
      && e.source != e.target && e.source in Ids(config.nodes) && e.target in Ids(config.nodes)
      && e.kind in {Signal, Payload, Audio} && fits(e.source, e.target, e.kind)
    ensures r.Err? ==> Rejects(config, builders, fits, r.error)
    ensures r.Ok? ==>
      && |r.value| == |config.nodes| && UniqueIds(r.value)
      && (forall n :: n in r.value <==> n in config.nodes)
      && var order := IdSeq(r.value);
         && Ordered(Arcs(config.edges), order, sorted)
         && (forall n :: n in config.nodes ==> (n.id in order[sorted..] <==> Fed(Arcs(config.edges), n.id)))
         && (sorted == |order| <==> !exists c :: Cycle(Arcs(config.edges), c))
  {
    hide Accepted, Rejects, Fed, Cycle, Topology.Ordered;
    sorted := 0;
    var parsed := Validate(config, builders, fits);
    if parsed.Err? {
      return Err(parsed.error), 0;
    }
    forall e | e in Arcs(config.edges) ensures e.source in parsed.value && e.target in parsed.value {
      var i :| 0 <= i < |config.edges| && Arcs(config.edges)[i] == e;
      assert config.edges[i] in config.edges;
    }
    var order;
    order, sorted := SortNodes(parsed.value.Keys, Arcs(config.edges));
    assert forall id :: id in order ==> id in Elems(order);
    var ordered := seq(|order|, i requires 0 <= i < |order| => parsed.value[order[i]]);
    NodesInOrder(config.nodes, parsed.value, order, ordered);
    return Ok(ordered), sorted;
  }

  /** The checks, in their order. */
  method Validate(config: WorkflowConfig, builders: set<string>, fits: (string, string, EventType) -> bool)
    returns (r: Result<map<string, NodeConfig>>)
    ensures r.Ok? <==> Accepted(config, builders, fits)
    ensures r.Err? ==> Rejects(config, builders, fits, r.error)
    ensures r.Ok? ==>
      && UniqueIds(config.nodes) && r.value.Keys == Ids(config.nodes) && (forall n :: n in config.nodes ==> r.value[n.id] == n)
      && forall e :: e in config.edges ==>
           && e.source != e.target && e.source in Ids(config.nodes) && e.target in Ids(config.nodes)
           && e.kind in {Signal, Payload, Audio} && fits(e.source, e.target, e.kind)
  {
    hide UniqueIds, Ids, Breaks, EdgeStands;
    if config.head == "" {
      return Err(NoHead);
    }
    var parsed := ParseNodes(config.nodes, builders);
    if parsed.Err? {
      return parsed;
    }
    if config.head !in parsed.value {
      return Err(HeadNotFound);
    }
    var loop := CheckSelfLoops(config.edges);
    if loop.Some? {
      return Err(SelfLoop(loop.value));
    }
    var contract := ValidateEdgeContracts(parsed.value.Keys, config.edges, fits);
    if contract.Some? {
      FirstBroken(Ids(config.nodes), fits, config.edges, contract.value);
      return Err(contract.value);
    }
    AllStand(Ids(config.nodes), fits, config.edges);
    return parsed;
  }

  lemma FirstBroken(ids: set<string>, fits: (string, string, EventType) -> bool, edges: seq<EdgeConfig>, error: GraphError)
    requires exists i :: 0 <= i < |edges| && Breaks(ids, fits, edges[i], error)
    ensures exists e :: e in edges && Breaks(ids, fits, e, error) && !EdgeStands(ids, fits, e)
    ensures error.SourceNotFound? || error.TargetNotFound? || error.UnknownType? || error.ContractMismatch?
  {
    var i :| 0 <= i < |edges| && Breaks(ids, fits, edges[i], error);
    assert edges[i] in edges && !EdgeStands(ids, fits, edges[i]);
  }

  lemma AllStand(ids: set<string>, fits: (string, string, EventType) -> bool, edges: seq<EdgeConfig>)
    requires forall e :: e in edges ==>
      e.source in ids && e.target in ids && e.kind in {Signal, Payload, Audio} && fits(e.source, e.target, e.kind)
    ensures forall e :: e in edges ==> EdgeStands(ids, fits, e)
  {
  }

  function IdSeq(nodes: seq<NodeConfig>): (ids: seq<string>)
    ensures |ids| == |nodes| && forall i :: 0 <= i < |ids| ==> ids[i] == nodes[i].id
  {
    seq(|nodes|, i requires 0 <= i < |nodes| => nodes[i].id)
  }

  lemma NodesInOrder(nodes: seq<NodeConfig>, nodesMap: map<string, NodeConfig>, order: seq<string>, ordered: seq<NodeConfig>)
    requires UniqueIds(nodes) && nodesMap.Keys == Ids(nodes) && forall n :: n in nodes ==> nodesMap[n.id] == n
    requires Distinct(order) && Elems(order) == Ids(nodes)
    requires |ordered| == |order| && forall i :: 0 <= i < |order| ==> order[i] in nodesMap && ordered[i] == nodesMap[order[i]]
    ensures IdSeq(ordered) == order && UniqueIds(ordered) && |ordered| == |nodes|
    ensures forall n :: n in ordered <==> n in nodes
  {
    forall i | 0 <= i < |order| ensures ordered[i].id == order[i] && ordered[i] in nodes {
      assert order[i] in Ids(nodes);
      var n :| n in nodes && n.id == order[i];
    }
    forall n | n in nodes ensures n in ordered {
      assert n.id in Elems(order);
      var i :| 0 <= i < |order| && order[i] == n.id;
      assert ordered[i] == n;
    }
    assert Elems(IdSeq(nodes)) == Ids(nodes);
    SameSize(order, IdSeq(nodes));
  }

  lemma SameSize(s: seq<string>, t: seq<string>)
    requires Distinct(s) && Distinct(t) && Elems(s) == Elems(t)
    ensures |s| == |t|
  {
    SizeOf(s);
    SizeOf(t);
  }

  lemma {:induction false} SizeOf(s: seq<string>)
    requires Distinct(s)
    ensures |Elems(s)| == |s|
  {
    if s != [] {
      var last := |s| - 1;
      SizeOf(s[..last]);
      assert Elems(s) == Elems(s[..last]) + {s[last]};
    }
  }

  // ---------------------------------------------------------------------------------------------
  // Wiring
  // ---------------------------------------------------------------------------------------------

  const MAX_PORT_COUNT: nat := 12

  /** Route lists name their target nodes by position in the workflow. */
  datatype RouteTable = RouteTable(signals: seq<nat>, payloads: seq<nat>, audios: seq<nat>, videos: seq<nat>) {
    function Of(kind: EventType): seq<nat> {
      match kind
      case Signal => signals
      case Payload => payloads
      case Audio => audios
      case Video => videos
      case Unknown => []
    }
  }

  function Added(list: seq<nat>, next: nat): seq<nat> {
    if next in list then list else list + [next]
  }

  function With(t: RouteTable, kind: EventType, next: nat): RouteTable {
    match kind
    case Signal => t.(signals := Added(t.signals, next))
    case Payload => t.(payloads := Added(t.payloads, next))
    case Audio => t.(audios := Added(t.audios, next))
    case Video => t.(videos := Added(t.videos, next))
    case Unknown => t
  }

  datatype Tables = Tables(all: RouteTable, ports: seq<RouteTable>)

  const NO_ROUTES: RouteTable := RouteTable([], [], [], [])

  function Empty(): Tables {
    Tables(NO_ROUTES, seq(MAX_PORT_COUNT, _ => NO_ROUTES))
  }

  class BaseNode {
    var table: RouteTable
    var portTable: seq<RouteTable>

    ghost predicate Valid()
      reads this
    {
      |portTable| == MAX_PORT_COUNT
    }

    ghost function View(): Tables
      reads this
    {
      Tables(table, portTable)
    }

    constructor ()
      ensures Valid() && View() == Empty()
    {
      table := NO_ROUTES;
      portTable := seq(MAX_PORT_COUNT, _ => NO_ROUTES);
    }

    method AddNextNode(kind: EventType, next: nat)
      modifies this
      ensures View() == old(View()).(all := With(old(table), kind, next))
    {
      match kind
      case Signal =>
        if next !in table.signals {
          table := table.(signals := table.signals + [next]);
        }
      case Payload =>
        if next !in table.payloads {
          table := table.(payloads := table.payloads + [next]);
        }
      case Audio =>
        if next !in table.audios {
          table := table.(audios := table.audios + [next]);
        }
      case Video =>
        if next !in table.videos {
          table := table.(videos := table.videos + [next]);
        }
      case Unknown =>
    }

    /** A port out of range wires nothing, not even the broadcast table. */
    method AddNextPortNode(kind: EventType, next: nat, port: int)
      requires Valid()
      modifies this
      ensures Valid()
      ensures View() == if 0 <= port < MAX_PORT_COUNT
                        then Tables(With(old(table), kind, next), old(portTable)[port := With(old(portTable)[port], kind, next)])
                        else old(View())
    {
      if port < 0 || port >= MAX_PORT_COUNT {
        return;
      }
      portTable := portTable[port := With(portTable[port], kind, next)];
      AddNextNode(kind, next);
    }
  }

  function Wire(t: Tables, e: EdgeConfig, next: nat): Tables
    requires |t.ports| == MAX_PORT_COUNT
  {
    if e.port == 0 then t.(all := With(t.all, e.kind, next))
    else if 0 <= e.port < MAX_PORT_COUNT then Tables(With(t.all, e.kind, next), t.ports[e.port := With(t.ports[e.port], e.kind, next)])
    else t
  }

  ghost predicate Indexed(index: map<string, nat>, edges: seq<EdgeConfig>) {
    forall e :: e in edges ==> e.source in index && e.target in index
  }

  /** The tables node i ends up with after the given edges. */
  ghost function Wired(index: map<string, nat>, edges: seq<EdgeConfig>, i: nat): (t: Tables)
    requires Indexed(index, edges)
    ensures |t.ports| == MAX_PORT_COUNT
  {
    if edges == [] then Empty()
    else
      var last := |edges| - 1;
      var t := Wired(index, edges[..last], i);
      if index[edges[last].source] == i then Wire(t, edges[last], index[edges[last].target]) else t
  }

  /** Some edge of this kind leads from i to t through a port in lo..hi. */
  ghost predicate Linked(index: map<string, nat>, edges: seq<EdgeConfig>, i: nat, t: nat, kind: EventType, lo: int, hi: int)
    requires Indexed(index, edges)
  {
    exists e :: e in edges && Links(index, e, i, t, kind, lo, hi)
  }

  ghost predicate Links(index: map<string, nat>, e: EdgeConfig, i: nat, t: nat, kind: EventType, lo: int, hi: int)
    requires e.source in index && e.target in index
  {
    index[e.source] == i && index[e.target] == t && e.kind == kind && lo <= e.port < hi
  }

  lemma LinkedLast(index: map<string, nat>, edges: seq<EdgeConfig>, i: nat, t: nat, kind: EventType, lo: int, hi: int)
    requires Indexed(index, edges) && edges != []
    ensures Indexed(index, edges[..|edges| - 1])
    ensures Linked(index, edges, i, t, kind, lo, hi) <==>
      Linked(index, edges[..|edges| - 1], i, t, kind, lo, hi) || Links(index, edges[|edges| - 1], i, t, kind, lo, hi)
  {
    assert edges == edges[..|edges| - 1] + [edges[|edges| - 1]];
  }

  lemma WireOf(w: Tables, e: EdgeConfig, next: nat, kind: EventType, port: nat)
    requires |w.ports| == MAX_PORT_COUNT && !kind.Unknown? && port < MAX_PORT_COUNT
    ensures Wire(w, e, next).all.Of(kind) ==
      if e.kind == kind && 0 <= e.port < MAX_PORT_COUNT then Added(w.all.Of(kind), next) else w.all.Of(kind)
    ensures Wire(w, e, next).ports[port].Of(kind) ==
      if e.kind == kind && e.port == port && port != 0 then Added(w.ports[port].Of(kind), next) else w.ports[port].Of(kind)
  {
  }

  lemma NothingWired(index: map<string, nat>, i: nat, t: nat, kind: EventType, port: nat)
    requires port < MAX_PORT_COUNT
    ensures Wired(index, [], i).all.Of(kind) == [] && Wired(index, [], i).ports[port].Of(kind) == []
    ensures !Linked(index, [], i, t, kind, 0, MAX_PORT_COUNT) && !Linked(index, [], i, t, kind, port, port + 1)
  {
  }

  lemma AddedFacts(list: seq<nat>, next: nat, t: nat)
    ensures Distinct(list) ==> Distinct(Added(list, next))
    ensures t in Added(list, next) <==> t in list || t == next
  {
  }

  lemma LinksAre(index: map<string, nat>, e: EdgeConfig, i: nat, t: nat, kind: EventType, lo: int, hi: int)
    requires e.source in index && e.target in index
    ensures Links(index, e, i, t, kind, lo, hi) <==>
      index[e.source] == i && index[e.target] == t && e.kind == kind && lo <= e.port < hi
  {
  }

  /** After wiring, a target is in a node's broadcast list for a kind exactly once if some edge of that
      kind with a port below 12 leads to it, and otherwise not at all; and in the list of a port from 1
      on exactly when an edge names that port.  The lists of port 0 stay empty. */
  lemma {:induction false} WiringIsExact(index: map<string, nat>, edges: seq<EdgeConfig>, i: nat, t: nat, kind: EventType, port: nat)
    requires Indexed(index, edges) && !kind.Unknown? && port < MAX_PORT_COUNT
    ensures var w := Wired(index, edges, i);
            && Distinct(w.all.Of(kind)) && Distinct(w.ports[port].Of(kind))
            && (t in w.all.Of(kind) <==> Linked(index, edges, i, t, kind, 0, MAX_PORT_COUNT))
            && (t in w.ports[port].Of(kind) <==> port != 0 && Linked(index, edges, i, t, kind, port, port + 1))
  {
    hide Wire, Linked, Links, RouteTable.Of, Added;
    if edges == [] {
      NothingWired(index, i, t, kind, port);
    } else {
      var last := |edges| - 1;
      var w, next := Wired(index, edges[..last], i), index[edges[last].target];
      LinksAre(index, edges[last], i, t, kind, 0, MAX_PORT_COUNT);
      LinksAre(index, edges[last], i, t, kind, port, port + 1);
      AddedFacts(w.all.Of(kind), next, t);
      AddedFacts(w.ports[port].Of(kind), next, t);
      WiringIsExact(index, edges[..last], i, t, kind, port);
      LinkedLast(index, edges, i, t, kind, 0, MAX_PORT_COUNT);
      LinkedLast(index, edges, i, t, kind, port, port + 1);
      WireOf(w, edges[last], next, kind, port);
    }
  }

  ghost predicate UniqueNames(nodes: seq<NodeConfig>) {
    forall i, j :: 0 <= i < j < |nodes| ==> nodes[i].name != nodes[j].name
  }

  /** Each id and each name maps to the position of its node. */
  ghost predicate Positions(ordered: seq<NodeConfig>, index: map<string, nat>, names: map<string, nat>) {
    && (forall i :: 0 <= i < |ordered| ==> ordered[i].id in index && index[ordered[i].id] == i)
    && (forall i :: 0 <= i < |ordered| ==> ordered[i].name in names && names[ordered[i].name] == i)
    && (forall id :: id in index ==> index[id] < |ordered| && ordered[index[id]].id == id)
    && (forall name :: name in names ==> names[name] < |ordered| && ordered[names[name]].name == name)
  }

  /** The bookkeeping of initNodes. */
  /** `builds` says whether the plugin builder of a node succeeds. */
  ghost predicate AllBuild(nodes: seq<NodeConfig>, builds: string -> bool) {
    forall n :: n in nodes ==> builds(n.id)
  }

  method NumberNodes(ordered: seq<NodeConfig>, builds: string -> bool)
    returns (error: Option<GraphError>, index: map<string, nat>, names: map<string, nat>)
    ensures error.None? <==> UniqueIds(ordered) && UniqueNames(ordered) && AllBuild(ordered, builds)
    ensures error.None? ==> Positions(ordered, index, names)
  {
    index, names := map[], map[];
    for i := 0 to |ordered|
      invariant Positions(ordered[..i], index, names)
      invariant forall k :: 0 <= k < i ==> builds(ordered[k].id)
    {
      if ordered[i].id in index {
        assert ordered[index[ordered[i].id]].id == ordered[i].id;
        return Some(DuplicateNode(ordered[i].id)), index, names;
      }
      if ordered[i].name in names {
        assert ordered[names[ordered[i].name]].name == ordered[i].name;
        return Some(DuplicateName(ordered[i].name)), index, names;
      }
      if !builds(ordered[i].id) {
        assert ordered[i] in ordered;
        return Some(BuildFailed(ordered[i].id)), index, names;
      }
      index := index[ordered[i].id := i];
      names := names[ordered[i].name := i];
    }
    assert ordered[..|ordered|] == ordered;
    return None, index, names;
  }

  class Workflow {
    var nodes: seq<BaseNode>
    var indexMap: map<string, nat>
    var nameMap: map<string, nat>

    ghost predicate Valid()
      reads this, nodes
    {
      && (forall i, j :: 0 <= i < j < |nodes| ==> nodes[i] != nodes[j])
      && (forall i :: 0 <= i < |nodes| ==> nodes[i].Valid())
      && (forall id :: id in indexMap ==> indexMap[id] < |nodes|)
    }

    constructor ()
      ensures nodes == [] && indexMap == map[] && nameMap == map[]
    {
      nodes, indexMap, nameMap := [], map[], map[];
    }

    /** Fails exactly on a repeated id or name, of which BuildGraph checks the ids only, or on a plugin
        that cannot be built. */
    method InitNodes(ordered: seq<NodeConfig>, builds: string -> bool) returns (error: Option<GraphError>)
      requires nodes == []
      modifies this
      ensures error.None? <==> UniqueIds(ordered) && UniqueNames(ordered) && AllBuild(ordered, builds)
      ensures error.None? ==>
        && Valid() && fresh(nodes) && |nodes| == |ordered|
        && (forall i :: 0 <= i < |nodes| ==> nodes[i].View() == Empty())
        && Positions(ordered, indexMap, nameMap)
    {
      hide Empty;
      error, indexMap, nameMap := NumberNodes(ordered, builds);
      if error.Some? {
        return;
      }
      for i := 0 to |ordered|
        invariant |nodes| == i && fresh(nodes)
        invariant forall j, k :: 0 <= j < k < i ==> nodes[j] != nodes[k]
        invariant forall j :: 0 <= j < i ==> nodes[j].Valid() && nodes[j].View() == Empty()
        invariant Positions(ordered, indexMap, nameMap)
      {
        var node := new BaseNode();
        nodes := nodes + [node];
      }
    }

    /** Fails exactly when an edge names a node that does not exist. */
    method WireNodes(edges: seq<EdgeConfig>) returns (error: Option<GraphError>)
      requires Valid() && forall i :: 0 <= i < |nodes| ==> nodes[i].View() == Empty()
      modifies nodes
      ensures Valid() && (error.None? <==> Indexed(indexMap, edges))
      ensures error.None? ==> forall i :: 0 <= i < |nodes| ==> nodes[i].View() == Wired(indexMap, edges, i)
    {
      for j := 0 to |edges|
        invariant Valid() && Indexed(indexMap, edges[..j])
        invariant forall i :: 0 <= i < |nodes| ==> nodes[i].View() == Wired(indexMap, edges[..j], i)
      {
        var e := edges[j];
        assert e in edges;
        if e.source !in indexMap {
          return Some(SourceNotFound(e.source));
        }
        if e.target !in indexMap {
          return Some(TargetNotFound(e.target));
        }
        var source := nodes[indexMap[e.source]];
        if e.port == 0 {
          source.AddNextNode(e.kind, indexMap[e.target]);
        } else {
          source.AddNextPortNode(e.kind, indexMap[e.target], e.port);
        }
        assert edges[..j + 1][..j] == edges[..j];
      }
      assert edges[..|edges|] == edges;
      return None;
    }
  }

  lemma AcceptedIsIndexed(config: WorkflowConfig, builders: set<string>, fits: (string, string, EventType) -> bool,
                          ordered: seq<NodeConfig>, index: map<string, nat>, names: map<string, nat>)
    requires Accepted(config, builders, fits) && Positions(ordered, index, names)
    requires forall n :: n in ordered <==> n in config.nodes
    ensures Indexed(index, config.edges)
  {
    forall e | e in config.edges ensures e.source in index && e.target in index {
      assert EdgeStands(Ids(config.nodes), fits, e);
      forall id | id in Ids(config.nodes) ensures id in index {
        var n :| n in config.nodes && n.id == id;
        assert n in ordered;
        var i :| 0 <= i < |ordered| && ordered[i] == n;
      }
    }
  }

  lemma NamesKept(a: seq<NodeConfig>, b: seq<NodeConfig>)
    requires UniqueIds(a) && UniqueIds(b) && (forall n :: n in a <==> n in b) && UniqueNames(a)
    ensures UniqueNames(b)
  {
    forall i, j | 0 <= i < j < |b| ensures b[i].name != b[j].name {
      assert b[i] in a && b[j] in a;
      var k, l :| 0 <= k < |a| && 0 <= l < |a| && a[k] == b[i] && a[l] == b[j];
      assert k != l;
    }
  }

  lemma SameNames(config: WorkflowConfig, builders: set<string>, fits: (string, string, EventType) -> bool, ordered: seq<NodeConfig>)
    requires Accepted(config, builders, fits) && UniqueIds(ordered) && forall n :: n in ordered <==> n in config.nodes
    ensures UniqueNames(ordered) <==> UniqueNames(config.nodes)
  {
    if UniqueNames(ordered) {
      NamesKept(ordered, config.nodes);
    }
    if UniqueNames(config.nodes) {
      NamesKept(config.nodes, ordered);
    }
  }

  /** Once BuildGraph accepts a configuration, only a repeated name or a plugin that cannot be built can
      stop the workflow: wiring never fails on a missing endpoint.  There is then one node for each
      configured one, and different ids lead to different nodes. */
  method NewWorkflow(config: WorkflowConfig, builders: set<string>, fits: (string, string, EventType) -> bool, builds: string -> bool)
    returns (w: Workflow, error: Option<GraphError>)
    ensures fresh(w)
    ensures error.None? <==> Accepted(config, builders, fits) && UniqueNames(config.nodes) && AllBuild(config.nodes, builds)
    ensures error.None? ==>
      && w.Valid() && |w.nodes| == |config.nodes|
      && Indexed(w.indexMap, config.edges) && w.indexMap.Keys == Ids(config.nodes) && OneToOne(w.indexMap)
      && forall i :: 0 <= i < |w.nodes| ==> w.nodes[i].View() == Wired(w.indexMap, config.edges, i)
  {
    hide Accepted, Wired, Ids, UniqueNames, UniqueIds, Positions, Indexed, OneToOne, Fed, Cycle, Topology.Ordered;
    w := new Workflow();
    var graph, sorted := BuildGraph(config, builders, fits);
    if graph.Err? {
      return w, Some(graph.error);
    }
    SameNames(config, builders, fits, graph.value);
    error := w.InitNodes(graph.value, builds);
    if error.Some? {
      return;
    }
    AcceptedIsIndexed(config, builders, fits, graph.value, w.indexMap, w.nameMap);
    IndexKeys(config.nodes, graph.value, w.indexMap, w.nameMap);
    error := w.WireNodes(config.edges);
  }

  ghost predicate OneToOne(index: map<string, nat>) {
    forall a, b :: a in index && b in index && index[a] == index[b] ==> a == b
  }

  /** BuildGraph accepts repeated names: two nodes of one name, each with an id of its own. */
  lemma RepeatedNameAccepted(fits: (string, string, EventType) -> bool)
    ensures exists config, builders :: Accepted(config, builders, fits) && !UniqueNames(config.nodes)
  {
    var nodes := [NodeConfig("a", "same"), NodeConfig("b", "same")];
    var config := WorkflowConfig("a", nodes, []);
    assert nodes[0].id != nodes[1].id && nodes[0].name == nodes[1].name;
    assert nodes[0] in nodes;
    assert Ids(nodes) == {"a", "b"} by {
      assert nodes[1] in nodes;
    }
    assert Accepted(config, {"a", "b"}, fits) && !UniqueNames(config.nodes);
  }

  lemma IndexKeys(nodes: seq<NodeConfig>, ordered: seq<NodeConfig>, index: map<string, nat>, names: map<string, nat>)
    requires Positions(ordered, index, names) && forall n :: n in ordered <==> n in nodes
    ensures index.Keys == Ids(nodes) && OneToOne(index)
  {
    forall id | id in index ensures id in Ids(nodes) {
      assert ordered[index[id]] in ordered;
    }
    forall n | n in nodes ensures n.id in index {
      assert n in ordered;
      var i :| 0 <= i < |ordered| && ordered[i] == n;
    }
  }
}

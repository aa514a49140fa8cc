/** The records shared by the backend and the frontend: a project owns one
    flowchart of nodes and edges. JSON fields that may be missing (or null)
    are `Option`s. */
module Model {

  datatype Option<T> = None | Some(value: T)

  /** A canvas position; JavaScript numbers are modelled as reals. */
  datatype Position = Position(x: real, y: real)

  /** A node's `data` object; the frontend reads and writes only its `label`
      field, here `text` (`label` is a Dafny keyword). */
  datatype NodeData = NodeData(text: string)

  /** A flowchart node. `kind` is the JSON field `type`, absent in the stored
      default data; `selected` is the transient flag the diagram widget sets
      when the user clicks the node. */
  datatype Node = Node(id: string, data: NodeData, position: Position, kind: Option<string>, selected: bool)

  /** A flowchart edge from node `source` to node `target`. */
  datatype Edge = Edge(id: string, source: string, target: string, kind: Option<string>, selected: bool)

  /** A flowchart; either list may be missing from a JSON record. */
  datatype Flowchart = Flowchart(nodes: Option<seq<Node>>, edges: Option<seq<Edge>>)

  /** A project; `name` and `description` are whatever the client posted,
      so either may be missing. */
  datatype Project = Project(id: string, name: Option<string>, description: Option<string>, flowchart: Option<Flowchart>)

  /** `flowchart?.nodes || []`: a missing flowchart or node list reads as empty. */
  function NodesOf(fc: Option<Flowchart>): seq<Node> {
    if fc.Some? && fc.value.nodes.Some? then fc.value.nodes.value else []
  }

  /** `flowchart?.edges || []`. */
  function EdgesOf(fc: Option<Flowchart>): seq<Edge> {
    if fc.Some? && fc.value.edges.Some? then fc.value.edges.value else []
  }

  /** `id` names a node of `nodes`. */
  predicate HasNode(nodes: seq<Node>, id: string) {
    exists i :: 0 <= i < |nodes| && nodes[i].id == id
  }

  /** Every edge's source and target name a node of the same flowchart; the
      applications never check this, but the stored default data satisfies it. */
  predicate EdgesConnectNodes(fc: Flowchart) {
    var ns := NodesOf(Some(fc));
    var es := EdgesOf(Some(fc));
    forall j :: 0 <= j < |es| ==> HasNode(ns, es[j].source) && HasNode(ns, es[j].target)
  }

  /** No two projects share an id. */
  predicate DistinctIds(ps: seq<Project>) {
    forall i, j :: 0 <= i < j < |ps| ==> ps[i].id != ps[j].id
  }
}

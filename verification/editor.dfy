/** The flowchart editor (nextgenxp-frontend/src/components/ProjectFlowchart.jsx):
    a working copy of one project's nodes and edges, the text of the
    new-node input, and the `hasChanges` flag that enables Save and Reset. */
module Editor {
  import opened Model
  import Strings
  import Seqs

  datatype EditorState = EditorState(nodes: seq<Node>, edges: seq<Edge>, newNodeLabel: string, hasChanges: bool)

  /** The state the editor mounts with for `project`: the project's node and
      edge lists (empty where missing), an empty input and no changes. */
  function Open(project: Project): (st: EditorState)
    ensures project.flowchart.None? ==> st.nodes == [] && st.edges == []
    ensures project.flowchart.Some? && project.flowchart.value.nodes.Some? ==>
      st.nodes == project.flowchart.value.nodes.value
    ensures project.flowchart.Some? && project.flowchart.value.nodes.None? ==> st.nodes == []
    ensures project.flowchart.Some? && project.flowchart.value.edges.Some? ==>
      st.edges == project.flowchart.value.edges.value
    ensures project.flowchart.Some? && project.flowchart.value.edges.None? ==> st.edges == []
    ensures st.newNodeLabel == "" && !st.hasChanges
  {
    EditorState(NodesOf(project.flowchart), EdgesOf(project.flowchart), "", false)
  }

  /** Typing into the new-node input replaces its text and nothing else. */
  function TypeLabel(st: EditorState, text: string): (r: EditorState)
    ensures r.newNodeLabel == text
    ensures r.nodes == st.nodes && r.edges == st.edges && r.hasChanges == st.hasChanges
  {
    st.(newNodeLabel := text)
  }

  /** The id `node_<stamp>` a new node gets; the stamp is the clock reading,
      written in decimal without leading zeros, and it can be read back
      from the id. */
  function NewNodeId(stamp: nat): (id: string)
    ensures |id| > 5 && id[..5] == "node_"
    ensures forall i :: 5 <= i < |id| ==> Strings.IsDigit(id[i])
    ensures id[5] != '0' || stamp == 0
    ensures Strings.ParseDecimal(id[5..]) == stamp
  {
    var digits := Strings.NatToString(stamp);
    Strings.ParseNatToString(stamp);
    assert ("node_" + digits)[5..] == digits;
    "node_" + digits
  }

  /** `addNewNode`, with the clock reading `stamp` and the random canvas
      position `position` as parameters. A blank input changes nothing;
      otherwise one node carrying the untrimmed input text is appended and
      the input is cleared. */
  function AddNewNode(st: EditorState, stamp: nat, position: Position): (r: EditorState)
    ensures Strings.IsBlank(st.newNodeLabel) ==> r == st
    ensures !Strings.IsBlank(st.newNodeLabel) ==>
      && |r.nodes| == |st.nodes| + 1
      && r.nodes[..|st.nodes|] == st.nodes
      && r.nodes[|st.nodes|].id == NewNodeId(stamp)
      && r.nodes[|st.nodes|].data == NodeData(st.newNodeLabel)
      && r.nodes[|st.nodes|].position == position
      && r.nodes[|st.nodes|].kind == Some("default")
      && !r.nodes[|st.nodes|].selected
      && r.newNodeLabel == ""
    ensures r.edges == st.edges && r.hasChanges == st.hasChanges
  {
    Strings.TrimEmptyIffBlank(st.newNodeLabel);
    if Strings.Trim(st.newNodeLabel) == "" then st
    else
      var node := Node(NewNodeId(stamp), NodeData(st.newNodeLabel), position, Some("default"), false);
      st.(nodes := st.nodes + [node], newNodeLabel := "")
  }

  function UnselectedNode(n: Node): bool {
    !n.selected
  }

  function UnselectedEdge(e: Edge): bool {
    !e.selected
  }

  /** `deleteSelectedNodes`: drops the selected nodes and the selected edges,
      nothing else; an edge whose endpoint was dropped stays. */
  function DeleteSelected(st: EditorState): (r: EditorState)
    ensures forall n :: n in r.nodes <==> n in st.nodes && !n.selected
    ensures forall e :: e in r.edges <==> e in st.edges && !e.selected
    ensures |r.nodes| <= |st.nodes| && |r.edges| <= |st.edges|
    ensures r.newNodeLabel == st.newNodeLabel && r.hasChanges == st.hasChanges
  {
    st.(nodes := Seqs.Filter(st.nodes, UnselectedNode), edges := Seqs.Filter(st.edges, UnselectedEdge))
  }

  /** Deleting again right after a deletion changes nothing. */
  lemma DeleteSelectedIdempotent(st: EditorState)
    ensures DeleteSelected(DeleteSelected(st)) == DeleteSelected(st)
  {
  }

  /** The survivors keep their order: deleting from a concatenation is
      concatenating the deletions from each part. */
  lemma DeleteSelectedKeepsOrder(st: EditorState, a: seq<Node>, b: seq<Node>, c: seq<Edge>, d: seq<Edge>)
    ensures DeleteSelected(st.(nodes := a + b, edges := c + d)).nodes
      == DeleteSelected(st.(nodes := a, edges := c)).nodes + DeleteSelected(st.(nodes := b, edges := d)).nodes
    ensures DeleteSelected(st.(nodes := a + b, edges := c + d)).edges
      == DeleteSelected(st.(nodes := a, edges := c)).edges + DeleteSelected(st.(nodes := b, edges := d)).edges
  {
    Seqs.FilterAppend(a, b, UnselectedNode);
    Seqs.FilterAppend(c, d, UnselectedEdge);
  }

  /** Deletion does not cascade: with nodes `a` (selected) and `b`, and an
      unselected edge from `a` to `b`, the edge survives and dangles. */
  lemma DeletionLeavesDanglingEdge(a: Node, b: Node, e: Edge)
    requires a.selected && !b.selected && !e.selected
    requires e.source == a.id && e.target == b.id && a.id != b.id
    ensures var r := DeleteSelected(EditorState([a, b], [e], "", true));
      r.nodes == [b] && r.edges == [e] && !HasNode(r.nodes, e.source)
  {
  }

  /** `x.type || 'default'`: a missing or empty type becomes "default". */
  function TypeOrDefault(t: Option<string>): (r: string)
    ensures r != ""
    ensures t.Some? && t.value != "" ==> r == t.value
    ensures t.None? || t.value == "" ==> r == "default"
  {
    if t.Some? && t.value != "" then t.value else "default"
  }

  /** The shape the editor saves: a non-empty type and no widget state. */
  predicate CanonicalNode(n: Node) {
    n.kind.Some? && n.kind.value != "" && !n.selected
  }

  predicate CanonicalEdge(e: Edge) {
    e.kind.Some? && e.kind.value != "" && !e.selected
  }

  /** One node in saved form: id, data and position kept, type defaulted,
      every other field dropped. Canonical nodes are exactly its fixed points. */
  function SerializeNode(n: Node): (r: Node)
    ensures r.id == n.id && r.data == n.data && r.position == n.position
    ensures CanonicalNode(r)
    ensures n.kind.Some? && n.kind.value != "" ==> r.kind == n.kind
    ensures n.kind.None? || n.kind.value == "" ==> r.kind == Some("default")
    ensures r == n <==> CanonicalNode(n)
  {
    Node(n.id, n.data, n.position, Some(TypeOrDefault(n.kind)), false)
  }

  /** One edge in saved form: id, source and target kept, type defaulted,
      every other field dropped. Canonical edges are exactly its fixed points. */
  function SerializeEdge(e: Edge): (r: Edge)
    ensures r.id == e.id && r.source == e.source && r.target == e.target
    ensures CanonicalEdge(r)
    ensures e.kind.Some? && e.kind.value != "" ==> r.kind == e.kind
    ensures e.kind.None? || e.kind.value == "" ==> r.kind == Some("default")
    ensures r == e <==> CanonicalEdge(e)
  {
    Edge(e.id, e.source, e.target, Some(TypeOrDefault(e.kind)), false)
  }

  function SerializeNodes(ns: seq<Node>): (r: seq<Node>)
    ensures |r| == |ns|
    ensures forall i :: 0 <= i < |ns| ==> r[i] == SerializeNode(ns[i])
  {
    seq(|ns|, i requires 0 <= i < |ns| => SerializeNode(ns[i]))
  }

  function SerializeEdges(es: seq<Edge>): (r: seq<Edge>)
    ensures |r| == |es|
    ensures forall i :: 0 <= i < |es| ==> r[i] == SerializeEdge(es[i])
  {
    seq(|es|, i requires 0 <= i < |es| => SerializeEdge(es[i]))
  }

  /** The request body `saveFlowchart` builds from the working copy. */
  function Serialize(st: EditorState): (fc: Flowchart)
    ensures fc.nodes.Some? && fc.edges.Some?
    ensures |fc.nodes.value| == |st.nodes| && |fc.edges.value| == |st.edges|
    ensures forall i :: 0 <= i < |st.nodes| ==> fc.nodes.value[i] == SerializeNode(st.nodes[i])
    ensures forall i :: 0 <= i < |st.edges| ==> fc.edges.value[i] == SerializeEdge(st.edges[i])
  {
    Flowchart(Some(SerializeNodes(st.nodes)), Some(SerializeEdges(st.edges)))
  }

  /** Serializing keeps every node's and edge's identity, label, position and
      connection; every saved type is the original when non-empty and
      "default" otherwise. */
  lemma SerializePreservesContent(st: EditorState)
    ensures var fc := Serialize(st);
      && |fc.nodes.value| == |st.nodes|
      && (forall i :: 0 <= i < |st.nodes| ==>
            && fc.nodes.value[i].id == st.nodes[i].id
            && fc.nodes.value[i].data == st.nodes[i].data
            && fc.nodes.value[i].position == st.nodes[i].position
            && fc.nodes.value[i].kind == Some(TypeOrDefault(st.nodes[i].kind))
            && CanonicalNode(fc.nodes.value[i]))
      && |fc.edges.value| == |st.edges|
      && (forall i :: 0 <= i < |st.edges| ==>
            && fc.edges.value[i].id == st.edges[i].id
            && fc.edges.value[i].source == st.edges[i].source
            && fc.edges.value[i].target == st.edges[i].target
            && fc.edges.value[i].kind == Some(TypeOrDefault(st.edges[i].kind))
            && CanonicalEdge(fc.edges.value[i]))
  {
  }

  /** Saving is idempotent: a working copy loaded from a saved flowchart
      serializes to that same flowchart. */
  lemma SerializeIdempotent(st: EditorState)
    ensures var fc := Serialize(st);
      Serialize(st.(nodes := NodesOf(Some(fc)), edges := EdgesOf(Some(fc)))) == fc
  {
    var fc := Serialize(st);
    var again := Serialize(st.(nodes := NodesOf(Some(fc)), edges := EdgesOf(Some(fc))));
    assert again.nodes.value == fc.nodes.value;
    assert again.edges.value == fc.edges.value;
  }

  /** Save and Reset are enabled exactly while there are changes. */
  function SaveEnabled(st: EditorState): (enabled: bool)
    ensures enabled <==> st.hasChanges
  {
    st.hasChanges
  }

  function ResetEnabled(st: EditorState): (enabled: bool)
    ensures enabled <==> st.hasChanges
  {
    st.hasChanges
  }

  /** The PUT the editor asks the application to send. */
  datatype PutRequest = PutRequest(projectId: string, body: Flowchart)

  /** The editor's state after an action, and the PUT it issued, if any. */
  datatype SaveStep = SaveStep(state: EditorState, request: Option<PutRequest>)

  /** Clicking Save for project `projectId`, up to the `await` of the update
      callback. While Save is disabled nothing happens; otherwise the
      serialized working copy goes to the callback and the state is left as
      it is: the flag stays set, so Save stays enabled and editing goes on
      while the PUT is pending. */
  function ClickSave(st: EditorState, projectId: string): (r: SaveStep)
    ensures !SaveEnabled(st) ==> r == SaveStep(st, None)
    ensures SaveEnabled(st) ==> r.request == Some(PutRequest(projectId, Serialize(st)))
    ensures r.state == st
  {
    if !SaveEnabled(st) then SaveStep(st, None)
    else SaveStep(st, Some(PutRequest(projectId, Serialize(st))))
  }

  /** The rest of `saveFlowchart`, once the update callback returns: the
      flag is cleared. The callback never throws, so this happens whatever
      the PUT's outcome, and whatever was edited while it was pending. */
  function SaveReturned(st: EditorState): (r: EditorState)
    ensures !r.hasChanges
    ensures r.nodes == st.nodes && r.edges == st.edges && r.newNodeLabel == st.newNodeLabel
  {
    st.(hasChanges := false)
  }

  /** A second click while the first PUT is pending sends the same body again. */
  lemma SecondClickWhilePendingSendsAgain(st: EditorState, projectId: string)
    requires SaveEnabled(st)
    ensures ClickSave(ClickSave(st, projectId).state, projectId).request.Some?
    ensures ClickSave(ClickSave(st, projectId).state, projectId).request == ClickSave(st, projectId).request
  {
  }

  /** `resetFlowchart`: the working copy becomes the project's flowchart
      lists (empty where missing) and the flag is cleared. */
  function Reset(st: EditorState, project: Project): (r: EditorState)
    ensures |r.nodes| == |NodesOf(project.flowchart)| && |r.edges| == |EdgesOf(project.flowchart)|
    ensures project.flowchart.None? ==> r.nodes == [] && r.edges == []
    ensures project.flowchart.Some? && project.flowchart.value.nodes.Some? ==>
      r.nodes == project.flowchart.value.nodes.value
    ensures project.flowchart.Some? && project.flowchart.value.edges.Some? ==>
      r.edges == project.flowchart.value.edges.value
    ensures !r.hasChanges && r.newNodeLabel == st.newNodeLabel
  {
    st.(nodes := NodesOf(project.flowchart), edges := EdgesOf(project.flowchart), hasChanges := false)
  }

  /** Reset puts back the working copy the editor was opened with. */
  lemma ResetMatchesOpen(st: EditorState, project: Project)
    ensures Reset(st, project) == Open(project).(newNodeLabel := st.newNodeLabel)
  {
  }

  /** Clicking Reset: nothing happens while it is disabled. */
  function ClickReset(st: EditorState, project: Project): (r: EditorState)
    ensures !ResetEnabled(st) ==> r == st
    ensures ResetEnabled(st) ==> r == Reset(st, project)
  {
    if ResetEnabled(st) then Reset(st, project) else st
  }

  /** The change effect: any new node or edge list sets the flag. When the
      widget schedules it is not modelled; it is a step of its own. */
  function MarkChanged(st: EditorState): (r: EditorState)
    ensures r.hasChanges
    ensures r.nodes == st.nodes && r.edges == st.edges && r.newNodeLabel == st.newNodeLabel
  {
    st.(hasChanges := true)
  }

  /** The user's and the widget's actions on the editor. `Save` is the click
      and `SaveDone` the return of the update callback it awaits. */
  datatype Action =
    | Type(text: string)
    | Add(stamp: nat, position: Position)
    | DeleteSelection
    | ChangeEffect
    | Save(projectId: string)
    | SaveDone
    | ResetTo(project: Project)

  /** One action; a click on a disabled button does nothing. The flag is a
      two-state machine: only the change effect sets it, and only the
      return of a save or an enabled Reset clears it. */
  function Step(st: EditorState, a: Action): (r: EditorState)
    ensures r.hasChanges && !st.hasChanges ==> a.ChangeEffect?
    ensures !r.hasChanges && st.hasChanges ==> a.SaveDone? || a.ResetTo?
    ensures a.SaveDone? || (a.ResetTo? && st.hasChanges) ==> !r.hasChanges
    ensures a.ChangeEffect? ==> r.hasChanges
    ensures a.Save? ==> r == st
    ensures (r.nodes != st.nodes || r.edges != st.edges) ==> a.Add? || a.DeleteSelection? || a.ResetTo?
  {
    match a
    case Type(text) => TypeLabel(st, text)
    case Add(stamp, position) => AddNewNode(st, stamp, position)
    case DeleteSelection => DeleteSelected(st)
    case ChangeEffect => MarkChanged(st)
    case Save(projectId) => ClickSave(st, projectId).state
    case SaveDone => SaveReturned(st)
    case ResetTo(project) => ClickReset(st, project)
  }

  function Run(st: EditorState, actions: seq<Action>): EditorState
    decreases |actions|
  {
    if |actions| == 0 then st else Run(Step(st, actions[0]), actions[1..])
  }

  /** Once set, the flag stays set through any actions in which no save
      returns and no Reset happens. */
  lemma {:induction false} ChangesPersistUntilSaveOrReset(st: EditorState, actions: seq<Action>)
    requires st.hasChanges
    requires forall i :: 0 <= i < |actions| ==> !actions[i].SaveDone? && !actions[i].ResetTo?
    ensures Run(st, actions).hasChanges
    decreases |actions|
  {
    if |actions| > 0 {
      ChangesPersistUntilSaveOrReset(Step(st, actions[0]), actions[1..]);
    }
  }

  /** Without the change effect, the flag never goes from clear to set. */
  lemma {:induction false} CleanStaysCleanWithoutChangeEffect(st: EditorState, actions: seq<Action>)
    requires !st.hasChanges
    requires forall i :: 0 <= i < |actions| ==> !actions[i].ChangeEffect?
    ensures !Run(st, actions).hasChanges
    decreases |actions|
  {
    if |actions| > 0 {
      CleanStaysCleanWithoutChangeEffect(Step(st, actions[0]), actions[1..]);
    }
  }

  /** A node added while a PUT is pending is not in the body sent, yet the
      return of that save marks the editor clean: the unsaved node shows as
      saved. */
  lemma EditWhileSavePendingShowsSaved(st: EditorState, projectId: string, stamp: nat, position: Position)
    requires st.hasChanges && !Strings.IsBlank(st.newNodeLabel)
    ensures var sent := ClickSave(st, projectId).request;
      var r := Run(st, [Save(projectId), Add(stamp, position), ChangeEffect, SaveDone]);
      && sent.Some? && |sent.value.body.nodes.value| == |st.nodes|
      && |r.nodes| == |st.nodes| + 1
      && !r.hasChanges
  {
    var actions := [Save(projectId), Add(stamp, position), ChangeEffect, SaveDone];
    var s1 := Step(st, actions[0]);
    var s2 := Step(s1, actions[1]);
    var s3 := Step(s2, actions[2]);
    var s4 := Step(s3, actions[3]);
    assert Run(st, actions) == Run(s1, actions[1..]);
    assert Run(s1, actions[1..]) == Run(s2, actions[2..]);
    assert Run(s2, actions[2..]) == Run(s3, actions[3..]);
    assert Run(s3, actions[3..]) == Run(s4, []);
  }
}

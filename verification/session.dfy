/** One save as the three components see it together: the editor's Save
    click, the application's PUT and its handling of the reply, and the
    backend's update of its store. */
module Session {
  import opened Model
  import Backend
  import Editor
  import App

  /** Whether the PUT reaches the backend; when it does not, `fetch` throws. */
  datatype Transport = Delivered | Unreachable(message: string)

  /** The editor, the application and the backend's stored project list. */
  datatype Snapshot = Snapshot(editor: Editor.EditorState, app: App.AppState, store: seq<Project>)

  /** The outcome the application sees for the backend's reply: any 2xx
      status is `response.ok`. */
  function OutcomeOf(r: Backend.Reply): (o: App.SaveOutcome)
    ensures o.SaveOk? <==> 200 <= r.status < 300
    ensures !o.SaveThrown?
    ensures Backend.IsBackendStatus(r.status) ==> (o.SaveOk? <==> r.status == 200 || r.status == 201)
  {
    if 200 <= r.status < 300 then App.SaveOk else App.SaveNotOk
  }

  /** Clicking Save in the editor of project `projectId`, with nothing else
      happening until the update callback returns. The flag ends clear
      whatever the PUT's fate, and the working copy is never touched; a
      failed PUT changes neither the application nor the store; a
      successful one stores the serialized working copy in the first
      project with that id and puts it into the selected project. */
  function SaveFlow(sn: Snapshot, projectId: string, t: Transport): (r: Snapshot)
    ensures !sn.editor.hasChanges ==> r == sn
    ensures !r.editor.hasChanges
    ensures r.editor.nodes == sn.editor.nodes && r.editor.edges == sn.editor.edges
    ensures r.editor.newNodeLabel == sn.editor.newNodeLabel
    ensures t.Unreachable? || Backend.NoMatch(sn.store, projectId) ==> r.app == sn.app && r.store == sn.store
    ensures sn.editor.hasChanges && t.Delivered? && !Backend.NoMatch(sn.store, projectId) ==>
      && r.app == App.FlowchartSaved(sn.app, Editor.Serialize(sn.editor), App.SaveOk)
      && exists i :: Backend.IsFirstMatch(sn.store, projectId, i) &&
           Backend.ReplacedFlowchart(sn.store, r.store, i, Editor.Serialize(sn.editor))
  {
    var step := Editor.ClickSave(sn.editor, projectId);
    match step.request
    case None => sn
    case Some(put) =>
      match t
      case Unreachable(message) =>
        Snapshot(Editor.SaveReturned(step.state), App.FlowchartSaved(sn.app, put.body, App.SaveThrown(message)), sn.store)
      case Delivered =>
        var reply := Backend.UpdateFlowchart(sn.store, put.projectId, put.body);
        Snapshot(Editor.SaveReturned(step.state), App.FlowchartSaved(sn.app, put.body, OutcomeOf(reply)),
                 Backend.StoreAfter(sn.store, reply))
  }

  /** After a successful save of the open project, reopening or resetting
      the editor on the updated selection yields the saved flowchart, and
      saving that again sends the same body. */
  lemma SaveThenReopen(sn: Snapshot, p: Project)
    requires sn.editor.hasChanges && sn.app.selection == App.Chosen(p)
    requires !Backend.NoMatch(sn.store, p.id)
    ensures var r := SaveFlow(sn, p.id, Delivered);
      && r.app.selection.Chosen?
      && Editor.Reset(r.editor, r.app.selection.project).nodes == Editor.SerializeNodes(sn.editor.nodes)
      && Editor.Reset(r.editor, r.app.selection.project).edges == Editor.SerializeEdges(sn.editor.edges)
      && Editor.Serialize(Editor.Open(r.app.selection.project)) == Editor.Serialize(sn.editor)
  {
    var body := Editor.Serialize(sn.editor);
    Editor.SerializeIdempotent(sn.editor);
    assert Editor.Open(p.(flowchart := Some(body))).nodes == NodesOf(Some(body));
  }

  /** After a successful save, the backend serves the project with the saved
      flowchart, and an editor opened on it saves the same body again. */
  lemma SaveThenFetchFromServer(sn: Snapshot, projectId: string)
    requires sn.editor.hasChanges && !Backend.NoMatch(sn.store, projectId)
    ensures var r := SaveFlow(sn, projectId, Delivered);
      var reply := Backend.GetProject(r.store, projectId);
      && reply.status == 200
      && reply.body.project.flowchart == Some(Editor.Serialize(sn.editor))
      && Editor.Serialize(Editor.Open(reply.body.project)) == Editor.Serialize(sn.editor)
  {
    var body := Editor.Serialize(sn.editor);
    Backend.UpdateThenGet(sn.store, projectId, body);
    Editor.SerializeIdempotent(sn.editor);
    var reply := Backend.GetProject(SaveFlow(sn, projectId, Delivered).store, projectId);
    assert Editor.Open(reply.body.project).nodes == NodesOf(Some(body));
  }

  /** The badge on a project card counts the nodes the editor opens with. */
  lemma BadgeMatchesEditor(p: Project)
    ensures App.NodeCountBadge(p) == |Editor.Open(p).nodes|
  {
  }
}

/** The application shell (nextgenxp-frontend/src/App.jsx): the fetched
    project list, the project open in the editor, and the loading and error
    flags, with the transitions the network completions and the user's
    clicks cause, and the choice of screen. */
module App {
  import opened Model

  const LoadErrorMessage: string := "Erro ao carregar projetos"

  /** `selectedProject`: null, a project the user picked, or the object
      `{...null, flowchart}` that a successful save produces when no project
      is selected any more. */
  datatype Selection = NoSelection | Chosen(project: Project) | FlowchartOnly(flowchart: Flowchart)

  datatype AppState = AppState(projects: seq<Project>, selection: Selection, loading: bool, error: Option<string>)

  /** The state before the first fetch completes. */
  const Initial: AppState := AppState([], NoSelection, true, None)

  /** How a GET of the project list ends: with the decoded list, with a
      non-ok status, or with an exception carrying a message. */
  datatype FetchOutcome = Fetched(data: seq<Project>) | NotOk | Thrown(message: string)

  /** How the PUT of a flowchart ends. */
  datatype SaveOutcome = SaveOk | SaveNotOk | SaveThrown(message: string)

  /** `fetchProjects` up to its `await`: the loading flag is raised. */
  function FetchStart(s: AppState): (r: AppState)
    ensures r.loading
    ensures r.projects == s.projects && r.selection == s.selection && r.error == s.error
  {
    s.(loading := true)
  }

  /** `fetchProjects` after its `await`: a list replaces the projects; a
      failure records its message and keeps the projects; either way the
      loading flag drops. The error is never cleared. */
  function FetchDone(s: AppState, o: FetchOutcome): (r: AppState)
    ensures !r.loading && r.selection == s.selection
    ensures o.Fetched? ==> r.projects == o.data && r.error == s.error
    ensures !o.Fetched? ==> r.projects == s.projects
    ensures o.NotOk? ==> r.error == Some(LoadErrorMessage)
    ensures o.Thrown? ==> r.error == Some(o.message)
  {
    match o
    case Fetched(data) => s.(projects := data, loading := false)
    case NotOk => s.(error := Some(LoadErrorMessage), loading := false)
    case Thrown(message) => s.(error := Some(message), loading := false)
  }

  /** `handleProjectSelect`. */
  function Select(s: AppState, p: Project): (r: AppState)
    ensures r.selection == Chosen(p)
    ensures r.projects == s.projects && r.loading == s.loading && r.error == s.error
  {
    s.(selection := Chosen(p))
  }

  /** `handleBackToProjects`: clears the selection and starts a refetch. */
  function Back(s: AppState): (r: AppState)
    ensures r.selection == NoSelection && r.loading
    ensures r.projects == s.projects && r.error == s.error
  {
    FetchStart(s.(selection := NoSelection))
  }

  /** `{...prev, flowchart}`: the previous selection with its flowchart
      replaced; spreading null yields an object holding only the flowchart. */
  function WithFlowchart(prev: Selection, fc: Flowchart): (r: Selection)
    ensures r != NoSelection
    ensures prev.Chosen? ==> r == Chosen(prev.project.(flowchart := Some(fc)))
    ensures !prev.Chosen? ==> r == FlowchartOnly(fc)
  {
    match prev
    case Chosen(p) => Chosen(p.(flowchart := Some(fc)))
    case _ => FlowchartOnly(fc)
  }

  /** `handleFlowchartUpdate` after its PUT of `fc` completes: success
      replaces only the selected project's flowchart; failure is reported
      to the user and changes no state. */
  function FlowchartSaved(s: AppState, fc: Flowchart, o: SaveOutcome): (r: AppState)
    ensures !o.SaveOk? ==> r == s
    ensures o.SaveOk? && s.selection.Chosen? ==>
      r.selection.Chosen? && r.selection.project.flowchart == Some(fc)
      && r.selection.project.id == s.selection.project.id
      && r.selection.project.name == s.selection.project.name
      && r.selection.project.description == s.selection.project.description
    ensures o.SaveOk? && !s.selection.Chosen? ==> r.selection == FlowchartOnly(fc)
    ensures r.projects == s.projects && r.loading == s.loading && r.error == s.error
  {
    if o.SaveOk? then s.(selection := WithFlowchart(s.selection, fc)) else s
  }

  /** The screen the application shows. */
  datatype View = LoadingView | ErrorView(message: string) | EditorView(selection: Selection) | ListView(projects: seq<Project>)

  /** `if (error)`: an error is shown when it is set and non-empty. */
  predicate ErrorShown(s: AppState) {
    s.error.Some? && s.error.value != ""
  }

  /** The screen: loading first, then the error, then the editor, then the list. */
  function Render(s: AppState): (v: View)
    ensures v.LoadingView? <==> s.loading
    ensures v.ErrorView? <==> !s.loading && ErrorShown(s)
    ensures v.EditorView? <==> !s.loading && !ErrorShown(s) && s.selection != NoSelection
    ensures v.ListView? <==> !s.loading && !ErrorShown(s) && s.selection == NoSelection
    ensures v.ErrorView? ==> v.message == s.error.value
    ensures v.EditorView? ==> v.selection == s.selection
    ensures v.ListView? ==> v.projects == s.projects
  {
    if s.loading then LoadingView
    else if ErrorShown(s) then ErrorView(s.error.value)
    else if s.selection != NoSelection then EditorView(s.selection)
    else ListView(s.projects)
  }

  /** The node-count badge on a project card: `flowchart?.nodes?.length || 0`. */
  function NodeCountBadge(p: Project): (n: nat)
    ensures n == |NodesOf(p.flowchart)|
    ensures p.flowchart.None? || p.flowchart.value.nodes.None? ==> n == 0
  {
    match p.flowchart
    case None => 0
    case Some(fc) =>
      match fc.nodes
      case None => 0
      case Some(ns) => |ns|
  }

  /** The events the application reacts to. */
  datatype Event =
    | StartFetch
    | FinishFetch(outcome: FetchOutcome)
    | SelectProject(project: Project)
    | BackToProjects
    | FinishSave(flowchart: Flowchart, saveOutcome: SaveOutcome)

  /** A failure whose message is empty sets an error the screen ignores. */
  predicate SilentFailure(e: Event) {
    e.FinishFetch? && e.outcome.Thrown? && e.outcome.message == ""
  }

  /** One event. No event resets the error to null, and once a non-empty
      error is set only a failure with an empty message can hide it. */
  function Apply(s: AppState, e: Event): (r: AppState)
    ensures s.error.Some? ==> r.error.Some?
    ensures ErrorShown(s) && !SilentFailure(e) ==> ErrorShown(r)
    ensures e.FinishFetch? ==> !r.loading
    ensures (e.StartFetch? || e.BackToProjects?) ==> r.loading
  {
    match e
    case StartFetch => FetchStart(s)
    case FinishFetch(o) => FetchDone(s, o)
    case SelectProject(p) => Select(s, p)
    case BackToProjects => Back(s)
    case FinishSave(fc, o) => FlowchartSaved(s, fc, o)
  }

  function RunEvents(s: AppState, events: seq<Event>): AppState
    decreases |events|
  {
    if |events| == 0 then s else RunEvents(Apply(s, events[0]), events[1..])
  }

  /** The error, once set, is never reset to null. */
  lemma {:induction false} ErrorNeverCleared(s: AppState, events: seq<Event>)
    requires s.error.Some?
    ensures RunEvents(s, events).error.Some?
    decreases |events|
  {
    if |events| > 0 {
      ErrorNeverCleared(Apply(s, events[0]), events[1..]);
    }
  }

  /** Once the error screen appears, it is the screen of every later state
      that is not loading, provided no failure carries an empty message:
      not even a successful retry leaves it. */
  lemma {:induction false} ErrorScreenSticks(s: AppState, events: seq<Event>)
    requires ErrorShown(s)
    requires forall i :: 0 <= i < |events| ==> !SilentFailure(events[i])
    ensures ErrorShown(RunEvents(s, events))
    ensures !RunEvents(s, events).loading ==> Render(RunEvents(s, events)).ErrorView?
    decreases |events|
  {
    if |events| > 0 {
      ErrorScreenSticks(Apply(s, events[0]), events[1..]);
    }
  }

  /** The first screen is the loading screen; once the mount-time fetch
      ends, a fetched list shows as the list, a non-ok status as the load
      error, and an exception as its message unless that message is empty. */
  lemma FirstLoad(o: FetchOutcome)
    ensures Render(Initial) == LoadingView
    ensures var v := Render(RunEvents(Initial, [StartFetch, FinishFetch(o)]));
      match o
      case Fetched(data) => v == ListView(data)
      case NotOk => v == ErrorView(LoadErrorMessage)
      case Thrown(m) => v == (if m == "" then ListView([]) else ErrorView(m))
  {
    var s1 := Apply(Initial, StartFetch);
    var s2 := Apply(s1, FinishFetch(o));
    assert RunEvents(Initial, [StartFetch, FinishFetch(o)]) == RunEvents(s1, [FinishFetch(o)]);
    assert RunEvents(s1, [FinishFetch(o)]) == RunEvents(s2, []);
  }

  /** A failed save after Back (the PUT was still in flight) leaves no
      selection; a successful one reopens the editor on a record holding
      only the saved flowchart once the refetch completes. */
  lemma SaveCompletingAfterBack(s: AppState, fc: Flowchart, data: seq<Project>)
    requires !ErrorShown(s)
    ensures Render(FetchDone(FlowchartSaved(Back(s), fc, SaveOk), Fetched(data))) == EditorView(FlowchartOnly(fc))
    ensures Render(FetchDone(FlowchartSaved(Back(s), fc, SaveNotOk), Fetched(data))) == ListView(data)
  {
  }
}

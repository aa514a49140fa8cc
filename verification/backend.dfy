/** The backend's project store (backend/app.py). Every request loads the
    project list, may change it, and may write it back; here the loaded list
    is a parameter `store` and a reply says what, if anything, was written. */
module Backend {
  import opened Model
  import Strings

  const NotFoundMessage: string := "Projeto não encontrado"
  const UpdatedMessage: string := "Fluxograma atualizado com sucesso"

  /** The JSON body of a reply. */
  datatype Body =
    | ProjectList(projects: seq<Project>)
    | OneProject(project: Project)
    | Message(message: string)
    | Error(error: string)

  /** One HTTP reply: status code, body, and the project list the request
      saved, or `None` when it saved nothing. */
  datatype Reply = Reply(status: int, body: Body, saved: Option<seq<Project>>)

  /** The project list the next request loads. */
  function StoreAfter(store: seq<Project>, r: Reply): seq<Project> {
    if r.saved.Some? then r.saved.value else store
  }

  function DataNode(id: string, text: string, x: real, y: real): Node {
    Node(id, NodeData(text), Position(x, y), None, false)
  }

  function DataEdge(id: string, source: string, target: string): Edge {
    Edge(id, source, target, None, false)
  }

  /** The data served while no data file exists. */
  const DefaultProjects: seq<Project> := [
    Project(
      "proj1", Some("Projeto Alpha"),
      Some("Descrição do Projeto Alpha - Um projeto de exemplo para demonstração."),
      Some(Flowchart(
        Some([ DataNode("1", "Início", 250.0, 5.0),
               DataNode("2", "Tarefa A", 100.0, 100.0),
               DataNode("3", "Tarefa B", 400.0, 100.0),
               DataNode("4", "Fim", 250.0, 200.0) ]),
        Some([ DataEdge("e1-2", "1", "2"),
               DataEdge("e1-3", "1", "3"),
               DataEdge("e2-4", "2", "4"),
               DataEdge("e3-4", "3", "4") ])))),
    Project(
      "proj2", Some("Projeto Beta"),
      Some("Descrição do Projeto Beta - Outro projeto de exemplo."),
      Some(Flowchart(
        Some([ DataNode("1", "Fase 1", 250.0, 5.0),
               DataNode("2", "Fase 2", 250.0, 100.0),
               DataNode("3", "Fase 3", 250.0, 200.0) ]),
        Some([ DataEdge("e1-2", "1", "2"),
               DataEdge("e2-3", "2", "3") ]))))
  ]

  /** The flowchart a new project gets when its request carries none. */
  const DefaultFlowchart: Flowchart := Flowchart(Some([DataNode("1", "Início", 250.0, 5.0)]), Some([]))

  /** The id generated for the `n`-th project: `proj` followed by the
      decimal digits of `n` without leading zeros, which can be read back
      from the id. */
  function ProjId(n: nat): (id: string)
    ensures |id| > 4 && id[..4] == "proj"
    ensures forall i :: 4 <= i < |id| ==> Strings.IsDigit(id[i])
    ensures id[4] != '0' || n == 0
    ensures Strings.ParseDecimal(id[4..]) == n
  {
    var digits := Strings.NatToString(n);
    Strings.ParseNatToString(n);
    assert ("proj" + digits)[4..] == digits;
    "proj" + digits
  }

  /** The status codes this backend replies with. */
  predicate IsBackendStatus(status: int) {
    status == 200 || status == 201 || status == 404
  }

  /** `i` is the position of the first project with id `id`. */
  predicate IsFirstMatch(store: seq<Project>, id: string, i: int) {
    && 0 <= i < |store|
    && store[i].id == id
    && forall j :: 0 <= j < i ==> store[j].id != id
  }

  predicate NoMatch(store: seq<Project>, id: string) {
    forall j :: 0 <= j < |store| ==> store[j].id != id
  }

  /** `after` is `before` with only the flowchart of project `i` replaced. */
  predicate ReplacedFlowchart(before: seq<Project>, after: seq<Project>, i: int, fc: Flowchart) {
    && |after| == |before|
    && 0 <= i < |before|
    && after[i] == before[i].(flowchart := Some(fc))
    && forall j :: 0 <= j < |before| && j != i ==> after[j] == before[j]
  }

  /** A front-to-back scan for the first project whose id equals `id`,
      giving its position, or `None` when the scan runs off the end. */
  function FindProject(store: seq<Project>, id: string): (r: Option<nat>)
    ensures r.Some? ==> IsFirstMatch(store, id, r.value)
    ensures r.None? ==> NoMatch(store, id)
  {
    if |store| == 0 then None
    else if store[0].id == id then Some(0)
    else match FindProject(store[1..], id)
      case None => None
      case Some(i) => Some(i + 1)
  }

  /** GET /api/projects. */
  function GetProjects(store: seq<Project>): (r: Reply)
    ensures r.status == 200 && r.saved.None?
    ensures r.body == ProjectList(store)
  {
    Reply(200, ProjectList(store), None)
  }

  /** GET /api/projects/<id>. */
  function GetProject(store: seq<Project>, id: string): (r: Reply)
    ensures r.saved.None?
    ensures r.status == 200 || r.status == 404
    ensures r.status == 404 <==> NoMatch(store, id)
    ensures r.status == 404 ==> r.body == Error(NotFoundMessage)
    ensures r.status == 200 ==> exists i :: IsFirstMatch(store, id, i) && r.body == OneProject(store[i])
  {
    match FindProject(store, id)
    case Some(i) => Reply(200, OneProject(store[i]), None)
    case None => Reply(404, Error(NotFoundMessage), None)
  }

  /** PUT /api/projects/<id>/flowchart with request body `fc`. */
  function UpdateFlowchart(store: seq<Project>, id: string, fc: Flowchart): (r: Reply)
    ensures r.status == 200 || r.status == 404
    ensures r.status == 404 <==> NoMatch(store, id)
    ensures r.status == 404 ==> r.body == Error(NotFoundMessage) && r.saved.None?
    ensures r.status == 200 ==> r.body == Message(UpdatedMessage) && r.saved.Some?
    ensures r.status == 200 ==>
      exists i :: IsFirstMatch(store, id, i) && ReplacedFlowchart(store, r.saved.value, i, fc)
  {
    match FindProject(store, id)
    case Some(i) => Reply(200, Message(UpdatedMessage), Some(store[i := store[i].(flowchart := Some(fc))]))
    case None => Reply(404, Error(NotFoundMessage), None)
  }

  /** POST /api/projects with request body `request`. */
  function CreateProject(store: seq<Project>, request: Project): (r: Reply)
    ensures r.status == 201 && r.body.OneProject? && r.saved.Some?
    ensures |r.saved.value| == |store| + 1
    ensures r.saved.value[..|store|] == store
    ensures r.saved.value[|store|] == r.body.project
    ensures r.body.project.id == ProjId(|store| + 1)
    ensures r.body.project.name == request.name
    ensures r.body.project.description == request.description
    ensures request.flowchart.None? ==> r.body.project.flowchart == Some(DefaultFlowchart)
    ensures request.flowchart.Some? ==> r.body.project.flowchart == request.flowchart
  {
    var withId := request.(id := ProjId(|store| + 1));
    var created := if withId.flowchart.None? then withId.(flowchart := Some(DefaultFlowchart)) else withId;
    Reply(201, OneProject(created), Some(store + [created]))
  }

  /** The store holds exactly the ids proj1 .. projN, in order: true of the
      default data and kept by every request. */
  predicate CanonicalIds(store: seq<Project>) {
    forall i :: 0 <= i < |store| ==> store[i].id == ProjId(i + 1)
  }

  lemma ProjIdInjective(a: nat, b: nat)
    ensures ProjId(a) == ProjId(b) <==> a == b
  {
    if ProjId(a) == ProjId(b) {
      var sa, sb := Strings.NatToString(a), Strings.NatToString(b);
      assert ProjId(a)[4..] == sa;
      assert ProjId(b)[4..] == sb;
      Strings.NatToStringInjective(a, b);
    }
  }

  lemma CanonicalIdsAreDistinct(store: seq<Project>)
    requires CanonicalIds(store)
    ensures DistinctIds(store)
  {
    forall i, j | 0 <= i < j < |store|
      ensures store[i].id != store[j].id
    {
      ProjIdInjective(i + 1, j + 1);
    }
  }

  /** The id a new project gets is not used by any stored project, as the
      generator's comment claims, provided the ids are canonical. */
  lemma GeneratedIdIsFresh(store: seq<Project>, request: Project)
    requires CanonicalIds(store)
    ensures NoMatch(store, CreateProject(store, request).body.project.id)
  {
    forall j | 0 <= j < |store|
      ensures store[j].id != ProjId(|store| + 1)
    {
      ProjIdInjective(j + 1, |store| + 1);
    }
  }

  /** Without canonical ids the generated id can clash: a store holding only
      a project `proj2` gives the new project the id `proj2` too. */
  lemma GeneratedIdCanClash(p: Project, request: Project)
    requires p.id == "proj2"
    ensures CreateProject([p], request).body.project.id == p.id
  {
  }

  lemma CreatePreservesCanonicalIds(store: seq<Project>, request: Project)
    requires CanonicalIds(store)
    ensures CanonicalIds(StoreAfter(store, CreateProject(store, request)))
    ensures DistinctIds(StoreAfter(store, CreateProject(store, request)))
  {
    var after := StoreAfter(store, CreateProject(store, request));
    forall i | 0 <= i < |after|
      ensures after[i].id == ProjId(i + 1)
    {
      if i < |store| {
        assert after[i] == after[..|store|][i];
      }
    }
    CanonicalIdsAreDistinct(after);
  }

  lemma UpdatePreservesCanonicalIds(store: seq<Project>, id: string, fc: Flowchart)
    requires CanonicalIds(store)
    ensures CanonicalIds(StoreAfter(store, UpdateFlowchart(store, id, fc)))
  {
  }

  /** The default data: canonical (hence distinct) ids, and every edge joins
      two nodes of its own flowchart. */
  lemma DefaultProjectsWellFormed()
    ensures CanonicalIds(DefaultProjects)
    ensures DistinctIds(DefaultProjects)
    ensures forall i :: 0 <= i < |DefaultProjects| ==>
      DefaultProjects[i].flowchart.Some? && EdgesConnectNodes(DefaultProjects[i].flowchart.value)
  {
    assert Strings.NatToString(1) == "1";
    assert Strings.NatToString(2) == "2";
    CanonicalIdsAreDistinct(DefaultProjects);
    AlphaConnected();
    BetaConnected();
  }

  lemma AlphaConnected()
    ensures EdgesConnectNodes(DefaultProjects[0].flowchart.value)
  {
    var ns := NodesOf(DefaultProjects[0].flowchart);
    assert ns[0].id == "1" && ns[1].id == "2" && ns[2].id == "3" && ns[3].id == "4";
    assert HasNode(ns, "1") && HasNode(ns, "2") && HasNode(ns, "3") && HasNode(ns, "4");
  }

  lemma BetaConnected()
    ensures EdgesConnectNodes(DefaultProjects[1].flowchart.value)
  {
    var ms := NodesOf(DefaultProjects[1].flowchart);
    assert ms[0].id == "1" && ms[1].id == "2" && ms[2].id == "3";
    assert HasNode(ms, "1") && HasNode(ms, "2") && HasNode(ms, "3");
  }

  /** After a create, looking the new id up finds the created project. */
  lemma CreateThenGet(store: seq<Project>, request: Project)
    requires CanonicalIds(store)
    ensures var r := CreateProject(store, request);
      GetProject(r.saved.value, r.body.project.id) == Reply(200, OneProject(r.body.project), None)
  {
    var r := CreateProject(store, request);
    var after := r.saved.value;
    GeneratedIdIsFresh(store, request);
    forall j | 0 <= j < |store|
      ensures after[j].id != r.body.project.id
    {
      assert after[j] == after[..|store|][j];
    }
    assert IsFirstMatch(after, r.body.project.id, |store|);
  }

  /** After an update of a known id, looking the id up finds the project with
      the new flowchart. */
  lemma UpdateThenGet(store: seq<Project>, id: string, fc: Flowchart)
    requires !NoMatch(store, id)
    ensures exists i :: (IsFirstMatch(store, id, i) &&
      GetProject(StoreAfter(store, UpdateFlowchart(store, id, fc)), id)
        == Reply(200, OneProject(store[i].(flowchart := Some(fc))), None))
  {
    var r := UpdateFlowchart(store, id, fc);
    var i :| IsFirstMatch(store, id, i) && ReplacedFlowchart(store, r.saved.value, i, fc);
    assert IsFirstMatch(r.saved.value, id, i);
  }
}

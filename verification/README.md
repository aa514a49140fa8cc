# NextGenXP project dashboard — Dafny model

NextGenXP is a small project dashboard. A Flask backend keeps a list of
projects. Each project owns one flowchart made of nodes and edges. A React
frontend lists the projects and opens one of them in a flowchart editor.
The editor saves the edited flowchart back with a PUT request.

This project models the logic of the three core files as pure functions over
immutable datatypes:

- **Backend store** (`backend.dfy`, module `Backend`). Each request gets the
  loaded project list as a value (`store`). It returns a `Reply`: the status
  code, the JSON body, and the list it saved (`None` when it saved nothing).
  The module covers:
  - listing all projects, and looking up the first project with a given id
    (404 when there is none);
  - replacing a project's flowchart;
  - creating a project with the generated id `proj<N+1>` and the default
    one-node flowchart;
  - the default data set served while no data file exists.

  The generated id is proved fresh under the invariant that the ids are
  exactly `proj1 .. projN` in order. The default data satisfies this
  invariant and every request keeps it. Without the invariant the id can
  clash, and `GeneratedIdCanClash` shows such a store.
- **Flowchart editor** (`editor.dfy`, module `Editor`). This is the working
  copy of nodes and edges, plus the new-node input and the `hasChanges` flag.
  It covers:
  - adding a node, guarded by JavaScript's `trim()` (`strings.dfy`);
  - deleting the selected nodes and edges, which is a plain filter that does
    not cascade (`seqs.dfy`);
  - serialising to the saved shape, where a missing or empty `type` becomes
    `"default"`;
  - reset, and the Save and Reset buttons, which are disabled while
    `hasChanges` is false.

  The flag is a two-state machine. Only the change effect sets it, and only
  an enabled Reset or the return of a save clears it. A save has two steps.
  The click sends the PUT and leaves the flag set, so Save stays enabled and
  editing goes on while the PUT is pending. When the update callback
  returns, the flag is cleared. The flag clears even when the PUT fails,
  because the application's update callback catches every error and only
  alerts. A failed save therefore leaves the editor looking saved. So does
  an edit made while the PUT was pending.
- **Application shell** (`app.dfy`, module `App`). The state is the project
  list, the selection, the loading flag and the error. It covers:
  - the fetch start and its completion (success, non-ok status, exception);
  - select, back, and the completion of a save;
  - the choice of screen, in the order loading, error, editor, list;
  - the node-count badge.

  No transition resets the error. As a result, once the error screen shows,
  every later non-loading state shows it too, even after a successful retry,
  unless a later failure carries an empty message.
  A successful save that completes after the user went back spreads
  `{...null, flowchart}`. This gives a truthy selection holding only the
  flowchart, so the editor reopens on it once the refetch ends
  (`App.SaveCompletingAfterBack`).
- **Session** (`session.dfy`). This module ties the three together for one
  save. The flag ends clear whatever happens. A failed PUT changes neither
  the application nor the store. After a successful save, reopening, resetting
  or re-fetching the project gives the saved flowchart back, and saving it
  again sends the same body.

Network calls, the clock and the random source are parameters. A fetch
takes a `FetchOutcome` and a PUT takes a `Transport` or `SaveOutcome`. The
node id comes from a clock reading `stamp`, and the node position is a
`Position` parameter. File reads and writes are the `store` value and the
`saved` field of a reply.

## Model

| member | source | states |
|---|---|---|
| Strings.NatToString | backend/app.py:102 | the decimal rendering used for generated ids: digits only, one digit exactly below ten, no leading zero |
| Strings.ParseNatToString | backend/app.py:102 | reading the rendered digits back yields the number (round trip) |
| Strings.NatToStringInjective | backend/app.py:101-102 | two numbers render alike exactly when they are equal |
| Strings.TrimStart | nextgenxp-frontend/src/components/ProjectFlowchart.jsx:34 | the result is a suffix, everything dropped is whitespace, and the result does not start with whitespace |
| Strings.TrimEnd | nextgenxp-frontend/src/components/ProjectFlowchart.jsx:34 | the result is a prefix, everything dropped is whitespace, and the result does not end with whitespace |
| Strings.Trim | nextgenxp-frontend/src/components/ProjectFlowchart.jsx:34 | the result is a contiguous piece of the label with only whitespace outside it and no whitespace at either of its ends |
| Strings.TrimEmptyIffBlank | nextgenxp-frontend/src/components/ProjectFlowchart.jsx:34 | the trimmed label is empty exactly when every character is whitespace |
| Seqs.Filter | nextgenxp-frontend/src/components/ProjectFlowchart.jsx:48-49 | keeps exactly the elements that pass the test, never grows, and returns the input when all pass |
| Seqs.FilterAppend | nextgenxp-frontend/src/components/ProjectFlowchart.jsx:48-49 | filtering a concatenation concatenates the filtered parts, so the original order is kept |
| Seqs.FilterIdempotent | nextgenxp-frontend/src/components/ProjectFlowchart.jsx:48-49 | filtering twice equals filtering once |
| Backend.FindProject | backend/app.py:74 | gives the first index whose id matches, or none when no project has that id |
| Backend.GetProjects | backend/app.py:64-68 | status 200, the stored list unchanged as the body, nothing saved |
| Backend.GetProject | backend/app.py:70-78 | 404 with the not-found message exactly when no id matches, otherwise 200 with the first matching project; nothing saved |
| Backend.UpdateFlowchart | backend/app.py:80-93 | unknown id: 404 and nothing saved; known id: 200 and the saved list differs from the old one only in the flowchart of the first match, with count, order and other fields kept |
| Backend.CreateProject | backend/app.py:95-115 | status 201; the list grows by one at the end with earlier projects kept; the id is `proj` followed by the old count plus one, whatever the client sent; name and description are stored as posted, missing ones included; a missing flowchart becomes the one-node default and a supplied one is kept |
| Backend.ProjId | backend/app.py:102 | the generated id is `proj` followed by the count in decimal digits, with no leading zero, that read back as the count |
| Backend.ProjIdInjective | backend/app.py:102 | generated ids for different counts differ |
| Backend.CanonicalIdsAreDistinct | backend/app.py:101-102 | a store whose ids are proj1..projN in order has distinct ids |
| Backend.GeneratedIdIsFresh | backend/app.py:101-103 | under that invariant no stored project already has the generated id |
| Backend.GeneratedIdCanClash | backend/app.py:101-102 | without the invariant the generated id can equal a stored one |
| Backend.CreatePreservesCanonicalIds | backend/app.py:101-112 | creating a project keeps the ids proj1..projN in order, so they stay distinct |
| Backend.UpdatePreservesCanonicalIds | backend/app.py:84-91 | updating a flowchart keeps the ids proj1..projN in order |
| Backend.DefaultProjectsWellFormed | backend/app.py:19-57 | the default data has ids proj1, proj2, distinct ids, and every edge joins two nodes of its own flowchart |
| Backend.CreateThenGet | backend/app.py:95-115 | looking up the generated id right after a create returns the created project |
| Backend.UpdateThenGet | backend/app.py:84-91 | looking up a known id after an update returns the first match carrying the new flowchart |
| Editor.Open | nextgenxp-frontend/src/components/ProjectFlowchart.jsx:18-21 | the editor opens with the project's node and edge lists (empty when the flowchart or a list is missing), an empty input and the flag clear |
| Editor.TypeLabel | nextgenxp-frontend/src/components/ProjectFlowchart.jsx:103 | typing replaces the input text and changes nothing else |
| Editor.NewNodeId | nextgenxp-frontend/src/components/ProjectFlowchart.jsx:37 | a new node's id is `node_` followed by the clock reading in decimal digits, with no leading zero, that read back as the reading |
| Editor.AddNewNode | nextgenxp-frontend/src/components/ProjectFlowchart.jsx:33-45 | a blank label changes nothing; otherwise exactly one node is appended with the untrimmed label, type "default", the given id stamp and position; earlier nodes are kept and the input is cleared |
| Editor.DeleteSelected | nextgenxp-frontend/src/components/ProjectFlowchart.jsx:47-50 | the remaining nodes and edges are exactly the unselected ones; the label and flag are unchanged |
| Editor.DeleteSelectedIdempotent | nextgenxp-frontend/src/components/ProjectFlowchart.jsx:47-50 | deleting twice equals deleting once |
| Editor.DeleteSelectedKeepsOrder | nextgenxp-frontend/src/components/ProjectFlowchart.jsx:48-49 | survivors keep their relative order, since deletion distributes over concatenation |
| Editor.DeletionLeavesDanglingEdge | nextgenxp-frontend/src/components/ProjectFlowchart.jsx:48-49 | deleting a selected node keeps an unselected edge that points at it, so no cascade happens |
| Editor.TypeOrDefault | nextgenxp-frontend/src/components/ProjectFlowchart.jsx:58 | a truthy type is kept; a missing or empty one becomes "default"; the result is never empty |
| Editor.SerializeNode | nextgenxp-frontend/src/components/ProjectFlowchart.jsx:54-59 | keeps id, data and position; keeps a non-empty type and turns a missing or empty one into "default"; drops the widget state; a node is unchanged exactly when it is already in saved form |
| Editor.SerializeEdge | nextgenxp-frontend/src/components/ProjectFlowchart.jsx:60-65 | keeps id, source and target; keeps a non-empty type and turns a missing or empty one into "default"; drops the widget state; an edge is unchanged exactly when it is already in saved form |
| Editor.Serialize | nextgenxp-frontend/src/components/ProjectFlowchart.jsx:53-66 | both lists present, same lengths, each element serialised in place |
| Editor.SerializePreservesContent | nextgenxp-frontend/src/components/ProjectFlowchart.jsx:53-66 | count, order, ids, labels, positions and connections are preserved; every saved type is the original when non-empty and "default" otherwise |
| Editor.SerializeIdempotent | nextgenxp-frontend/src/components/ProjectFlowchart.jsx:53-66 | loading a saved flowchart and saving it again gives the same body |
| Editor.SaveEnabled | nextgenxp-frontend/src/components/ProjectFlowchart.jsx:126 | Save is enabled exactly while there are changes |
| Editor.ResetEnabled | nextgenxp-frontend/src/components/ProjectFlowchart.jsx:136 | Reset is enabled exactly while there are changes |
| Editor.ClickSave | nextgenxp-frontend/src/components/ProjectFlowchart.jsx:52-68 | while Save is disabled nothing happens and no PUT is sent; otherwise the serialised working copy is sent for the project; either way the editor state, flag included, is unchanged while the PUT is pending |
| Editor.SaveReturned | nextgenxp-frontend/src/components/ProjectFlowchart.jsx:68-69 | when the update callback returns, the flag is cleared and the working copy and input are kept |
| Editor.SecondClickWhilePendingSendsAgain | nextgenxp-frontend/src/components/ProjectFlowchart.jsx:52-68 | a second click while the first PUT is pending sends the same body again |
| Editor.Reset | nextgenxp-frontend/src/components/ProjectFlowchart.jsx:72-76 | nodes and edges become the project's lists, or empty when missing, and the flag is cleared |
| Editor.ResetMatchesOpen | nextgenxp-frontend/src/components/ProjectFlowchart.jsx:72-76 | reset gives back the working copy the editor opened with, keeping only the input text |
| Editor.ClickReset | nextgenxp-frontend/src/components/ProjectFlowchart.jsx:132-138 | a disabled Reset does nothing; an enabled one resets |
| Editor.MarkChanged | nextgenxp-frontend/src/components/ProjectFlowchart.jsx:24-26 | the change effect sets the flag and changes nothing else |
| Editor.Step | nextgenxp-frontend/src/components/ProjectFlowchart.jsx:21-76 | only the change effect sets the flag; only the return of a save or an enabled Reset clears it; a Save click changes no editor state; only add, delete and reset touch nodes or edges |
| Editor.ChangesPersistUntilSaveOrReset | nextgenxp-frontend/src/components/ProjectFlowchart.jsx:24-26 | once set, the flag stays set through any actions in which no save returns and no Reset happens |
| Editor.CleanStaysCleanWithoutChangeEffect | nextgenxp-frontend/src/components/ProjectFlowchart.jsx:21-26 | a clear flag stays clear through any actions that contain no change effect |
| Editor.EditWhileSavePendingShowsSaved | nextgenxp-frontend/src/components/ProjectFlowchart.jsx:68-69 | a node added while the PUT is pending is not in the body sent, yet the save's return leaves the flag clear |
| App.FetchStart | nextgenxp-frontend/src/App.jsx:19-22 | the loading flag is raised and nothing else changes |
| App.FetchDone | nextgenxp-frontend/src/App.jsx:19-33 | success replaces the projects; a non-ok status records the load-error message; an exception records its own message; on failure the projects are kept; loading ends either way and the selection is kept |
| App.Select | nextgenxp-frontend/src/App.jsx:35-37 | the selection becomes the given project and nothing else changes |
| App.Back | nextgenxp-frontend/src/App.jsx:39-42 | the selection is cleared and a refetch starts; projects and error are kept |
| App.WithFlowchart | nextgenxp-frontend/src/App.jsx:59-62 | the selected project gets the new flowchart with its other fields kept; spreading a null selection yields a truthy flowchart-only record |
| App.FlowchartSaved | nextgenxp-frontend/src/App.jsx:44-67 | a failed save changes nothing; a successful one replaces only the selected project's flowchart |
| App.Render | nextgenxp-frontend/src/App.jsx:69-92 | the loading screen exactly while loading, then the error screen exactly when a non-empty error is set, then the editor exactly when something is selected, else the list |
| App.NodeCountBadge | nextgenxp-frontend/src/App.jsx:149 | the badge is the number of nodes, and 0 when the flowchart or its node list is missing |
| App.Apply | nextgenxp-frontend/src/App.jsx:12-67 | no event resets the error to null; a shown error stays shown unless a failure carries an empty message; a finished fetch ends loading |
| App.ErrorNeverCleared | nextgenxp-frontend/src/App.jsx:28-30 | after any events, an error that was set is still set |
| App.ErrorScreenSticks | nextgenxp-frontend/src/App.jsx:80-90 | once shown, the error screen is the screen of every later non-loading state, successful retries included, when no failure message is empty |
| App.FirstLoad | nextgenxp-frontend/src/App.jsx:9-33 | the first screen is the loading screen; after the mount-time fetch a fetched list shows as the list, a non-ok status as the load error, and an exception as its message unless the message is empty |
| App.SaveCompletingAfterBack | nextgenxp-frontend/src/App.jsx:39-62 | a save that succeeds after Back reopens the editor on a flowchart-only record once the refetch completes; a failed one leaves the list |
| Session.OutcomeOf | nextgenxp-frontend/src/App.jsx:54 | the save counts as successful exactly for a 2xx status, so for this backend exactly for 200 and 201 |
| Session.SaveFlow | nextgenxp-frontend/src/components/ProjectFlowchart.jsx:52-70 | with nothing else happening until the callback returns: the flag ends clear whatever the PUT's fate, and the working copy is kept; an unreachable server or unknown id leaves the app and the store alone; success updates the first matching stored project and the selection |
| Session.SaveThenReopen | nextgenxp-frontend/src/components/ProjectFlowchart.jsx:72-76 | after a successful save, Reset and a fresh editor both give the saved flowchart, and saving it again sends the same body |
| Session.SaveThenFetchFromServer | backend/app.py:80-93 | after a successful save, the backend serves the project with the saved flowchart, and reopening it saves the same body |
| Session.BadgeMatchesEditor | nextgenxp-frontend/src/App.jsx:149 | the badge equals the number of nodes the editor opens with |

## Left out

- File I/O (`load_data` and `save_data` on the data file) is left out: the loaded list is the `store` parameter and a write is the `saved` field of a reply. Flask routing, CORS, JSON encoding, the health endpoint and server start-up are left out too.
- Backend.CreateProject: a request whose `flowchart` field is present but null keeps that null in the source. The model has no distinction between null and missing, so it installs the default flowchart. Keys other than `id`, `name`, `description` and `flowchart` are stored and echoed by the source, but the model's project record has no room for them, so it drops them. Request bodies that are not JSON objects, which fail with a server error, are not modelled either.
- Backend.UpdateFlowchart: the source stores the request body exactly as sent, including `null` and objects with keys other than `nodes` and `edges`. The model's `Flowchart` record holds only the two lists, so it cannot carry those bodies. The editor only ever sends serialised flowcharts, so nothing else in the model depends on them.
- Stored ids are compared as strings. Ids of other JSON types (numbers from a hand-edited data file) are not modelled.
- Network calls are outcome parameters (`FetchOutcome`, `SaveOutcome`, `Transport`). The `alert` and `console.error` calls on a failed save have no state effect and are left out.
- `Date.now()` and `Math.random()` are the `stamp` and `position` parameters of `Editor.AddNewNode`. The source draws each coordinate from [0, 400), which the model does not constrain. JavaScript numbers are modelled as `real`.
- The diagram widget's own behaviour is left out: dragging, selecting (`onNodesChange`, `onEdgesChange`) and connecting (`onConnect` with `addEdge`). The `selected` flags are inputs to deletion. `selected` stands for all the per-node widget state that serialisation drops.
- React effect scheduling is left out. The change effect is the explicit `MarkChanged` step. In the application it also runs on mount and after a reset that installs a different list, which can set the flag again. No claim is made that the editor is clean after a reset end to end.
- Editor.Step: the claim that only the change effect sets the flag is stated per modelled action. It relies on the effect being a separate step and says nothing about when React runs it.
- The interleaving of asynchronous completions appears only as orders of events. The editor's Save click and the return of its update callback are separate actions. `Editor.EditWhileSavePendingShowsSaved` and `App.SaveCompletingAfterBack` show such orders. `Session.SaveFlow` covers only a save with nothing in between. Nothing about timing is modelled.
- A thrown value without a `message` (an `undefined` error) is not modelled. Every failure carries a string.
- JavaScript strings are UTF-16 code units, but Dafny characters are Unicode scalar values, so lone surrogates are not modelled. `IsWhitespace` lists the ECMAScript WhiteSpace and LineTerminator characters of current Unicode.
- JSX markup, styling and text are left out. Only the choice of screen and the badge number are modelled.

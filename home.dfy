/** The workspace state of app/page.tsx (`Home`): the project list, the
    current project, the workspace and loading flags, and the toast list.
    Every handler is one sequential step; the replies of the network calls
    (the generation, the save, the delete, the initial listing) are
    parameters, and so are the toast ids the page draws at random and the
    formatted time of day. */
module Home {
  import opened Wrappers
  import opened Gemini
  import Sidebar

  datatype Project = Project(
    id: string,
    title: string,
    date: string,
    files: seq<GeneratedFile>,
    lastPrompt: string,
    chatHistory: Option<seq<ChatMessage>>)

  datatype ToastKind = SuccessToast | ErrorToast | InfoToast

  datatype Toast = Toast(id: string, message: string, kind: ToastKind)

  /** The body sent to the store when a generation is saved. */
  datatype ProjectData = ProjectData(
    title: string,
    date: string,
    files: seq<GeneratedFile>,
    lastPrompt: string,
    chatHistory: seq<ChatMessage>)

  /** The save request: PATCH of the current project, or POST of a new one. */
  datatype SaveRequest = Patch(id: string, body: ProjectData) | Post(body: ProjectData)

  /** How the save call ended: an ok response with the stored project, a
      non-ok response, or an exception with its message. */
  datatype SaveReply = Saved(project: Project) | SaveRejected | SaveThrew(message: string)

  datatype DeleteReply = Deleted | DeleteRejected | DeleteThrew

  datatype ListReply = Listed(data: seq<Project>) | ListRejected | ListThrew

  const GeneratedMessage: string := "Project generated successfully!"
  const SaveFailedMessage: string := "Failed to save project"
  const GenerateFailedMessage: string := "Failed to generate project. Please try again."
  const NewWorkspaceMessage: string := "Started new workspace"
  const DeletedMessage: string := "Project deleted"
  const DeleteFailedMessage: string := "Failed to delete project"
  const ClearedMessage: string := "History cleared in UI"
  const ConnectFailedMessage: string := "Failed to connect to server"

  // ---------------------------------------------------------------------
  // Finding the current project

  /** The position of the first project with the id, or |ps| when there is none. */
  function FirstIndex(ps: seq<Project>, id: string): (i: nat)
    ensures i <= |ps|
    ensures forall j :: 0 <= j < i ==> ps[j].id != id
    ensures i < |ps| ==> ps[i].id == id
  {
    if ps == [] then 0
    else if ps[0].id == id then 0
    else 1 + FirstIndex(ps[1..], id)
  }

  /** `projects.find(p => p.id === currentProjectId)`: a null id matches no
      project. */
  function FindProject(ps: seq<Project>, id: Option<string>): (r: Option<Project>)
    ensures r.Some? ==> id.Some? && r.value in ps && r.value.id == id.value
    ensures r.None? <==> id.None? || forall p :: p in ps ==> p.id != id.value
    ensures r.Some? ==> r.value == ps[FirstIndex(ps, id.value)]
  {
    if id.None? || FirstIndex(ps, id.value) == |ps| then None
    else Some(ps[FirstIndex(ps, id.value)])
  }

  // ---------------------------------------------------------------------
  // Titles and history

  /** `message.slice(0, 30) + (message.length > 30 ? '...' : '')`. */
  function NewTitle(message: string): string {
    (if |message| <= 30 then message else message[..30]) + (if |message| > 30 then "..." else "")
  }

  /** The page derives a new project's title by the same rule the sidebar
      uses to shorten titles, so the sidebar shows that title unchanged. */
  lemma NewTitleIsDisplayTitle(message: string)
    ensures NewTitle(message) == Sidebar.DisplayTitle(message)
    ensures Sidebar.DisplayTitle(NewTitle(message)) == NewTitle(message)
  {
    Sidebar.DisplayTitleStable(message);
  }

  /** An existing project keeps its title; otherwise it is derived from the message. */
  function DerivedTitle(current: Option<Project>, message: string): string {
    if current.Some? then current.value.title else NewTitle(message)
  }

  /** The history after a generation: the old one, the user's message, then
      the model's description. */
  function NewHistory(history: seq<ChatMessage>, message: string, description: string): seq<ChatMessage> {
    history + [ChatMessage("user", message), ChatMessage("model", description)]
  }

  /** The next request built from the new history carries the last exchange
      as one user turn and one model turn, just before the new prompt. */
  lemma NextRequestCarriesExchange(history: seq<ChatMessage>, message: string, description: string, next: string)
    ensures var c := RequestContents(next, NewHistory(history, message, description));
      |c| == |history| + 3
      && c[..|history|] == FormatHistory(history)
      && c[|history|] == Content("user", [Part(message)])
      && c[|history| + 1] == Content("model", [Part(description)])
  {
    var h := NewHistory(history, message, description);
    var c := RequestContents(next, h);
    assert c[..|h|] == FormatHistory(h);
    forall i | 0 <= i < |history|
      ensures c[i] == FormatHistory(history)[i]
    {
      assert c[i] == FormatHistory(h)[i] == FormatMessage(h[i]);
      assert h[i] == history[i];
    }
    assert c[|history|] == FormatHistory(h)[|history|];
    assert c[|history| + 1] == FormatHistory(h)[|history| + 1];
  }

  // ---------------------------------------------------------------------
  // List updates

  /** `prev.map(p => p.id === id ? saved : p)`. */
  function ReplaceById(ps: seq<Project>, id: string, saved: Project): (r: seq<Project>)
    ensures |r| == |ps|
  {
    seq(|ps|, i requires 0 <= i < |ps| => if ps[i].id == id then saved else ps[i])
  }

  /** Replacing puts the saved project at every position that held the id
      and leaves every other project where it was; a stored project with
      the same id is then the one the page finds; an id no project has
      changes nothing. */
  lemma ReplaceThenFind(ps: seq<Project>, id: string, saved: Project)
    ensures forall i :: 0 <= i < |ps| && ps[i].id == id ==> ReplaceById(ps, id, saved)[i] == saved
    ensures forall i :: 0 <= i < |ps| && ps[i].id != id ==> ReplaceById(ps, id, saved)[i] == ps[i]
    ensures (exists p :: p in ps && p.id == id) && saved.id == id ==>
      FindProject(ReplaceById(ps, id, saved), Some(id)) == Some(saved)
    ensures (forall p :: p in ps ==> p.id != id) ==> ReplaceById(ps, id, saved) == ps
  {
    var r := ReplaceById(ps, id, saved);
    if (exists p :: p in ps && p.id == id) && saved.id == id {
      var i := FirstIndex(ps, id);
      var k := FirstIndex(r, id);
      assert i < |ps|;
      assert r[i] == saved;
      assert k == i;
    }
  }

  /** `prev.filter(p => p.id !== id)`. */
  function RemoveById(ps: seq<Project>, id: string): (r: seq<Project>)
    ensures |r| <= |ps|
    ensures forall p :: p in r <==> p in ps && p.id != id
  {
    if ps == [] then []
    else if ps[0].id == id then RemoveById(ps[1..], id)
    else [ps[0]] + RemoveById(ps[1..], id)
  }

  /** Removal keeps the order of what remains: it distributes over concatenation. */
  lemma {:induction false} RemoveByIdAppend(a: seq<Project>, b: seq<Project>, id: string)
    ensures RemoveById(a + b, id) == RemoveById(a, id) + RemoveById(b, id)
  {
    if a != [] {
      assert (a + b)[1..] == a[1..] + b;
      RemoveByIdAppend(a[1..], b, id);
    } else {
      assert a + b == b;
    }
  }

  /** A list without the id is left as it is; so removal is idempotent. */
  lemma {:induction false} RemoveByIdAbsent(ps: seq<Project>, id: string)
    requires forall p :: p in ps ==> p.id != id
    ensures RemoveById(ps, id) == ps
  {
    if ps != [] {
      assert ps[0] in ps;
      assert forall p :: p in ps[1..] ==> p in ps;
      RemoveByIdAbsent(ps[1..], id);
    }
  }

  /** `prev.filter(t => t.id !== id)`. */
  function WithoutToast(ts: seq<Toast>, id: string): (r: seq<Toast>)
    ensures |r| <= |ts|
    ensures forall t :: t in r <==> t in ts && t.id != id
  {
    if ts == [] then []
    else if ts[0].id == id then WithoutToast(ts[1..], id)
    else [ts[0]] + WithoutToast(ts[1..], id)
  }

  /** Every toast with another id keeps its multiplicity; those with the id
      are all gone. */
  lemma {:induction false} WithoutToastCount(ts: seq<Toast>, id: string, t: Toast)
    ensures multiset(WithoutToast(ts, id))[t] == if t.id != id then multiset(ts)[t] else 0
  {
    if ts != [] {
      WithoutToastCount(ts[1..], id, t);
      assert ts == [ts[0]] + ts[1..];
    }
  }

  /** Toast removal keeps the order of the remaining toasts: it distributes
      over concatenation. */
  lemma {:induction false} WithoutToastAppend(a: seq<Toast>, b: seq<Toast>, id: string)
    ensures WithoutToast(a + b, id) == WithoutToast(a, id) + WithoutToast(b, id)
  {
    if a != [] {
      assert (a + b)[1..] == a[1..] + b;
      WithoutToastAppend(a[1..], b, id);
    } else {
      assert a + b == b;
    }
  }

  /** Removing a toast whose id was fresh when it was added gives back the
      list as it was before. */
  lemma {:induction false} AddThenRemoveToast(ts: seq<Toast>, t: Toast)
    requires forall u :: u in ts ==> u.id != t.id
    ensures WithoutToast(ts + [t], t.id) == ts
  {
    if ts == [] {
      assert WithoutToast([t], t.id) == WithoutToast([t][1..], t.id) == [];
    } else {
      assert (ts + [t])[1..] == ts[1..] + [t];
      assert ts[0] in ts;
      assert forall u :: u in ts[1..] ==> u in ts;
      AddThenRemoveToast(ts[1..], t);
      assert ts == [ts[0]] + ts[1..];
    }
  }

  /** The message of a failure toast: `error.message || default`. */
  function FailureText(message: string): string {
    OrElse(Some(message), GenerateFailedMessage)
  }

  /** The project list, current id and toasts once the save call of
      `handleSendMessage` has answered: a stored project replaces the
      projects with a truthy current id, or is prepended and becomes the
      current project; any other reply adds one error toast and changes
      nothing else. */
  function AfterSave(ps: seq<Project>, current: Option<string>, ts: seq<Toast>, reply: SaveReply, toastId: string)
    : (r: (seq<Project>, Option<string>, seq<Toast>))
    ensures reply.Saved? ==> r.2 == ts + [Toast(toastId, GeneratedMessage, SuccessToast)]
    ensures reply.Saved? && Truthy(current) ==>
      r.0 == ReplaceById(ps, current.value, reply.project) && r.1 == current
    ensures reply.Saved? && !Truthy(current) ==>
      r.0 == [reply.project] + ps && r.1 == Some(reply.project.id) && FindProject(r.0, r.1) == Some(reply.project)
    ensures !reply.Saved? ==> r.0 == ps && r.1 == current
    ensures reply.SaveRejected? ==> r.2 == ts + [Toast(toastId, SaveFailedMessage, ErrorToast)]
    ensures reply.SaveThrew? ==> r.2 == ts + [Toast(toastId, FailureText(reply.message), ErrorToast)]
  {
    match reply
    case Saved(saved) =>
      var toasts := ts + [Toast(toastId, GeneratedMessage, SuccessToast)];
      if Truthy(current) then (ReplaceById(ps, current.value, saved), current, toasts)
      else
        assert FirstIndex([saved] + ps, saved.id) == 0;
        ([saved] + ps, Some(saved.id), toasts)
    case SaveRejected => (ps, current, ts + [Toast(toastId, SaveFailedMessage, ErrorToast)])
    case SaveThrew(m) => (ps, current, ts + [Toast(toastId, FailureText(m), ErrorToast)])
  }

  class HomeState {
    var isLoading: bool
    var isProjectsLoading: bool
    var projects: seq<Project>
    var currentProjectId: Option<string>
    var showWorkspace: bool
    var isSidebarOpen: bool
    var toasts: seq<Toast>

    /** The initial state of the page. */
    constructor ()
      ensures !isLoading && isProjectsLoading && projects == [] && currentProjectId == None
      ensures !showWorkspace && !isSidebarOpen && toasts == []
    {
      isLoading, isProjectsLoading := false, true;
      projects, currentProjectId := [], None;
      showWorkspace, isSidebarOpen := false, false;
      toasts := [];
    }

    function CurrentProject(): Option<Project>
      reads this
    {
      FindProject(projects, currentProjectId)
    }

    /** `currentProject?.files || []`: the current project's files, none without one. */
    function Files(): (r: seq<GeneratedFile>)
      reads this
      ensures CurrentProject().Some? ==> r == CurrentProject().value.files
      ensures CurrentProject().None? ==> r == []
    {
      match CurrentProject()
      case Some(p) => p.files
      case None => []
    }

    /** `currentProject?.chatHistory || []`. */
    function History(): (r: seq<ChatMessage>)
      reads this
      ensures CurrentProject().Some? && CurrentProject().value.chatHistory.Some? ==> r == CurrentProject().value.chatHistory.value
      ensures CurrentProject().None? || CurrentProject().value.chatHistory.None? ==> r == []
    {
      match CurrentProject()
      case Some(p) => p.chatHistory.GetOr([])
      case None => []
    }

    /** `handleRegenerate`: the prompt sent again, if the current project has
        a non-empty last prompt. */
    function RegeneratePrompt(): (r: Option<string>)
      reads this
      ensures r.Some? <==> CurrentProject().Some? && CurrentProject().value.lastPrompt != ""
      ensures r.Some? ==> r.value == CurrentProject().value.lastPrompt
    {
      match CurrentProject()
      case Some(p) => if p.lastPrompt != "" then Some(p.lastPrompt) else None
      case None => None
    }

    /** `addToast`: exactly one toast is appended. */
    method AddToast(message: string, kind: ToastKind, id: string)
      modifies this`toasts
      ensures toasts == old(toasts) + [Toast(id, message, kind)]
    {
      toasts := toasts + [Toast(id, message, kind)];
    }

    /** `removeToast`: exactly the toasts with the id go, the rest keep their order. */
    method RemoveToast(id: string)
      modifies this`toasts
      ensures toasts == WithoutToast(old(toasts), id)
    {
      toasts := WithoutToast(toasts, id);
    }

    /** The end of `handleSendMessage` once the save call has answered. */
    method RecordSave(reply: SaveReply, toastId: string)
      modifies this`projects, this`currentProjectId, this`toasts
      ensures (projects, currentProjectId, toasts) == AfterSave(old(projects), old(currentProjectId), old(toasts), reply, toastId)
    {
      match reply {
        case Saved(saved) =>
          if Truthy(currentProjectId) {
            projects := ReplaceById(projects, currentProjectId.value, saved);
          } else {
            projects := [saved] + projects;
            currentProjectId := Some(saved.id);
          }
          AddToast(GeneratedMessage, SuccessToast, toastId);
        case SaveRejected =>
          AddToast(SaveFailedMessage, ErrorToast, toastId);
        case SaveThrew(m) =>
          AddToast(FailureText(m), ErrorToast, toastId);
      }
    }

    /** `handleSendMessage`. The Gemini request is built from the current
        project's history; after a generation, PATCH is chosen for a truthy
        current id and POST otherwise; the stored project replaces the
        projects with the current id, or is prepended and made current. Any
        failure leaves the projects and the current id alone and adds one
        error toast; loading always ends. */
    method SendMessage(message: string, date: string, sdkReply: SdkReply,
                       parse: string -> Option<GenerationResult>, saveReply: SaveReply, toastId: string)
      returns (llmRequest: Request, sent: Option<SaveRequest>)
      modifies this
      ensures llmRequest == BuildRequest(message, old(History()))
      ensures !isLoading && showWorkspace
      ensures isProjectsLoading == old(isProjectsLoading) && isSidebarOpen == old(isSidebarOpen)
      ensures var gen := GenerateCode(sdkReply, parse);
        gen.Failure? ==>
          sent.None? && projects == old(projects) && currentProjectId == old(currentProjectId)
          && toasts == old(toasts) + [Toast(toastId, FailureText(gen.error), ErrorToast)]
      ensures var gen := GenerateCode(sdkReply, parse);
        gen.Success? ==>
          var data := ProjectData(DerivedTitle(old(CurrentProject()), message), date, gen.value.files, message,
                                  NewHistory(old(History()), message, gen.value.description));
          sent == Some(if Truthy(old(currentProjectId)) then Patch(old(currentProjectId).value, data) else Post(data))
      ensures var gen := GenerateCode(sdkReply, parse);
        gen.Success? ==>
          (projects, currentProjectId, toasts) == AfterSave(old(projects), old(currentProjectId), old(toasts), saveReply, toastId)
    {
      var history := History();
      var project := CurrentProject();
      isLoading := true;
      showWorkspace := true;
      llmRequest := BuildRequest(message, history);
      sent := None;
      var gen := GenerateCode(sdkReply, parse);
      if gen.Failure? {
        AddToast(FailureText(gen.error), ErrorToast, toastId);
      } else {
        var data := ProjectData(DerivedTitle(project, message), date, gen.value.files, message,
                                NewHistory(history, message, gen.value.description));
        sent := Some(if Truthy(currentProjectId) then Patch(currentProjectId.value, data) else Post(data));
        RecordSave(saveReply, toastId);
      }
      isLoading := false;
    }

    /** `handleNewProject`. */
    method NewProject(toastId: string)
      modifies this
      ensures currentProjectId == None && CurrentProject() == None && Files() == [] && showWorkspace
      ensures projects == old(projects) && toasts == old(toasts) + [Toast(toastId, NewWorkspaceMessage, SuccessToast)]
      ensures isLoading == old(isLoading) && isProjectsLoading == old(isProjectsLoading)
      ensures isSidebarOpen == old(isSidebarOpen)
    {
      currentProjectId := None;
      showWorkspace := true;
      AddToast(NewWorkspaceMessage, SuccessToast, toastId);
    }

    /** `handleDeleteProject`: on an ok response every project with the id
        goes; a deleted current project is replaced by the first remaining
        one, or by none with the workspace hidden. A non-ok response changes
        nothing; an exception only adds an error toast. */
    method DeleteProject(id: string, reply: DeleteReply, toastId: string)
      modifies this
      ensures reply.Deleted? ==>
        projects == RemoveById(old(projects), id)
        && FindProject(projects, Some(id)) == None
        && currentProjectId != Some(id)
        && toasts == old(toasts) + [Toast(toastId, DeletedMessage, SuccessToast)]
      ensures reply.Deleted? && old(currentProjectId) != Some(id) ==>
        currentProjectId == old(currentProjectId) && showWorkspace == old(showWorkspace)
      ensures reply.Deleted? && old(currentProjectId) == Some(id) && projects != [] ==>
        currentProjectId == Some(projects[0].id) && showWorkspace == old(showWorkspace)
      ensures reply.Deleted? && old(currentProjectId) == Some(id) && projects == [] ==>
        currentProjectId == None && !showWorkspace
      ensures !reply.Deleted? ==>
        projects == old(projects) && currentProjectId == old(currentProjectId) && showWorkspace == old(showWorkspace)
      ensures reply.DeleteRejected? ==> toasts == old(toasts)
      ensures reply.DeleteThrew? ==> toasts == old(toasts) + [Toast(toastId, DeleteFailedMessage, ErrorToast)]
      ensures isLoading == old(isLoading) && isProjectsLoading == old(isProjectsLoading)
      ensures isSidebarOpen == old(isSidebarOpen)
    {
      match reply {
        case Deleted =>
          var remaining := RemoveById(projects, id);
          projects := remaining;
          if currentProjectId == Some(id) {
            if |remaining| > 0 {
              assert remaining[0] in remaining;
              currentProjectId := Some(remaining[0].id);
            } else {
              currentProjectId := None;
              showWorkspace := false;
            }
          }
          AddToast(DeletedMessage, SuccessToast, toastId);
        case DeleteRejected =>
        case DeleteThrew =>
          AddToast(DeleteFailedMessage, ErrorToast, toastId);
      }
    }

    /** `handleClearHistory`. */
    method ClearHistory(toastId: string)
      modifies this
      ensures projects == [] && currentProjectId == None && !showWorkspace && Files() == []
      ensures toasts == old(toasts) + [Toast(toastId, ClearedMessage, SuccessToast)]
      ensures isLoading == old(isLoading) && isProjectsLoading == old(isProjectsLoading)
      ensures isSidebarOpen == old(isSidebarOpen)
    {
      projects := [];
      currentProjectId := None;
      showWorkspace := false;
      AddToast(ClearedMessage, SuccessToast, toastId);
    }

    /** `handleHome`. */
    method GoHome()
      modifies this
      ensures currentProjectId == None && !showWorkspace && !isSidebarOpen
      ensures projects == old(projects) && toasts == old(toasts)
      ensures isLoading == old(isLoading) && isProjectsLoading == old(isProjectsLoading)
    {
      currentProjectId := None;
      showWorkspace := false;
      isSidebarOpen := false;
    }

    /** `onSelectProject`. */
    method SelectProject(id: string)
      modifies this
      ensures currentProjectId == Some(id) && showWorkspace
      ensures projects == old(projects) && toasts == old(toasts) && isSidebarOpen == old(isSidebarOpen)
      ensures isLoading == old(isLoading) && isProjectsLoading == old(isProjectsLoading)
    {
      currentProjectId := Some(id);
      showWorkspace := true;
    }

    /** The mount effect `fetchProjects`: an ok listing replaces the projects
        and opens the first one; an exception adds one error toast; loading
        of the list always ends. */
    method LoadProjects(reply: ListReply, toastId: string)
      modifies this
      ensures !isProjectsLoading
      ensures reply.Listed? ==> projects == reply.data && toasts == old(toasts)
      ensures reply.Listed? && reply.data != [] ==>
        currentProjectId == Some(reply.data[0].id) && showWorkspace && CurrentProject() == Some(reply.data[0])
      ensures reply.Listed? && reply.data == [] ==>
        currentProjectId == old(currentProjectId) && showWorkspace == old(showWorkspace)
      ensures !reply.Listed? ==>
        projects == old(projects) && currentProjectId == old(currentProjectId) && showWorkspace == old(showWorkspace)
      ensures reply.ListRejected? ==> toasts == old(toasts)
      ensures reply.ListThrew? ==> toasts == old(toasts) + [Toast(toastId, ConnectFailedMessage, ErrorToast)]
      ensures isLoading == old(isLoading) && isSidebarOpen == old(isSidebarOpen)
    {
      isProjectsLoading := true;
      match reply {
        case Listed(data) =>
          projects := data;
          if |data| > 0 {
            currentProjectId := Some(data[0].id);
            showWorkspace := true;
            assert FirstIndex(projects, data[0].id) == 0;
          }
        case ListRejected =>
        case ListThrew =>
          AddToast(ConnectFailedMessage, ErrorToast, toastId);
      }
      isProjectsLoading := false;
    }
  }
}

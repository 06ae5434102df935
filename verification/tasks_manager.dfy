/**
  `TasksManager` from src/components/dashboard/TasksManager.tsx: the badge
  tables for priority and status, the status label, the state the component
  keeps (`tasks`, `loading`) with the update `fetchTasks` makes, and what it
  renders from that state.
 */
module TasksManager {
  import opened Text
  import opened Host

  const Red := "bg-red-200 text-red-800"
  const Yellow := "bg-yellow-200 text-yellow-800"
  const Green := "bg-green-200 text-green-800"
  const Blue := "bg-blue-200 text-blue-800"
  const Gray := "bg-gray-200 text-gray-800"

  /** `getPriorityText`: 1 is high, 2 is medium, every other number is low. */
  function PriorityText(priority: int): (text: string)
    ensures text == "High" <==> priority == 1
    ensures text == "Medium" <==> priority == 2
    ensures text == "Low" <==> priority != 1 && priority != 2
  {
    match priority
    case 1 => "High"
    case 2 => "Medium"
    case _ => "Low"
  }

  /** `getPriorityColor`. */
  function PriorityColor(priority: int): (color: string)
    ensures color == Red <==> priority == 1
    ensures color == Yellow <==> priority == 2
    ensures color == Green <==> priority != 1 && priority != 2
  {
    match priority
    case 1 => Red
    case 2 => Yellow
    case _ => Green
  }

  /** The colour each priority level is meant to wear. */
  function LevelColor(level: string): string {
    if level == "High" then Red else if level == "Medium" then Yellow else Green
  }

  /** The two priority tables agree: the colour of a priority is the colour of its level. */
  lemma PriorityColorMatchesText(priority: int)
    ensures PriorityColor(priority) == LevelColor(PriorityText(priority))
  {
  }

  /** `getStatusColor`. */
  function StatusColor(status: string): (color: string)
    ensures color == Green <==> status == "completed"
    ensures color == Blue <==> status == "in_progress"
    ensures color == Red <==> status == "cancelled"
    ensures color == Gray <==> status !in {"completed", "in_progress", "cancelled"}
  {
    match status
    case "completed" => Green
    case "in_progress" => Blue
    case "cancelled" => Red
    case _ => Gray
  }

  /** The status badge text: `status.replace('_', ' ')`, which replaces the first underscore only. */
  function StatusLabel(status: string): (text: string)
    ensures |text| == |status|
    ensures '_' !in status ==> text == status
    ensures '_' in status ==>
              var i := FirstIndex(status, '_');
              text[..i] == status[..i] && text[i] == ' ' && text[i + 1..] == status[i + 1..]
  {
    ReplaceFirst(status, '_', ' ')
  }

  /** A status with several underscores keeps all but the first in its label. */
  lemma LabelKeepsLaterUnderscores(status: string)
    requires '_' in status
    ensures Count(StatusLabel(status), '_') == Count(status, '_') - 1
  {
    ReplaceFirstRemovesOne(status, '_', ' ');
  }

  /** A row of `/api/tasks`; the joined names are absent for a task without project or agent. */
  datatype Task = Task(
    id: int,
    title: string,
    description: string,
    status: string,
    priority: int,
    dueDate: Option<string>,
    projectName: Option<string>,
    agentName: Option<string>,
    createdAt: string)

  /** What one task card shows. */
  datatype Card = Card(
    key: int,
    title: string,
    description: string,
    project: Option<string>,
    agent: Option<string>,
    due: Option<string>,
    statusLabel: string,
    statusColor: string,
    priorityText: string,
    priorityColor: string)

  /** `x && <span>…</span>`: the span is shown for a set, non-empty value. */
  function Shown(v: Option<string>): (r: Option<string>)
    ensures r.Some? <==> Truthy(v)
    ensures r.Some? ==> r == v
  {
    if Truthy(v) then v else None
  }

  function CardOf(t: Task): Card {
    Card(t.id, t.title, t.description, Shown(t.projectName), Shown(t.agentName), Shown(t.dueDate),
         StatusLabel(t.status), StatusColor(t.status), PriorityText(t.priority), PriorityColor(t.priority))
  }

  /** What the component renders. */
  datatype View = LoadingView | ListView(cards: seq<Card>, emptyNotice: bool)

  /** The render of the component for its state. */
  function Render(tasks: seq<Task>, loading: bool): (v: View)
    ensures v.LoadingView? <==> loading
    ensures v.ListView? ==> |v.cards| == |tasks| && forall i :: 0 <= i < |tasks| ==> v.cards[i] == CardOf(tasks[i])
    ensures v.ListView? ==> (v.emptyNotice <==> tasks == [])
  {
    if loading then LoadingView
    else ListView(seq(|tasks|, i requires 0 <= i < |tasks| => CardOf(tasks[i])), |tasks| == 0)
  }

  /** The parsed answer of `fetch('/api/tasks')`, or a throw while fetching or parsing. */
  datatype TasksResponse = Json(success: bool, tasks: seq<Task>) | Threw

  /** The state of one mounted `TasksManager`. */
  class TasksView {
    var tasks: seq<Task>
    var loading: bool

    /** `useState([])` and `useState(true)`. */
    constructor ()
      ensures tasks == [] && loading
    {
      tasks := [];
      loading := true;
    }

    function View(): View
      reads this
    {
      Render(tasks, loading)
    }

    /**
      `fetchTasks`: the list is replaced only by a successful answer, and
      loading ends whatever the answer was.
     */
    method FetchTasks(response: TasksResponse)
      modifies this
      ensures tasks == if response.Json? && response.success then response.tasks else old(tasks)
      ensures !loading
      ensures View().ListView? && (View().emptyNotice <==> tasks == [])
    {
      if response.Json? && response.success {
        tasks := response.tasks;
      }
      loading := false;
    }
  }
}

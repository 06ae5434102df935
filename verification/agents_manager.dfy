/**
  `AgentsManager` from src/components/dashboard/AgentsManager.tsx: the status
  badge table, and the state the component keeps (`agents`, `loading`,
  `newAgent`) with the updates `fetchAgents` and `createAgent` make to it.
 */
module AgentsManager {

  const Green := "bg-green-200 text-green-800"
  const Gray := "bg-gray-200 text-gray-800"
  const Yellow := "bg-yellow-200 text-yellow-800"

  /** `getStatusColor`: active is green, inactive gray, any other status yellow. */
  function StatusColor(status: string): (color: string)
    ensures color == Green <==> status == "active"
    ensures color == Gray <==> status == "inactive"
    ensures color == Yellow <==> status != "active" && status != "inactive"
  {
    match status
    case "active" => Green
    case "inactive" => Gray
    case _ => Yellow
  }

  /** A row of `/api/agents`. */
  datatype Agent = Agent(
    id: int,
    name: string,
    kind: string,
    description: string,
    status: string,
    capabilities: seq<string>,
    lastSeen: string,
    createdAt: string)

  /** The `newAgent` form state, posted as the body of a create. */
  datatype AgentForm = AgentForm(name: string, kind: string, description: string, capabilities: seq<string>)

  /** The form as the component starts with it and as a successful create leaves it. */
  const InitialForm := AgentForm("", "coding", "", [])

  /** The parsed answer of `fetch('/api/agents')`, or a throw while fetching or parsing. */
  datatype AgentsResponse = Agents(success: bool, agents: seq<Agent>) | AgentsThrew

  /** The parsed answer of the POST to `/api/agents`, or a throw while posting or parsing. */
  datatype CreateResponse = Created(success: bool) | CreateThrew

  /** What the component renders: the loading notice, or its content. */
  datatype View = LoadingView | ContentView(agents: seq<Agent>, form: AgentForm)

  /** The state of one mounted `AgentsManager`. */
  class AgentsView {
    var agents: seq<Agent>
    var loading: bool
    var newAgent: AgentForm

    constructor ()
      ensures agents == [] && loading && newAgent == InitialForm
    {
      agents := [];
      loading := true;
      newAgent := InitialForm;
    }

    /** While loading, only the loading notice renders. */
    function View(): (v: View)
      reads this
      ensures v.LoadingView? <==> loading
      ensures v.ContentView? ==> v.agents == agents && v.form == newAgent
    {
      if loading then LoadingView else ContentView(agents, newAgent)
    }

    /**
      `fetchAgents`: the list is replaced only by a successful answer, and
      loading ends whatever the answer was; the form is untouched.
     */
    method FetchAgents(response: AgentsResponse)
      modifies this
      ensures agents == if response.Agents? && response.success then response.agents else old(agents)
      ensures !loading && newAgent == old(newAgent)
      ensures View() == ContentView(agents, newAgent)
    {
      if response.Agents? && response.success {
        agents := response.agents;
      }
      loading := false;
    }

    /**
      `createAgent`: posts the form (`posted`); when the answer reports
      success, the list is fetched again (answered by `refetch`) and the form
      is reset. Any other answer, or a throw, leaves the state as it was.
     */
    method CreateAgent(created: CreateResponse, refetch: AgentsResponse) returns (posted: AgentForm)
      modifies this
      ensures posted == old(newAgent)
      ensures created == Created(true) ==>
                && agents == (if refetch.Agents? && refetch.success then refetch.agents else old(agents))
                && !loading
                && newAgent == InitialForm
      ensures created != Created(true) ==>
                agents == old(agents) && loading == old(loading) && newAgent == old(newAgent)
    {
      posted := newAgent;
      if created.Created? && created.success {
        FetchAgents(refetch);
        newAgent := InitialForm;
      }
    }
  }
}

/** The admin portal: which delivery agents can be assigned, how the order and
    agent lists follow the 'order:updated' and 'agent:updated' events, and the
    guards on assigning and changing status. Request outcomes are inputs:
    `None` is a request that failed. */
module AdminPortal {
  import opened Common
  import opened PortalOrders

  /** A missing `isOnline` or `isBlocked` reads as `false`, which is how the
      page's truthiness tests treat it. */
  datatype Agent = Agent(id: string, name: Option<string>, phone: Option<string>, isOnline: bool, isBlocked: bool)

  predicate Assignable(a: Agent) {
    a.isOnline && !a.isBlocked
  }

  /** `agents.filter(a => a.isOnline && !a.isBlocked)`. */
  function ActiveAgents(agents: seq<Agent>): (active: seq<Agent>)
    ensures forall i :: 0 <= i < |active| ==> active[i].isOnline && !active[i].isBlocked && active[i] in agents
    ensures forall i :: 0 <= i < |agents| && agents[i].isOnline && !agents[i].isBlocked ==> agents[i] in active
    ensures forall a :: multiset(active)[a] == if a.isOnline && !a.isBlocked then multiset(agents)[a] else 0
  {
    var active := Filter(agents, Assignable);
    assert forall i :: 0 <= i < |active| ==> active[i] in multiset(active);
    active
  }

  /** The chips keep the order of the agent list: the list is taken part by
      part, and a single agent gets a chip exactly when it is assignable. */
  lemma ActiveAgentsInListOrder(xs: seq<Agent>, ys: seq<Agent>, a: Agent)
    ensures ActiveAgents(xs + ys) == ActiveAgents(xs) + ActiveAgents(ys)
    ensures ActiveAgents([a]) == if a.isOnline && !a.isBlocked then [a] else []
  {
    FilterAppend(xs, ys, Assignable);
    FilterSingle(a, Assignable);
  }

  function AgentId(a: Agent): string {
    a.id
  }

  /** `prev.map(a => a._id === agent._id ? agent : a)`. */
  function ReplaceAgent(agents: seq<Agent>, updated: Agent): (r: seq<Agent>)
    ensures |r| == |agents|
    ensures forall i :: 0 <= i < |agents| && agents[i].id == updated.id ==> r[i] == updated
    ensures forall i :: 0 <= i < |agents| && agents[i].id != updated.id ==> r[i] == agents[i]
  {
    ReplaceByKey(agents, AgentId, updated)
  }

  /** Once an update reports an agent blocked or offline, no chip for that
      agent is offered any more. */
  lemma UpdatedAgentLeavesChips(agents: seq<Agent>, updated: Agent)
    requires !Assignable(updated)
    ensures forall a :: a in ActiveAgents(ReplaceAgent(agents, updated)) ==> a.id != updated.id
  {
    var r := ReplaceAgent(agents, updated);
    forall a | a in ActiveAgents(r) ensures a.id != updated.id {
      var k :| 0 <= k < |r| && r[k] == a;
      assert Assignable(a);
    }
  }

  datatype AdminPortalState = AdminPortalState(orders: seq<PortalOrder>, agents: seq<Agent>, selected: Option<PortalOrder>)

  /** 'order:updated' replaces the list entry with the same id, and the
      selection when it is the same order. */
  function OnOrderUpdated(s: AdminPortalState, order: PortalOrder): (r: AdminPortalState)
    ensures r.orders == ReplaceById(s.orders, order) && r.agents == s.agents
    ensures s.selected.Some? && s.selected.value.id == order.id ==> r.selected == Some(order)
    ensures s.selected.None? || s.selected.value.id != order.id ==> r.selected == s.selected
  {
    s.(orders := ReplaceById(s.orders, order),
       selected := if s.selected.Some? && s.selected.value.id == order.id then Some(order) else s.selected)
  }

  /** The selection follows the events: after an update of the selected
      order, the panel shows the same copy as the list. */
  lemma SelectionFollowsUpdates(s: AdminPortalState, order: PortalOrder, i: int)
    requires s.selected.Some? && s.selected.value.id == order.id
    requires 0 <= i < |s.orders| && s.orders[i].id == order.id
    ensures OnOrderUpdated(s, order).selected == Some(OnOrderUpdated(s, order).orders[i])
  {
  }

  /** 'agent:updated' replaces the matching agent and nothing else. */
  function OnAgentUpdated(s: AdminPortalState, agent: Agent): (r: AdminPortalState)
    ensures r.agents == ReplaceAgent(s.agents, agent)
    ensures r.orders == s.orders && r.selected == s.selected
  {
    s.(agents := ReplaceAgent(s.agents, agent))
  }

  /** The two controls of the detail panel: an agent chip (`handleAssign`)
      and a status chip (`handleStatusChange`). */
  datatype Control = AssignAgent(agentId: string) | ChangeStatus(status: string)

  /** The request a control sends: the selected order's id and the control,
      or nothing without a selection. */
  function ControlRequest(s: AdminPortalState, c: Control): (req: Option<(string, Control)>)
    ensures req.None? <==> s.selected.None?
    ensures req.Some? ==> req.value == (s.selected.value.id, c)
  {
    if s.selected.None? then None else Some((s.selected.value.id, c))
  }

  /** After an assign or status request: the reply becomes the selection, then
      both lists are reloaded (`reload` is `None` when the reload failed). */
  function AfterControl(s: AdminPortalState, response: Option<PortalOrder>,
                        reload: Option<(seq<PortalOrder>, seq<Agent>)>): (r: AdminPortalState)
    ensures s.selected.None? || response.None? ==> r == s
    ensures s.selected.Some? && response.Some? ==> r.selected == response
    ensures s.selected.Some? && response.Some? && reload.None? ==> r.orders == s.orders && r.agents == s.agents
    ensures s.selected.Some? && response.Some? && reload.Some? ==>
      r.orders == reload.value.0 && r.agents == reload.value.1
  {
    if s.selected.None? || response.None? then s
    else
      var picked := s.(selected := response);
      if reload.None? then picked else picked.(orders := reload.value.0, agents := reload.value.1)
  }

  /** `o.agentId ? o.agentId : 'Unassigned'`. */
  function AgentLabel(agentId: Option<string>): (text: string)
    ensures Truthy(agentId) ==> text == agentId.value
    ensures !Truthy(agentId) ==> text == "Unassigned"
  {
    OrElse(agentId, "Unassigned")
  }

  /** The map centre: the current location, else the pickup, else Delhi. */
  function MapCenter(o: PortalOrder): (p: Point)
    ensures o.currentLocation.Some? ==> p == o.currentLocation.value
    ensures o.currentLocation.None? && o.pickupLocation.Some? ==> p == o.pickupLocation.value
    ensures o.currentLocation.None? && o.pickupLocation.None? ==> p == DefaultCenter
  {
    FirstPresent(o.currentLocation, o.pickupLocation, DefaultCenter)
  }
}

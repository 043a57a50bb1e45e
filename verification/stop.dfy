/** The planner of lib/cli/stop.js, shared by the stop and kill commands:
    one action of the requested kind per selected process. */
module StopPlanner {
  import opened DaemonInfo

  /** The `{id}` argument of an action. */
  datatype IdArg = IdArg(id: nat)

  datatype Action = Action(name: string, args: seq<IdArg>)

  /** The actions for `selected`: each process in order gets one action
      named `actionName` whose only argument is its id. */
  function Plan(selected: seq<ProcessInfo>, actionName: string): (actions: seq<Action>)
    ensures |actions| == |selected|
    ensures forall i :: 0 <= i < |selected| ==> actions[i] == Action(actionName, [IdArg(selected[i].id)])
  {
    if |selected| == 0 then []
    else [Action(actionName, [IdArg(selected[0].id)])] + Plan(selected[1..], actionName)
  }

  /** The ids an action list addresses, in order. */
  function Targets(actions: seq<Action>): seq<nat>
    requires forall i :: 0 <= i < |actions| ==> |actions[i].args| == 1
  {
    if |actions| == 0 then [] else [actions[0].args[0].id] + Targets(actions[1..])
  }

  function Ids(processes: seq<ProcessInfo>): (ids: seq<nat>)
    ensures |ids| == |processes|
    ensures forall i :: 0 <= i < |processes| ==> ids[i] == processes[i].id
  {
    seq(|processes|, i requires 0 <= i < |processes| => processes[i].id)
  }

  /** The plan addresses exactly the selected processes, in order, each once
      per occurrence, and every action has the requested name. */
  lemma {:induction false} PlanAddressesSelection(selected: seq<ProcessInfo>, actionName: string)
    ensures Targets(Plan(selected, actionName)) == Ids(selected)
    ensures forall a :: a in Plan(selected, actionName) ==> a.name == actionName
    decreases |selected|
  {
    var plan := Plan(selected, actionName);
    if |selected| > 0 {
      PlanAddressesSelection(selected[1..], actionName);
      assert plan[1..] == Plan(selected[1..], actionName);
      assert Ids(selected) == [selected[0].id] + Ids(selected[1..]);
    }
  }

  /** Planning a concatenated selection plans each part in turn. */
  lemma {:induction false} PlanDistributes(a: seq<ProcessInfo>, b: seq<ProcessInfo>, actionName: string)
    ensures Plan(a + b, actionName) == Plan(a, actionName) + Plan(b, actionName)
    decreases |a|
  {
    if |a| == 0 {
      assert a + b == b;
    } else {
      assert (a + b)[1..] == a[1..] + b;
      PlanDistributes(a[1..], b, actionName);
    }
  }
}

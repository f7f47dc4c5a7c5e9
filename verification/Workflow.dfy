/** The engine: apply nodes until the turn ends, pauses, or runs out of budget. */
module Workflow {
  import opened Common
  import opened AgentState
  import opened Graph

  datatype Config = Config(maxSteps: nat, retryBudget: nat)

  function NodeName(route: Option<Route>): string {
    match route
    case None => "start"
    case Some(Think) => "think"
    case Some(Retrieve) => "retrieve_project_documents"
    case Some(CallTool) => "call_tool"
    case Some(RequestApproval) => "request_approval"
    case Some(Answer) => "answer"
    case Some(Clarify) => "clarify"
    case Some(Refuse) => "refuse"
    case Some(Fail) => "fail"
  }

  /** The node table. */
  function Node(p: Ports, cfg: Config, route: Option<Route>, w: World): Out {
    match route
    case None => Graph.Think(p, w)
    case Some(Think) => Graph.Think(p, w)
    case Some(Retrieve) => RetrieveAndAnswer(p, w)
    case Some(CallTool) => ExecuteTool(p, cfg.retryBudget, w)
    case _ => UnroutableState
  }

  function Enter(w: World): World {
    var s := w.state;
    World(s.(steps := s.steps + 1, events := s.events + Row(NodeName(s.route), NodeEntered)),
          w.log + [Entered(s.route)])
  }

  function Exit(w: World, name: string): World {
    World(w.state.(events := w.state.events + Row(name, NodeExited)), w.log)
  }

  /** One turn of the loop: count the step, run the node, note the way out. */
  function Step(p: Ports, cfg: Config, w: World): Out {
    match Node(p, cfg, w.state.route, Enter(w))
    case Done(next) => Done(Exit(next, NodeName(w.state.route)))
    case other => other
  }

  predicate Stopped(s: State) { s.terminal || IsPaused(s) }

  function OutOfBudget(w: World): Out {
    var s := w.state;
    Leave(w, Fail, if s.route == Some(CallTool) then Some(s.mutating) else None,
          s.(failure := MaxStepsExceeded, events := s.events + Row("engine", RunFailed)))
  }
}

/** The planner that ships: one model choice read as one route. */
module Planner {
  import opened Common
  import opened AgentState
  import opened Graph

  const BLANK_REQUEST_QUESTION := "What would you like to know about the project?"
  const CONTROL_TOOLS: set<string> := {RETRIEVAL_TOOL, "ask_clarification", "refuse"}

  datatype Spec = Spec(name: string, mutating: bool)

  datatype Choice = Content(text: string) | Called(tool: string, args: Args)

  /** The model's choice, or None when the call to it raised; and the argument models
      of the three functions the graph carries out itself. */
  datatype Model = Model(
    choose: (State, PlanAsk, nat) -> Option<Choice>,
    queriesIn: Args -> Option<seq<string>>,
    messageIn: (string, Args) -> Option<string>)

  datatype Planner = Planner(model: Model, tools: seq<Spec>)

  function Undecided(route: Route): Decision {
    Decision(route, None, None, false, false, [], None)
  }

  /** A decision that contradicts itself is an exception, not a decision. */
  function Made(d: Decision): PlanReply {
    if Coherent(d) then Planned(d) else PlannerRaised
  }

  function SpecNamed(tools: seq<Spec>, name: string): Option<Spec> {
    if tools == [] then None
    else
      var later := SpecNamed(tools[1..], name);
      if later.Some? then later else if tools[0].name == name then Some(tools[0]) else None
  }

  predicate Blank(request: string) {
    forall i :: 0 <= i < |request| ==> request[i] in {' ', '\t', '\n', '\r'}
  }

  function Withheld(ask: PlanAsk): set<string> {
    if ask == WithACall then {RETRIEVAL_TOOL} else {}
  }

  function Plan(p: Planner, s: State, ask: PlanAsk, tick: nat): PlanReply {
    if Blank(s.info.request) then Made(Undecided(Clarify).(message := Some(BLANK_REQUEST_QUESTION)))
    else
      match p.model.choose(s, ask, tick)
      case None => PlannerRaised
      case Some(Content(text)) =>
        if ask == WithACall then Made(Undecided(Fail)) else Made(Undecided(Answer).(message := Some(text)))
      case Some(Called(tool, args)) =>
        if ask == WithoutTools || tool in Withheld(ask) then Made(Undecided(Fail))
        else
          match SpecNamed(p.tools, tool)
          case None => Made(Undecided(Fail))
          case Some(spec) => if spec.name in CONTROL_TOOLS then Control(p, spec, args) else ToolCall(spec, args)
  }

  function Control(p: Planner, spec: Spec, args: Args): PlanReply {
    if spec.name == RETRIEVAL_TOOL then
      match p.model.queriesIn(args)
      case None => Made(Undecided(Fail))
      case Some(queries) => Made(Undecided(Retrieve).(queries := queries))
    else
      match p.model.messageIn(spec.name, args)
      case None => Made(Undecided(Fail))
      case Some(message) =>
        Made(Undecided(if spec.name == "refuse" then Refuse else Clarify).(message := Some(message)))
  }

  function ToolCall(spec: Spec, args: Args): PlanReply {
    Made(Decision(if spec.mutating then RequestApproval else CallTool,
                  Some(spec.name), Some(args), spec.mutating, spec.mutating, [], None))
  }

  // -- what a plan can be ---------------------------------------------------------------

  predicate Offers(tools: seq<Spec>, name: string, mutating: bool) {
    Spec(name, mutating) in tools
  }

  lemma {:induction false} SpecNamedIsOffered(tools: seq<Spec>, name: string)
    ensures SpecNamed(tools, name).Some? ==>
              SpecNamed(tools, name).value.name == name && SpecNamed(tools, name).value in tools
  {
    if tools != [] {
      SpecNamedIsOffered(tools[1..], name);
      assert forall spec :: spec in tools[1..] ==> spec in tools;
    }
  }

  /** A planned tool call is of an offered tool, and goes to a human exactly when that
      tool mutates; a call asked of without tools never comes back, and a forced call
      is never a search. */
  lemma PlansAreGuarded(p: Planner, s: State, ask: PlanAsk, tick: nat)
    requires Plan(p, s, ask, tick).Planned?
    ensures var d := Plan(p, s, ask, tick).decision;
            && Coherent(d)
            && (NamesTool(d.route) ==> Offers(p.tools, d.tool.value, d.mutating) && d.tool.value !in CONTROL_TOOLS)
            && (d.route == RequestApproval <==> d.mutating)
            && (ask == WithoutTools ==> d.route in {Answer, Clarify, Fail})
            && (ask == WithACall ==> d.route !in {Answer, Retrieve})
  {
    match p.model.choose(s, ask, tick)
    case Some(Called(tool, args)) => SpecNamedIsOffered(p.tools, tool);
    case _ =>
  }
}

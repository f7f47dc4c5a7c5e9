/** The one place a tool call becomes a tool execution: five checks in a fixed order. */
module ToolGateway {
  import opened Common
  import opened AgentState
  import opened Graph

  datatype Definition = Definition(name: string, mutating: bool, approvalRequired: bool,
                                   requiredScope: string, projectArgument: Option<string>)

  /** What a definition must satisfy to be constructed at all. */
  predicate Declarable(d: Definition) {
    && !Blank(d.requiredScope)
    && (d.mutating ==> d.approvalRequired)
  }

  predicate Blank(text: string) {
    forall i :: 0 <= i < |text| ==> text[i] in {' ', '\t', '\n', '\r'}
  }

  type Registry = map<string, Definition>

  /** Entry k is the only one under its name. */
  predicate NamedOnce(definitions: seq<Definition>, k: nat)
    requires k < |definitions|
  {
    forall i :: 0 <= i < k ==> definitions[i].name != definitions[k].name
  }

  predicate Registrable(definitions: seq<Definition>) {
    forall k :: 0 <= k < |definitions| ==> Declarable(definitions[k]) && NamedOnce(definitions, k)
  }

  predicate Files(registry: Registry, definitions: seq<Definition>) {
    && (forall k :: 0 <= k < |definitions| ==>
          definitions[k].name in registry && registry[definitions[k].name] == definitions[k])
    && (forall name :: name in registry ==> exists k :: 0 <= k < |definitions| && definitions[k].name == name)
  }

  /** Register in order; a definition that cannot be built, or a second one under the
      same name, raises. */
  method Register(definitions: seq<Definition>) returns (r: Result<Registry>)
    ensures r.Ok? <==> Registrable(definitions)
    ensures r.Ok? ==> Files(r.value, definitions) && Sealed(r.value)
  {
    var byName: Registry := map[];
    for i := 0 to |definitions|
      invariant Files(byName, definitions[..i])
      invariant forall k :: 0 <= k < i ==> Declarable(definitions[k]) && NamedOnce(definitions, k)
    {
      var d := definitions[i];
      if !Declarable(d) {
        return Raised;
      }
      if d.name in byName {
        assert !NamedOnce(definitions, i);
        return Raised;
      }
      assert definitions[..i + 1] == definitions[..i] + [d];
      byName := byName[d.name := d];
    }
    assert definitions[..|definitions|] == definitions;
    r := Ok(byName);
  }

  /** What every registry keeps: entries sit under their own names, and a tool that
      mutates needs an approval. */
  predicate Sealed(registry: Registry) {
    forall name :: name in registry ==> registry[name].name == name && Declarable(registry[name])
  }

  datatype HandlerReply = Served(sources: seq<string>) | GaveUp | Refused

  /** The collaborators behind the checks: the argument models, the rate limiter and
      the handlers, the last two free to answer differently each time. */
  datatype Backend = Backend(
    argument: (string, Args, string) -> Option<string>,
    accepts: (string, Args) -> bool,
    spent: (string, string, nat) -> bool,
    handle: (Request, nat) -> HandlerReply)

  datatype Checked = Cleared(definition: Definition) | Stopped(status: Status)

  function Checks(registry: Registry, b: Backend, r: Request, tick: nat): Checked {
    if r.tool !in registry then Stopped(Broken)
    else
      var d := registry[r.tool];
      if !b.accepts(r.tool, r.args) then Stopped(InvalidArguments)
      else if d.requiredScope !in r.scopes then Stopped(Forbidden)
      else if d.projectArgument.Some? && b.argument(r.tool, r.args, d.projectArgument.value) != Some(r.project) then
        Stopped(Forbidden)
      else if b.spent(r.actor, d.name, tick) then Stopped(RateLimited)
      else if d.approvalRequired && r.approval != Approved then
        Stopped(if r.approval == Denied then Forbidden else ApprovalRequired)
      else Cleared(d)
  }

  function Reported(r: Request, status: Status, sources: seq<string>): Outcome {
    Outcome(r.tool, Summarize(r.tool, r.args), status, sources)
  }

  function Execute(registry: Registry, b: Backend, r: Request, tick: nat): Outcome {
    match Checks(registry, b, r, tick)
    case Stopped(status) => Reported(r, status, [])
    case Cleared(d) =>
      match b.handle(r, tick)
      case Served(sources) => Outcome(d.name, Summarize(r.tool, r.args), Success, sources)
      case GaveUp => Outcome(d.name, Summarize(r.tool, r.args), Transient, [])
      case Refused => Outcome(d.name, Summarize(r.tool, r.args), Broken, [])
  }

  /** Every check and no execution; None when the call would not stop for a human. */
  function Preflight(registry: Registry, b: Backend, r: Request, tick: nat): Option<Outcome> {
    match Checks(registry, b, r, tick)
    case Stopped(status) => Some(Reported(r, status, []))
    case Cleared(_) => None
  }

  predicate Permits(d: Definition, b: Backend, r: Request) {
    && b.accepts(r.tool, r.args)
    && d.requiredScope in r.scopes
    && (d.projectArgument.Some? ==> b.argument(r.tool, r.args, d.projectArgument.value) == Some(r.project))
  }

  /** A handler for a mutating tool is reached only by an approved call that its actor
      was entitled to make. */
  lemma NoWriteWithoutApproval(registry: Registry, b: Backend, r: Request, tick: nat)
    requires Sealed(registry)
    ensures Checks(registry, b, r, tick).Cleared? ==>
              && r.tool in registry && Permits(registry[r.tool], b, r)
              && (registry[r.tool].mutating ==> r.approval == Approved)
  {
  }
}

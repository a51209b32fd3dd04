/** Tools, their registry and their execution (backend/agents/tools.py). */
module Tools {
  import opened Common
  import opened Json

  datatype Capability = ReadOnly | StateChanging | HighRisk

  /** `accepts` is the tool's JSON-schema check. */
  datatype Tool = Tool(name: string, capability: Capability, enabled: bool, accepts: Value -> bool)

  type Registry = map<string, Tool>

  /** A tool found under a name carries that name. */
  ghost predicate Keyed(tools: Registry) {
    forall name :: name in tools ==> tools[name].name == name
  }

  class AgentToolRegistry {
    var tools: Registry

    constructor ()
      ensures Keyed(tools) && tools == map[]
    {
      tools := map[];
    }

    method Register(tool: Tool)
      requires Keyed(tools)
      modifies this
      ensures Keyed(tools) && tools == old(tools)[tool.name := tool]
    {
      tools := tools[tool.name := tool];
    }

    method Get(name: string) returns (tool: Option<Tool>)
      requires Keyed(tools)
      ensures tool.Some? <==> name in tools
      ensures tool.Some? ==> tool.value == tools[name] && tool.value.name == name
    {
      tool := if name in tools then Some(tools[name]) else None;
    }
  }

  /** The agent's permission ceiling; a value outside the table grants nothing. */
  datatype Permission = Viewer | Operator | Admin | Unlisted

  function Capabilities(p: Permission): set<Capability> {
    match p
    case Viewer => {ReadOnly}
    case Operator => {ReadOnly, StateChanging}
    case Admin => {ReadOnly, StateChanging, HighRisk}
    case Unlisted => {}
  }

  datatype Verdict = Denied | ReadAllowed | Proposed

  datatype Denial =
    | NotRegistered(name: string)
    | NeedsCapability(name: string, capability: Capability)
    | NotAllowlisted(name: string)
    | BadArguments(name: string)

  datatype Plan = Refuse(denial: Denial) | Read(tool: Tool) | Propose(tool: Tool)
  {
    function Verdict(): Verdict {
      match this
      case Refuse(_) => Denied
      case Read(_) => ReadAllowed
      case Propose(_) => Proposed
    }
  }

  /** `_plan_tool_call`: the server-side verdict on one requested tool call. */
  function PlanToolCall(tools: Registry, p: Permission, allowlist: seq<string>, name: string, args: Value): Plan {
    if name !in tools then Refuse(NotRegistered(name))
    else
      var tool := tools[name];
      if tool.capability !in Capabilities(p) then Refuse(NeedsCapability(name, tool.capability))
      else if allowlist != [] && name !in allowlist then Refuse(NotAllowlisted(name))
      else if !tool.accepts(args) then Refuse(BadArguments(name))
      else if tool.capability.ReadOnly? then Read(tool)
      else Propose(tool)
  }

  /** Reading needs a listed permission, changing state an operator or admin, high risk an admin. */
  predicate MayUse(p: Permission, c: Capability) {
    match c
    case ReadOnly => !p.Unlisted?
    case StateChanging => p.Operator? || p.Admin?
    case HighRisk => p.Admin?
  }

  predicate Permitted(tools: Registry, p: Permission, allowlist: seq<string>, name: string, args: Value) {
    && name in tools
    && MayUse(p, tools[name].capability)
    && (allowlist == [] || name in allowlist)
    && tools[name].accepts(args)
  }

  /** The gate in one line each way; whether a tool is advertised (`enabled`) plays no part. */
  lemma PlanIsTheGate(tools: Registry, p: Permission, allowlist: seq<string>, name: string, args: Value)
    ensures var plan := PlanToolCall(tools, p, allowlist, name, args);
      && (plan.Read? <==> Permitted(tools, p, allowlist, name, args) && tools[name].capability.ReadOnly?)
      && (plan.Propose? <==> Permitted(tools, p, allowlist, name, args) && !tools[name].capability.ReadOnly?)
      && (plan.Propose? && tools[name].capability.HighRisk? ==> p.Admin?)
      && (!plan.Refuse? ==> plan.tool == tools[name])
  {
  }

  /** What a call is denied for: the first of the four checks that fails. */
  lemma DenialNamesTheCheck(tools: Registry, p: Permission, allowlist: seq<string>, name: string, args: Value)
    ensures var plan := PlanToolCall(tools, p, allowlist, name, args);
      var known := name in tools;
      var may := known && MayUse(p, tools[name].capability);
      var listed := may && (allowlist == [] || name in allowlist);
      && (plan == Refuse(NotRegistered(name)) <==> !known)
      && (known ==> (plan == Refuse(NeedsCapability(name, tools[name].capability)) <==> !may))
      && (plan == Refuse(NotAllowlisted(name)) <==> may && !listed)
      && (plan == Refuse(BadArguments(name)) <==> listed && !tools[name].accepts(args))
  {
    if name in tools {
      CapabilitiesAre(p, tools[name].capability);
    }
    hide Capabilities, MayUse;
  }

  lemma CapabilitiesAre(p: Permission, c: Capability)
    ensures c in Capabilities(p) <==> MayUse(p, c)
  {
  }

  /** How one call of an executor ends. */
  datatype Attempt = Returned(result: Value) | RaisedTypeError(text: string) | RaisedOther(text: string)

  datatype Execution = Envelope(value: Value) | Propagated(text: string)

  function ErrorEnvelope(text: string): Value {
    Obj([(Name("ok"), Bool(false)), (Name("error"), Str(text))])
  }

  function Grounded(result: Value): Value {
    if !result.Obj? then ErrorEnvelope("executor must return a dictionary envelope")
    else if HasKey(result.fields, "ok") then result
    else Obj(result.fields + [(Name("ok"), Bool(true))])
  }

  /** `AgentTool.execute`: a TypeError makes the executor run again without its context. */
  function Execute(first: Attempt, second: Attempt): Execution {
    match first
    case Returned(v) => Envelope(Grounded(v))
    case RaisedOther(t) => Envelope(ErrorEnvelope(t))
    case RaisedTypeError(_) =>
      match second
      case Returned(v) => Envelope(Grounded(v))
      case RaisedTypeError(t) => Envelope(ErrorEnvelope("executor signature mismatch: " + t))
      case RaisedOther(t) => Propagated(t)
  }

  /** How the calls of the executor that `AgentTool.execute` makes end; arguments that are not a dict never reach it. */
  function Attempts(args: Value, first: Attempt, second: Attempt): seq<Attempt> {
    if !args.Obj? then []
    else if first.RaisedTypeError? then [first, second]
    else [first]
  }

  /**
   * The module promises that any exception is wrapped into the error envelope. It is not: the
   * promise holds exactly unless a TypeError is followed by another kind of exception.
   */
  lemma ExecuteWrapsUnlessRetryRaises(first: Attempt, second: Attempt)
    ensures Execute(first, second).Envelope? <==> !(first.RaisedTypeError? && second.RaisedOther?)
    ensures Execute(first, second).Envelope? ==>
      Execute(first, second).value.Obj? && HasKey(Execute(first, second).value.fields, "ok")
  {
    if Execute(first, second).Envelope? {
      var fields := Execute(first, second).value.fields;
      var v := if first.Returned? then first else second;
      if v.Returned? && v.result.Obj? && !HasKey(v.result.fields, "ok") && (first.Returned? || first.RaisedTypeError?) {
        assert fields[|v.result.fields|].0 == Name("ok");
      } else if !(v.Returned? && v.result.Obj?) || first.RaisedOther? {
        assert fields[0].0 == Name("ok");
      }
    }
  }
}

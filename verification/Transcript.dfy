/** Durable transcript rows and the wire messages rebuilt from them (backend/agents/session.py). */
module Transcript {
  import opened Common
  import opened Json
  import opened Privacy

  datatype Role = System | User | Assistant | ToolRole

  /** `metadata`: empty, an assistant-side tool_calls frame, or the id a tool result answers. */
  datatype Meta =
    | NoMeta
    | FrameMeta(callId: string, name: string, arguments: Value)
    | ResultMeta(callId: string)

  datatype Message = Message(role: Role, content: string, sequence: nat, meta: Meta)

  datatype Wire =
    | SystemWire(content: string)
    | UserWire(content: string)
    | TextWire(content: string)
    | FrameWire(content: string, callId: string, name: string, arguments: Value)
    | ToolWire(callId: string, content: string)

  const TEXT_LIMIT: nat := 8000
  const RESULT_LIMIT: nat := 200000

  function Stripped(s: string): string {
    if s == "" then ""
    else if s[0] == '\0' || s[0] == '\r' then Stripped(s[1..])
    else [s[0]] + Stripped(s[1..])
  }

  /** `sanitize_message_text`: NUL and CR removed, length capped. */
  function SanitizeText(s: string, limit: nat): string {
    Take(Stripped(s), limit)
  }

  function NextSequence(rows: seq<Message>): nat {
    if rows == [] then 1 else rows[|rows| - 1].sequence + 1
  }

  /** `_persist_message` / `append_message`. */
  function Persisted(rows: seq<Message>, role: Role, content: string, meta: Meta, limit: nat): seq<Message> {
    rows + [Message(role, SanitizeText(content, limit), NextSequence(rows), meta)]
  }

  /** `messages[-window:]`; Python reads `-0` as "everything". */
  function Window(rows: seq<Message>, window: nat): seq<Message> {
    if window == 0 || |rows| <= window then rows else rows[|rows| - window..]
  }

  function CallId(meta: Meta): string {
    if meta.NoMeta? then "" else meta.callId
  }

  predicate IsFrame(m: Message) {
    m.role.Assistant? && m.meta.FrameMeta?
  }

  function WireOf(m: Message): seq<Wire> {
    match m.role
    case System => []
    case User => [UserWire(m.content)]
    case Assistant =>
      if m.meta.FrameMeta? then [FrameWire(m.content, m.meta.callId, m.meta.name, m.meta.arguments)]
      else [TextWire(m.content)]
    case ToolRole => [ToolWire(CallId(m.meta), m.content)]
  }

  function WireBody(rows: seq<Message>): seq<Wire> {
    if rows == [] then [] else WireBody(rows[..|rows| - 1]) + WireOf(rows[|rows| - 1])
  }

  function DropTrailingFrame(wire: seq<Wire>): seq<Wire> {
    if wire != [] && wire[|wire| - 1].FrameWire?
    then wire[..|wire| - 1] + [TextWire(wire[|wire| - 1].content)]
    else wire
  }

  /** `_build_messages`. */
  function BuildMessages(window: nat, systemPrompt: string, rows: seq<Message>): seq<Wire> {
    DropTrailingFrame([SystemWire(systemPrompt)] + WireBody(Window(rows, window)))
  }

  /** What of a live wire message the transcript keeps. */
  function Durable(repr: Value -> string, w: Wire): Wire {
    match w
    case FrameWire(c, id, name, args) =>
      FrameWire(c, id, name, if args.Obj? then SanitizeDict(repr, args) else args)
    case ToolWire(id, c) => ToolWire(id, SanitizeText(c, RESULT_LIMIT))
    case _ => w
  }

  function DurableAll(repr: Value -> string, wire: seq<Wire>): seq<Wire> {
    seq(|wire|, i requires 0 <= i < |wire| => Durable(repr, wire[i]))
  }
}

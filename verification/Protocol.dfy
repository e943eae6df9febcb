/** The two streaming vocabularies, as parsed values. JSON text itself is opaque:
    an absent or wrongly typed field is `None`, and `usage` objects are carried
    as their serialised text. */
module Protocol {
  import opened Wrappers

  /** One element of `choices[0].delta.tool_calls`. */
  datatype ToolFragment = ToolFragment(
    index: Option<nat>, id: Option<string>, name: Option<string>, args: Option<string>)
  {
    function Key(): nat { index.GetOr(0) }

    predicate Named() { Text(id) != "" || Text(name) != "" }
  }

  /** What one OpenAI `data:` payload parses to. A payload without a first choice
      may still report usage. */
  datatype Chunk =
    | Malformed
    | NoChoice(report: Option<string>)
    | Chunk(id: Option<string>, model: Option<string>, role: Option<string>,
            content: Option<string>, reasoning: Option<string>,
            toolCalls: Option<seq<ToolFragment>>, finish: Option<string>, usage: Option<string>)

  datatype Payload = Done | Json(chunk: Chunk)

  predicate IsChunk(p: Payload) {
    p.Json? && p.chunk.Chunk?
  }

  function FragmentsOf(p: Payload): seq<ToolFragment> {
    if p.Json? && p.chunk.Chunk? then p.chunk.toolCalls.GetOr([]) else []
  }

  /** All tool fragments of a stream, in order. */
  function Fragments(ps: seq<Payload>): seq<ToolFragment> {
    if ps == [] then [] else Fragments(ps[..|ps| - 1]) + FragmentsOf(ps[|ps| - 1])
  }

  datatype Block = TextBlock | ToolUse(id: string, name: string)

  datatype BlockUpdate = TextDelta(text: string) | InputJson(partial: string)

  datatype AnthEvent =
    | MessageStart(id: string, role: string, model: string)
    | BlockStart(index: nat, block: Block)
    | BlockDelta(index: nat, update: BlockUpdate)
    | BlockStop(index: nat)
    | MessageDelta(stopReason: string, usage: string)
    | MessageStop

  /** What the `data:` line of an Anthropic event parses to. */
  datatype AnthData =
    | Unparsed
    | AnthData(msgRole: Option<string>, msgId: Option<string>, msgModel: Option<string>,
               index: Option<nat>, blockType: Option<string>, blockId: Option<string>, blockName: Option<string>,
               deltaText: Option<string>, deltaJson: Option<string>,
               stopReason: Option<string>, usage: Option<string>)

  const BLANK := AnthData(None, None, None, None, None, None, None, None, None, None, None)

  /** The `event:` names the translators tell apart. */
  datatype EventName = StartMessage | StartBlock | UpdateBlock | UpdateMessage | StopMessage | OtherEvent

  function NameOf(event: string): EventName {
    match event
    case "message_start" => StartMessage
    case "content_block_start" => StartBlock
    case "content_block_delta" => UpdateBlock
    case "message_delta" => UpdateMessage
    case "message_stop" => StopMessage
    case _ => OtherEvent
  }

  /** The `event:` name and the `data:` fields under which an event travels. */
  function Wire(e: AnthEvent): (EventName, AnthData) {
    match e
    case MessageStart(id, role, model) =>
      (StartMessage, BLANK.(msgId := Some(id), msgRole := Some(role), msgModel := Some(model)))
    case BlockStart(i, TextBlock) =>
      (StartBlock, BLANK.(index := Some(i), blockType := Some("text")))
    case BlockStart(i, ToolUse(id, name)) =>
      (StartBlock, BLANK.(index := Some(i), blockType := Some("tool_use"), blockId := Some(id),
        blockName := Some(name)))
    case BlockDelta(i, TextDelta(t)) =>
      (UpdateBlock, BLANK.(index := Some(i), deltaText := Some(t)))
    case BlockDelta(i, InputJson(p)) =>
      (UpdateBlock, BLANK.(index := Some(i), deltaJson := Some(p)))
    case BlockStop(i) =>
      (OtherEvent, BLANK.(index := Some(i)))
    case MessageDelta(reason, usage) =>
      (UpdateMessage, BLANK.(stopReason := Some(reason), usage := Some(usage)))
    case MessageStop =>
      (StopMessage, BLANK)
  }
}

/** The Anthropic-to-OpenAI stream machine of translate.rs. */
module AnthropicToOpenAi {
  import opened Wrappers
  import opened Protocol
  import Machine

  datatype ToolSlot = ToolSlot(index: nat, id: string, name: string)

  datatype State = State(slots: map<nat, ToolSlot>, nextTool: nat, finished: bool)

  const INITIAL := State(map[], 0, false)

  const TRANSLATED := "chatcmpl-translated"

  /** A chunk with the fixed id and an empty delta. */
  const PLAIN := Chunk(Some(TRANSLATED), None, None, None, None, None, None, None)

  function FinishReason(stop: string): string {
    if stop == "tool_use" then "tool_calls" else if stop == "max_tokens" then "length" else "stop"
  }

  function ToolStart(slot: ToolSlot): Chunk {
    PLAIN.(toolCalls := Some([ToolFragment(Some(slot.index), Some(slot.id), Some(slot.name), Some(""))]))
  }

  function Opening(d: AnthData): Chunk
    requires d.AnthData?
  {
    PLAIN.(id := Some(d.msgId.GetOr(TRANSLATED)), model := Some(d.msgModel.GetOr("")),
           role := Some(d.msgRole.GetOr("assistant")))
  }

  /** One event name with its data: the next state and the payload sent, if any. */
  function Step(st: State, event: EventName, d: AnthData): (State, Option<Payload>) {
    if event.StopMessage? then
      if st.finished then (st, None) else (st.(finished := true), Some(Done))
    else if d.Unparsed? then (st, None)
    else if event.StartMessage? then (st, Some(Json(Opening(d))))
    else if event.StartBlock? then
      if Text(d.blockType) != "tool_use" then (st, None)
      else
        var slot := ToolSlot(st.nextTool, Text(d.blockId), Text(d.blockName));
        (st.(slots := st.slots[d.index.GetOr(0) := slot], nextTool := st.nextTool + 1), Some(Json(ToolStart(slot))))
    else if event.UpdateBlock? then
      if d.deltaText.Some? then (st, Some(Json(PLAIN.(content := d.deltaText))))
      else if d.deltaJson.Some? && d.index.GetOr(0) in st.slots then
        var fragment := ToolFragment(Some(st.slots[d.index.GetOr(0)].index), None, None, d.deltaJson);
        (st, Some(Json(PLAIN.(toolCalls := Some([fragment])))))
      else (st, None)
    else if event.UpdateMessage? then
      (st, Some(Json(PLAIN.(finish := Some(FinishReason(d.stopReason.GetOr("stop"))),
        usage := Some(d.usage.GetOr("{}"))))))
    else (st, None)
  }

  function Sent(p: Option<Payload>): seq<Payload> {
    if p.Some? then [p.value] else []
  }

  /** The machine reading a sequence of wired events. */
  function Run(st: State, es: seq<AnthEvent>): (State, seq<Payload>) {
    Machine.Run(EventStep(), st, es)
  }

  function EventStep(): Machine.Step<State, AnthEvent, Payload> {
    (st: State, e: AnthEvent) =>
      var (event, d) := Wire(e);
      var (s, p) := Step(st, event, d);
      (s, Sent(p))
  }

  /** The translator object, updated in place by each event. */
  class Stream {
    var slots: map<nat, ToolSlot>
    var nextTool: nat
    var finished: bool

    ghost function Value(): State
      reads this
    {
      State(slots, nextTool, finished)
    }

    constructor ()
      ensures Value() == INITIAL
    {
      slots, nextTool, finished := map[], 0, false;
    }

    method Translate(event: EventName, d: AnthData) returns (out: Option<Payload>)
      modifies this
      ensures Value() == Step(old(Value()), event, d).0
      ensures out == Step(old(Value()), event, d).1
    {
      out := None;
      match event {
        case StopMessage =>
          if !finished {
            finished := true;
            out := Some(Done);
          }
        case _ =>
          if d.AnthData? {
            out := TranslateParsed(event, d);
          }
      }
    }

    method TranslateParsed(event: EventName, d: AnthData) returns (out: Option<Payload>)
      requires !event.StopMessage? && d.AnthData?
      modifies this
      ensures Value() == Step(old(Value()), event, d).0
      ensures out == Step(old(Value()), event, d).1
    {
      out := None;
      match event {
        case StartMessage =>
          out := Some(Json(Opening(d)));
        case StartBlock =>
          if d.blockType == Some("tool_use") {
            var slot := ToolSlot(nextTool, d.blockId.GetOr(""), d.blockName.GetOr(""));
            nextTool := nextTool + 1;
            slots := slots[d.index.GetOr(0) := slot];
            out := Some(Json(ToolStart(slot)));
          }
        case UpdateBlock =>
          var i := d.index.GetOr(0);
          if d.deltaText.Some? {
            out := Some(Json(PLAIN.(content := d.deltaText)));
          } else if d.deltaJson.Some? && i in slots {
            out := Some(Json(PLAIN.(toolCalls := Some([ToolFragment(Some(slots[i].index), None, None, d.deltaJson)]))));
          }
        case UpdateMessage =>
          var usage := d.usage.GetOr("{}");
          out := Some(Json(PLAIN.(finish := Some(FinishReason(d.stopReason.GetOr("stop"))), usage := Some(usage))));
        case _ =>
      }
    }
  }
}

/** The two request-body translators of translate.rs. */
module Requests {
  import opened Wrappers
  import opened Json
  import opened ImageUrls

  /** `Value::to_string`, used for odd `system` values and tool inputs. */
  type Render = Value -> string

  const EMPTY_SCHEMA := Obj(map["type" := Str("object")])

  function TextPart(t: string): Value {
    Obj(map["type" := Str("text"), "text" := Str(t)])
  }

  function UrlPart(url: string): Value {
    Obj(map["type" := Str("image_url"), "image_url" := Obj(map["url" := Str(url)])])
  }

  function SourceBlock(source: Source): Value {
    Obj(map["type" := Str("image"),
            "source" := match source
                        case Base64(mt, data) =>
                          Obj(map["type" := Str("base64"), "media_type" := Str(mt), "data" := Str(data)])
                        case Url(url) => Obj(map["type" := Str("url"), "url" := Str(url)])])
  }

  /** The image source of a block, where it can be read. */
  function SourceOf(block: Value): Option<Source> {
    var source := Get(block, "source").GetOr(Null);
    var kind := StrField(source, "type");
    if kind == Some("base64") then
      var data := StrField(source, "data");
      if data.Some? then Some(Base64(StrField(source, "media_type").GetOr("image/png"), data.value)) else None
    else if kind == Some("url") then
      var url := StrField(source, "url");
      if url.Some? then Some(Url(url.value)) else None
    else None
  }

  function RoleOf(m: Value): string {
    StrField(m, "role").GetOr("user")
  }

  // ---- Anthropic to OpenAI ----

  function SystemText(body: Value, render: Render): string {
    var sys := Get(body, "system");
    if sys.None? then ""
    else if sys.value.Str? then sys.value.s
    else if sys.value.Arr? then Join(Texts(sys.value.items))
    else render(sys.value)
  }

  function Texts(items: seq<Value>): seq<string> {
    if items == [] then []
    else
      var t := StrField(items[|items| - 1], "text");
      Texts(items[..|items| - 1]) + if t.Some? then [t.value] else []
  }

  /** The content part of a block, for text and readable images. */
  function PartOf(block: Value): Option<Value> {
    var kind := Text(StrField(block, "type"));
    if kind == "text" then
      var t := StrField(block, "text");
      if t.Some? then Some(TextPart(t.value)) else None
    else if kind == "image" then
      var source := SourceOf(block);
      if source.Some? then Some(UrlPart(ToUrl(source.value))) else None
    else None
  }

  function Parts(blocks: seq<Value>): seq<Value> {
    if blocks == [] then []
    else
      var p := PartOf(blocks[|blocks| - 1]);
      Parts(blocks[..|blocks| - 1]) + if p.Some? then [p.value] else []
  }

  function ToolCallOf(block: Value, render: Render): Value {
    Obj(map["id" := Str(Text(StrField(block, "id"))), "type" := Str("function"),
            "function" := Obj(map["name" := Str(Text(StrField(block, "name"))),
                                  "arguments" := Str(render(Get(block, "input").GetOr(Obj(map[]))))])])
  }

  function ToolCalls(blocks: seq<Value>, render: Render): seq<Value> {
    if blocks == [] then []
    else
      var b := blocks[|blocks| - 1];
      ToolCalls(blocks[..|blocks| - 1], render)
        + if StrField(b, "type") == Some("tool_use") then [ToolCallOf(b, render)] else []
  }

  function ToolResultOf(block: Value): Value {
    Obj(map["role" := Str("tool"), "tool_call_id" := Str(Text(StrField(block, "tool_use_id"))),
            "content" := Str(Text(StrField(block, "content")))])
  }

  function ToolResults(blocks: seq<Value>): seq<Value> {
    if blocks == [] then []
    else
      var b := blocks[|blocks| - 1];
      ToolResults(blocks[..|blocks| - 1]) + if StrField(b, "type") == Some("tool_result") then [ToolResultOf(b)] else []
  }

  /** The content of a message with these parts: a lone text is a plain string. */
  function ContentOf(parts: seq<Value>): Value {
    if |parts| == 1 && StrField(parts[0], "type") == Some("text") then Get(parts[0], "text").GetOr(Null)
    else if parts != [] then Arr(parts)
    else Null
  }

  function MessagesOf(m: Value, render: Render): seq<Value> {
    var content := Get(m, "content").GetOr(Null);
    if content.Str? then [Obj(map["role" := Str(RoleOf(m)), "content" := content])]
    else if content.Arr? then
      var (parts, calls) := (Parts(content.items), ToolCalls(content.items, render));
      ToolResults(content.items)
      + if parts == [] && calls == [] then []
        else [Obj(Put(map["role" := Str(RoleOf(m)), "content" := ContentOf(parts)],
                      "tool_calls", if calls == [] then None else Some(Arr(calls))))]
    else []
  }

  function AllMessages(ms: seq<Value>, render: Render): seq<Value> {
    if ms == [] then [] else AllMessages(ms[..|ms| - 1], render) + MessagesOf(ms[|ms| - 1], render)
  }

  function ToolToOpenAi(t: Value): Value {
    Obj(map["type" := Str("function"),
            "function" := Obj(map["name" := Str(Text(StrField(t, "name"))),
                                  "description" := Str(Text(StrField(t, "description"))),
                                  "parameters" := Get(t, "input_schema").GetOr(EMPTY_SCHEMA)])])
  }

  function ToolsToOpenAi(ts: seq<Value>): seq<Value> {
    seq(|ts|, i requires 0 <= i < |ts| => ToolToOpenAi(ts[i]))
  }

  function ToOpenAi(body: Value, model: string, render: Render): Value {
    var sys := SystemText(body, render);
    var head := if sys == "" then [] else [Obj(map["role" := Str("system"), "content" := Str(sys)])];
    var messages := head + AllMessages(AsArr(Get(body, "messages")).GetOr([]), render);
    var f0 := map["model" := Str(model), "messages" := Arr(messages)];
    var f1 := Put(f0, "max_tokens", Get(body, "max_tokens"));
    var f2 := Put(f1, "temperature", Get(body, "temperature"));
    var f3 := Put(f2, "stop", Get(body, "stop_sequences"));
    var f4 := Put(f3, "stream", Get(body, "stream"));
    var tools := AsArr(Get(body, "tools"));
    Obj(Put(f4, "tools", if tools.Some? then Some(Arr(ToolsToOpenAi(tools.value))) else None))
  }

  // ---- OpenAI to Anthropic ----

  function SystemPieces(content: Value): seq<string> {
    if content.Str? then [content.s]
    else if content.Arr? then TextsOrStrings(content.items)
    else []
  }

  function TextsOrStrings(items: seq<Value>): seq<string> {
    if items == [] then []
    else
      var last := items[|items| - 1];
      var t := StrField(last, "text");
      TextsOrStrings(items[..|items| - 1]) + if t.Some? then [t.value] else if last.Str? then [last.s] else []
  }

  function BlockOf(p: Value): Value {
    var t := StrField(p, "text");
    if t.Some? then TextPart(t.value)
    else if p.Str? then TextPart(p.s)
    else if StrField(p, "type") == Some("image_url") then
      var url := StrField(Get(p, "image_url").GetOr(Null), "url");
      var source := if url.Some? then FromUrl(url.value) else None;
      if source.Some? then SourceBlock(source.value) else p
    else p
  }

  function Blocks(parts: seq<Value>): seq<Value> {
    seq(|parts|, i requires 0 <= i < |parts| => BlockOf(parts[i]))
  }

  function MessageToAnthropic(m: Value): Value {
    var content := Get(m, "content");
    var f0 := map["role" := Str(RoleOf(m))];
    var f1 := Put(f0, "content",
      if content.Some? && content.value.Arr? then Some(Arr(Blocks(content.value.items))) else content);
    Obj(Put(f1, "tool_calls", Get(m, "tool_calls")))
  }

  function SystemParts(ms: seq<Value>): seq<string> {
    if ms == [] then []
    else
      var m := ms[|ms| - 1];
      SystemParts(ms[..|ms| - 1]) + if RoleOf(m) == "system" then SystemPieces(Get(m, "content").GetOr(Null)) else []
  }

  function OtherMessages(ms: seq<Value>): seq<Value> {
    if ms == [] then []
    else
      var m := ms[|ms| - 1];
      OtherMessages(ms[..|ms| - 1]) + if RoleOf(m) == "system" then [] else [MessageToAnthropic(m)]
  }

  function ToolToAnthropic(f: Value): Value {
    Obj(map["name" := Str(Text(StrField(f, "name"))), "description" := Str(Text(StrField(f, "description"))),
            "input_schema" := Get(f, "parameters").GetOr(EMPTY_SCHEMA)])
  }

  function ToolsToAnthropic(ts: seq<Value>): seq<Value> {
    if ts == [] then []
    else
      var f := Get(ts[|ts| - 1], "function");
      ToolsToAnthropic(ts[..|ts| - 1]) + if f.Some? then [ToolToAnthropic(f.value)] else []
  }

  const DEFAULT_MAX_TOKENS := Num(1024.0)

  function ToAnthropic(body: Value, model: string): Value {
    var ms := AsArr(Get(body, "messages")).GetOr([]);
    var sys := SystemParts(ms);
    var limit := if Get(body, "max_tokens").Some? then Get(body, "max_tokens")
                 else if Get(body, "max_completion_tokens").Some? then Get(body, "max_completion_tokens")
                 else Some(DEFAULT_MAX_TOKENS);
    var f0 := Put(map["model" := Str(model)], "system", if sys == [] then None else Some(Str(Join(sys))));
    var f1 := Put(f0["messages" := Arr(OtherMessages(ms))], "max_tokens", limit);
    var f2 := Put(f1, "temperature", Get(body, "temperature"));
    var f3 := Put(f2, "top_p", Get(body, "top_p"));
    var f4 := Put(f3, "stop_sequences", Get(body, "stop"));
    var f5 := Put(f4, "stream", Get(body, "stream"));
    var tools := AsArr(Get(body, "tools"));
    Obj(Put(f5, "tools", if tools.Some? then Some(Arr(ToolsToAnthropic(tools.value))) else None))
  }

  // ---- The translators' loops ----

  method TranslateBlocks(blocks: seq<Value>, render: Render)
    returns (parts: seq<Value>, calls: seq<Value>, results: seq<Value>)
    ensures parts == Parts(blocks) && calls == ToolCalls(blocks, render) && results == ToolResults(blocks)
  {
    hide PartOf, ToolCallOf, ToolResultOf;
    parts, calls, results := [], [], [];
    for i := 0 to |blocks|
      invariant parts == Parts(blocks[..i])
      invariant calls == ToolCalls(blocks[..i], render)
      invariant results == ToolResults(blocks[..i])
    {
      var block := blocks[i];
      assert blocks[..i + 1][..i] == blocks[..i];
      var part := PartOf(block);
      if part.Some? {
        parts := parts + [part.value];
      }
      if StrField(block, "type") == Some("tool_use") {
        calls := calls + [ToolCallOf(block, render)];
      }
      if StrField(block, "type") == Some("tool_result") {
        results := results + [ToolResultOf(block)];
      }
    }
    assert blocks[..|blocks|] == blocks;
  }

  method TranslateMessage(m: Value, render: Render) returns (out: seq<Value>)
    ensures out == MessagesOf(m, render)
  {
    out := [];
    var content := Get(m, "content").GetOr(Null);
    if content.Str? {
      out := [Obj(map["role" := Str(RoleOf(m)), "content" := content])];
    } else if content.Arr? {
      var parts, calls, results := TranslateBlocks(content.items, render);
      out := results;
      if parts != [] || calls != [] {
        var fields := map["role" := Str(RoleOf(m)), "content" := ContentOf(parts)];
        if calls != [] {
          fields := fields["tool_calls" := Arr(calls)];
        }
        out := out + [Obj(fields)];
      }
    }
  }

  method AnthropicToOpenAi(body: Value, model: string, render: Render) returns (out: Value)
    ensures out == ToOpenAi(body, model, render)
  {
    hide MessagesOf, SystemText, ToolsToOpenAi;
    var messages: seq<Value> := [];
    var sys := SystemText(body, render);
    if sys != "" {
      messages := [Obj(map["role" := Str("system"), "content" := Str(sys)])];
    }
    ghost var head := messages;
    var ms := AsArr(Get(body, "messages")).GetOr([]);
    for i := 0 to |ms|
      invariant messages == head + AllMessages(ms[..i], render)
    {
      assert ms[..i + 1][..i] == ms[..i];
      var more := TranslateMessage(ms[i], render);
      messages := messages + more;
    }
    assert ms[..|ms|] == ms;
    var fields := map["model" := Str(model), "messages" := Arr(messages)];
    fields := Put(fields, "max_tokens", Get(body, "max_tokens"));
    fields := Put(fields, "temperature", Get(body, "temperature"));
    fields := Put(fields, "stop", Get(body, "stop_sequences"));
    fields := Put(fields, "stream", Get(body, "stream"));
    var tools := AsArr(Get(body, "tools"));
    if tools.Some? {
      fields := fields["tools" := Arr(ToolsToOpenAi(tools.value))];
    }
    out := Obj(fields);
  }

  method SplitMessages(ms: seq<Value>) returns (systemParts: seq<string>, messages: seq<Value>)
    ensures systemParts == SystemParts(ms) && messages == OtherMessages(ms)
  {
    hide MessageToAnthropic, SystemPieces, RoleOf;
    systemParts, messages := [], [];
    for i := 0 to |ms|
      invariant systemParts == SystemParts(ms[..i]) && messages == OtherMessages(ms[..i])
    {
      assert ms[..i + 1][..i] == ms[..i];
      if RoleOf(ms[i]) == "system" {
        systemParts := systemParts + SystemPieces(Get(ms[i], "content").GetOr(Null));
      } else {
        messages := messages + [MessageToAnthropic(ms[i])];
      }
    }
    assert ms[..|ms|] == ms;
  }

  method TranslateTools(ts: seq<Value>) returns (out: seq<Value>)
    ensures out == ToolsToAnthropic(ts)
  {
    out := [];
    for i := 0 to |ts|
      invariant out == ToolsToAnthropic(ts[..i])
    {
      assert ts[..i + 1][..i] == ts[..i];
      var f := Get(ts[i], "function");
      if f.Some? {
        out := out + [ToolToAnthropic(f.value)];
      }
    }
    assert ts[..|ts|] == ts;
  }

  method OpenAiToAnthropic(body: Value, model: string) returns (out: Value)
    ensures out == ToAnthropic(body, model)
  {
    hide SystemParts, OtherMessages, Join, ToolsToAnthropic;
    var fields := map["model" := Str(model)];
    var systemParts, messages := SplitMessages(AsArr(Get(body, "messages")).GetOr([]));
    if systemParts != [] {
      fields := fields["system" := Str(Join(systemParts))];
    }
    fields := fields["messages" := Arr(messages)];
    var limit := Get(body, "max_tokens");
    if limit.None? {
      limit := Get(body, "max_completion_tokens");
    }
    fields := fields["max_tokens" := if limit.Some? then limit.value else DEFAULT_MAX_TOKENS];
    fields := Put(fields, "temperature", Get(body, "temperature"));
    fields := Put(fields, "top_p", Get(body, "top_p"));
    fields := Put(fields, "stop_sequences", Get(body, "stop"));
    fields := Put(fields, "stream", Get(body, "stream"));
    var tools := AsArr(Get(body, "tools"));
    if tools.Some? {
      var ts := TranslateTools(tools.value);
      fields := fields["tools" := Arr(ts)];
    }
    out := Obj(fields);
  }
}

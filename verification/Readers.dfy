/** Reading request bodies of either protocol, apart from the translators. */
module Readers {
  import opened Wrappers
  import opened Json
  import opened Requests
  import opened ImageUrls

  // ---- Texts ----

  /** The texts, one below the other. */
  function Lined(texts: seq<string>): string {
    if texts == [] then ""
    else texts[0] + if |texts| == 1 then "" else "\n" + Lined(texts[1..])
  }

  /** The `text` of every block that has one, in order. */
  function BlockTexts(blocks: seq<Value>): seq<string> {
    if blocks == [] then []
    else
      var t := Get(blocks[0], "text");
      (if t.Some? && t.value.Str? then [t.value.s] else []) + BlockTexts(blocks[1..])
  }

  /** The texts of an Anthropic body's `system`. */
  function SystemTexts(body: Value, render: Render): seq<string> {
    var system := Get(body, "system");
    if system.None? then []
    else if system.value.Str? then [system.value.s]
    else if system.value.Arr? then BlockTexts(system.value.items)
    else [render(system.value)]
  }

  /** As above, where a plain string among the parts is a text too. */
  function PartTexts(parts: seq<Value>): seq<string> {
    if parts == [] then []
    else
      var t := Get(parts[0], "text");
      (if t.Some? && t.value.Str? then [t.value.s] else if parts[0].Str? then [parts[0].s] else [])
      + PartTexts(parts[1..])
  }

  /** What an OpenAI body's system messages say, one after the other. */
  function SystemSaid(ms: seq<Value>): seq<string> {
    if ms == [] then []
    else
      var content := Get(ms[0], "content");
      (if Get(ms[0], "role") != Some(Str("system")) || content.None? then []
       else if content.value.Str? then [content.value.s]
       else if content.value.Arr? then PartTexts(content.value.items)
       else [])
      + SystemSaid(ms[1..])
  }

  lemma {:induction false} BlockTextsBoth(a: seq<Value>, b: seq<Value>)
    ensures BlockTexts(a + b) == BlockTexts(a) + BlockTexts(b)
  {
    hide Get;
    if a == [] {
      assert a + b == b;
    } else {
      assert (a + b)[1..] == a[1..] + b;
      BlockTextsBoth(a[1..], b);
    }
  }

  lemma {:induction false} PartTextsBoth(a: seq<Value>, b: seq<Value>)
    ensures PartTexts(a + b) == PartTexts(a) + PartTexts(b)
  {
    hide Get;
    if a == [] {
      assert a + b == b;
    } else {
      assert (a + b)[1..] == a[1..] + b;
      PartTextsBoth(a[1..], b);
    }
  }

  lemma {:induction false} SystemSaidBoth(a: seq<Value>, b: seq<Value>)
    ensures SystemSaid(a + b) == SystemSaid(a) + SystemSaid(b)
  {
    hide PartTexts, Get;
    if a == [] {
      assert a + b == b;
    } else {
      assert (a + b)[1..] == a[1..] + b;
      SystemSaidBoth(a[1..], b);
    }
  }

  lemma {:induction false} LinedIsJoin(texts: seq<string>)
    ensures Join(texts) == Lined(texts)
  {
    if texts != [] {
      LinedIsJoin(texts[1..]);
      assert |texts| == 1 ==> texts[0] + "" == texts[0];
    }
  }

  lemma {:induction false} TextsAreBlockTexts(blocks: seq<Value>)
    ensures Texts(blocks) == BlockTexts(blocks)
  {
    if blocks != [] {
      var (pre, b) := (blocks[..|blocks| - 1], blocks[|blocks| - 1]);
      TextsAreBlockTexts(pre);
      BlockTextsBoth(pre, [b]);
      assert pre + [b] == blocks && [b][1..] == [];
    }
  }

  lemma {:induction false} TextsAreParts(parts: seq<Value>)
    ensures TextsOrStrings(parts) == PartTexts(parts)
  {
    if parts != [] {
      var (pre, p) := (parts[..|parts| - 1], parts[|parts| - 1]);
      TextsAreParts(pre);
      PartTextsBoth(pre, [p]);
      assert pre + [p] == parts && [p][1..] == [];
    }
  }

  lemma SystemTextIsRead(body: Value, render: Render)
    ensures SystemText(body, render) == Lined(SystemTexts(body, render))
  {
    var system := Get(body, "system");
    if system.Some? && system.value.Arr? {
      TextsAreBlockTexts(system.value.items);
      LinedIsJoin(BlockTexts(system.value.items));
    }
  }

  lemma OneSystem(m: Value)
    ensures SystemSaid([m]) == if RoleOf(m) == "system" then SystemPieces(Get(m, "content").GetOr(Null)) else []
  {
    assert [m][1..] == [];
    var content := Get(m, "content").GetOr(Null);
    if content.Arr? {
      TextsAreParts(content.items);
    }
    hide PartTexts, TextsOrStrings;
  }

  lemma {:induction false} SystemPartsAreSaid(ms: seq<Value>)
    ensures SystemParts(ms) == SystemSaid(ms)
  {
    if ms != [] {
      hide SystemPieces, RoleOf, Get;
      var (pre, m) := (ms[..|ms| - 1], ms[|ms| - 1]);
      SystemPartsAreSaid(pre);
      SystemSaidBoth(pre, [m]);
      OneSystem(m);
      assert pre + [m] == ms;
    }
  }

  /** For every Anthropic body: the OpenAI messages open with a system message that
      holds all of its system texts, joined by newlines, and with none exactly where
      they join to nothing. */
  lemma SystemComesFirst(body: Value, model: string, render: Render)
    ensures var sys := Lined(SystemTexts(body, render));
      Get(ToOpenAi(body, model, render), "messages") == Some(Arr(
        (if sys == "" then [] else [Obj(map["role" := Str("system"), "content" := Str(sys)])])
        + AllMessages(AsArr(Get(body, "messages")).GetOr([]), render)))
  {
    SystemTextIsRead(body, render);
    hide SystemText, SystemTexts, AllMessages, ToolsToOpenAi, Lined;
  }

  /** For every OpenAI body: the Anthropic `system` holds all that its system messages
      say, joined by newlines, and is there exactly where one says something. */
  lemma SystemIsGathered(body: Value, model: string)
    ensures var said := SystemSaid(AsArr(Get(body, "messages")).GetOr([]));
      Get(ToAnthropic(body, model), "system") == if said == [] then None else Some(Str(Lined(said)))
  {
    var ms := AsArr(Get(body, "messages")).GetOr([]);
    SystemPartsAreSaid(ms);
    LinedIsJoin(SystemSaid(ms));
    hide SystemParts, SystemSaid, OtherMessages, Join, Lined, ToolsToAnthropic;
  }

  /** Two system blocks become one message of two lines. */
  lemma SystemBlocksAreJoined(render: Render)
    ensures var (a, b) := (TextPart("a"), TextPart("b"));
      var body := Obj(map["system" := Arr([a, b])]);
      Get(ToOpenAi(body, "m", render), "messages")
        == Some(Arr([Obj(map["role" := Str("system"), "content" := Str("a\nb")])]))
  {
    var (a, b) := (TextPart("a"), TextPart("b"));
    var body := Obj(map["system" := Arr([a, b])]);
    SystemComesFirst(body, "m", render);
    assert [a, b][1..] == [b] && [b][1..] == [];
    assert BlockTexts([b]) == ["b"] && BlockTexts([a, b]) == ["a"] + ["b"] == ["a", "b"];
    assert ["a", "b"][1..] == ["b"] && Lined(["b"]) == "b" + "" == "b";
    assert Lined(["a", "b"]) == "a" + ("\n" + "b") == "a\nb";
    assert Get(body, "messages") == None && AllMessages([], render) == [];
    hide ToOpenAi;
    var head := Obj(map["role" := Str("system"), "content" := Str("a\nb")]);
    assert [head] + [] == [head];
  }

  // ---- Tools ----

  /** A tool use, in either protocol; `args` is its input as sent. */
  datatype Use = Use(id: string, name: string, args: string)

  /** The text a tool gave back. */
  datatype Result = Result(id: string, text: string)

  function TextAt(v: Value, key: string): string {
    var t := Get(v, key);
    if t.Some? && t.value.Str? then t.value.s else ""
  }

  function UseIn(block: Value, render: Render): seq<Use> {
    if Get(block, "type") != Some(Str("tool_use")) then []
    else [Use(TextAt(block, "id"), TextAt(block, "name"), render(Get(block, "input").GetOr(Obj(map[]))))]
  }

  function ResultIn(block: Value): seq<Result> {
    if Get(block, "type") != Some(Str("tool_result")) then []
    else [Result(TextAt(block, "tool_use_id"), TextAt(block, "content"))]
  }

  function UsesIn(blocks: seq<Value>, render: Render): seq<Use> {
    if blocks == [] then [] else UsesIn(blocks[..|blocks| - 1], render) + UseIn(blocks[|blocks| - 1], render)
  }

  function ResultsIn(blocks: seq<Value>): seq<Result> {
    if blocks == [] then [] else ResultsIn(blocks[..|blocks| - 1]) + ResultIn(blocks[|blocks| - 1])
  }

  /** The blocks of an Anthropic message. */
  function BlocksOf(m: Value): seq<Value> {
    AsArr(Get(m, "content")).GetOr([])
  }

  function AllUses(ms: seq<Value>, render: Render): seq<Use> {
    if ms == [] then [] else AllUses(ms[..|ms| - 1], render) + UsesIn(BlocksOf(ms[|ms| - 1]), render)
  }

  function AllResults(ms: seq<Value>): seq<Result> {
    if ms == [] then [] else AllResults(ms[..|ms| - 1]) + ResultsIn(BlocksOf(ms[|ms| - 1]))
  }

  /** One element of an OpenAI message's `tool_calls`. */
  function CallOf(call: Value): Use {
    var f := Get(call, "function").GetOr(Null);
    Use(TextAt(call, "id"), TextAt(f, "name"), TextAt(f, "arguments"))
  }

  function Calls(calls: seq<Value>): seq<Use> {
    seq(|calls|, i requires 0 <= i < |calls| => CallOf(calls[i]))
  }

  function CallsOf(m: Value): seq<Use> {
    Calls(AsArr(Get(m, "tool_calls")).GetOr([]))
  }

  /** A message that carries a tool's id gives back its text. */
  function ReplyOf(m: Value): seq<Result> {
    if Get(m, "tool_call_id").None? then [] else [Result(TextAt(m, "tool_call_id"), TextAt(m, "content"))]
  }

  function AllCalls(ms: seq<Value>): seq<Use> {
    if ms == [] then [] else AllCalls(ms[..|ms| - 1]) + CallsOf(ms[|ms| - 1])
  }

  function AllReplies(ms: seq<Value>): seq<Result> {
    if ms == [] then [] else AllReplies(ms[..|ms| - 1]) + ReplyOf(ms[|ms| - 1])
  }

  lemma {:induction false} CallsBoth(a: seq<Value>, b: seq<Value>)
    ensures AllCalls(a + b) == AllCalls(a) + AllCalls(b)
    ensures AllReplies(a + b) == AllReplies(a) + AllReplies(b)
  {
    hide CallsOf, ReplyOf;
    if b == [] {
      assert a + b == a;
    } else {
      var (pre, m) := (b[..|b| - 1], b[|b| - 1]);
      assert (a + b)[..|a + b| - 1] == a + pre;
      CallsBoth(a, pre);
      Associates(AllCalls(a), AllCalls(pre), CallsOf(m));
      Associates(AllReplies(a), AllReplies(pre), ReplyOf(m));
    }
  }

  lemma OneMessageTools(m: Value)
    ensures AllCalls([m]) == CallsOf(m) && AllReplies([m]) == ReplyOf(m)
  {
    hide CallsOf, ReplyOf;
    assert [m][..0] == [] && [] + CallsOf(m) == CallsOf(m) && [] + ReplyOf(m) == ReplyOf(m);
  }

  lemma CallIsUse(block: Value, render: Render)
    requires Get(block, "type") == Some(Str("tool_use"))
    ensures [CallOf(ToolCallOf(block, render))] == UseIn(block, render)
    ensures StrField(ToolCallOf(block, render), "type") == Some("function")
  {
  }

  lemma ReplyIsResult(block: Value)
    requires Get(block, "type") == Some(Str("tool_result"))
    ensures ReplyOf(ToolResultOf(block)) == ResultIn(block) && CallsOf(ToolResultOf(block)) == []
    ensures StrField(ToolResultOf(block), "role") == Some("tool")
  {
  }

  lemma {:induction false} CallsAreUses(blocks: seq<Value>, render: Render)
    ensures Calls(ToolCalls(blocks, render)) == UsesIn(blocks, render)
  {
    if blocks != [] {
      hide CallOf, ToolCallOf, UseIn;
      var (pre, b) := (blocks[..|blocks| - 1], blocks[|blocks| - 1]);
      CallsAreUses(pre, render);
      CallOrNone(b, render);
      if StrField(b, "type") == Some("tool_use") {
        var calls := ToolCalls(pre, render);
        assert Calls(calls + [ToolCallOf(b, render)]) == Calls(calls) + [CallOf(ToolCallOf(b, render))];
      } else {
        assert ToolCalls(pre, render) + [] == ToolCalls(pre, render);
      }
    }
  }

  lemma CallOrNone(block: Value, render: Render)
    ensures StrField(block, "type") == Some("tool_use") ==> UseIn(block, render) == [CallOf(ToolCallOf(block, render))]
    ensures StrField(block, "type") != Some("tool_use") ==> UseIn(block, render) == []
  {
    if StrField(block, "type") == Some("tool_use") {
      CallIsUse(block, render);
    }
    hide CallOf, ToolCallOf;
  }

  lemma {:induction false} RepliesAreResults(blocks: seq<Value>)
    ensures AllReplies(ToolResults(blocks)) == ResultsIn(blocks) && AllCalls(ToolResults(blocks)) == []
  {
    if blocks != [] {
      hide ReplyOf, CallsOf, ToolResultOf, ResultIn;
      var (pre, b) := (blocks[..|blocks| - 1], blocks[|blocks| - 1]);
      RepliesAreResults(pre);
      ReplyOrNone(b);
      if StrField(b, "type") == Some("tool_result") {
        CallsBoth(ToolResults(pre), [ToolResultOf(b)]);
        OneMessageTools(ToolResultOf(b));
      } else {
        assert ToolResults(pre) + [] == ToolResults(pre);
      }
    }
  }

  lemma ReplyOrNone(block: Value)
    ensures StrField(block, "type") == Some("tool_result") ==>
      ResultIn(block) == ReplyOf(ToolResultOf(block)) && CallsOf(ToolResultOf(block)) == []
    ensures StrField(block, "type") != Some("tool_result") ==> ResultIn(block) == []
  {
    if StrField(block, "type") == Some("tool_result") {
      ReplyIsResult(block);
    }
    hide ReplyOf, CallsOf, ToolResultOf;
  }

  lemma SpokenTools(role: Value, content: Value, calls: seq<Value>)
    ensures var m := Obj(Put(map["role" := role, "content" := content],
                             "tool_calls", if calls == [] then None else Some(Arr(calls))));
      CallsOf(m) == Calls(calls) && ReplyOf(m) == []
  {
    hide CallOf;
  }

  lemma MessageTools(m: Value, render: Render)
    ensures AllCalls(MessagesOf(m, render)) == UsesIn(BlocksOf(m), render)
    ensures AllReplies(MessagesOf(m, render)) == ResultsIn(BlocksOf(m))
  {
    var content := Get(m, "content").GetOr(Null);
    hide CallsOf, ReplyOf, UsesIn, ResultsIn, Calls;
    NoTools(render);
    if content.Str? {
      SpokenTools(Str(RoleOf(m)), content, []);
      OneMessageTools(Obj(map["role" := Str(RoleOf(m)), "content" := content]));
    } else if content.Arr? {
      assert BlocksOf(m) == content.items;
      BlockTools(content.items, RoleOf(m), render);
    }
  }

  lemma NoTools(render: Render)
    ensures UsesIn([], render) == [] && ResultsIn([]) == [] && Calls([]) == []
    ensures AllCalls([]) == [] && AllReplies([]) == []
  {
  }

  lemma BlockTools(blocks: seq<Value>, role: string, render: Render)
    ensures var (parts, calls) := (Parts(blocks), ToolCalls(blocks, render));
      var ms := ToolResults(blocks)
        + if parts == [] && calls == [] then []
          else [Obj(Put(map["role" := Str(role), "content" := ContentOf(parts)],
                        "tool_calls", if calls == [] then None else Some(Arr(calls))))];
      AllCalls(ms) == UsesIn(blocks, render) && AllReplies(ms) == ResultsIn(blocks)
  {
    hide CallsOf, ReplyOf, UsesIn, ResultsIn, Calls, Parts, ToolCalls, ToolResults, ContentOf, AllCalls, AllReplies;
    var (parts, calls) := (Parts(blocks), ToolCalls(blocks, render));
    RepliesAreResults(blocks);
    CallsAreUses(blocks, render);
    NoTools(render);
    if parts == [] && calls == [] {
      assert ToolResults(blocks) + [] == ToolResults(blocks);
    } else {
      var m := Obj(Put(map["role" := Str(role), "content" := ContentOf(parts)],
                       "tool_calls", if calls == [] then None else Some(Arr(calls))));
      SpokenTools(Str(role), ContentOf(parts), calls);
      OneMessageTools(m);
      CallsBoth(ToolResults(blocks), [m]);
      assert [] + Calls(calls) == Calls(calls) && ResultsIn(blocks) + [] == ResultsIn(blocks);
    }
  }

  /** For every list of Anthropic messages: the OpenAI messages call every tool used,
      with its id, name and rendered input, and give back every result, in order. */
  lemma {:induction false} ToolsAreCarried(ms: seq<Value>, render: Render)
    ensures AllCalls(AllMessages(ms, render)) == AllUses(ms, render)
    ensures AllReplies(AllMessages(ms, render)) == AllResults(ms)
  {
    if ms != [] {
      hide MessagesOf, UsesIn, ResultsIn, CallsOf, ReplyOf;
      var (pre, m) := (ms[..|ms| - 1], ms[|ms| - 1]);
      ToolsAreCarried(pre, render);
      MessageTools(m, render);
      CallsBoth(AllMessages(pre, render), MessagesOf(m, render));
    }
  }

  // ---- The rest of a body ----

  /** Each translation asks for the model it is given. */
  lemma ModelIsAsked(body: Value, model: string, render: Render)
    ensures Get(ToOpenAi(body, model, render), "model") == Some(Str(model))
    ensures Get(ToAnthropic(body, model), "model") == Some(Str(model))
  {
    OpenAiModel(body, model, render);
    AnthropicModel(body, model);
    hide ToOpenAi, ToAnthropic;
  }

  lemma OpenAiModel(body: Value, model: string, render: Render)
    ensures Get(ToOpenAi(body, model, render), "model") == Some(Str(model))
  {
    hide SystemText, AllMessages, ToolsToOpenAi;
  }

  lemma AnthropicModel(body: Value, model: string)
    ensures Get(ToAnthropic(body, model), "model") == Some(Str(model))
  {
    hide SystemParts, OtherMessages, Join, ToolsToAnthropic;
  }

  /** On the way to Anthropic `top_p` is kept. */
  lemma TopPIsSent(body: Value, model: string)
    ensures Get(ToAnthropic(body, model), "top_p") == Get(body, "top_p")
  {
    hide SystemParts, OtherMessages, Join, ToolsToAnthropic;
  }

  lemma LimitIsFilledIn(body: Value, model: string)
    requires Get(body, "max_tokens").None? && Get(body, "max_completion_tokens").None?
    ensures Get(ToAnthropic(body, model), "max_tokens") == Some(Num(1024.0))
  {
    hide SystemParts, OtherMessages, Join, ToolsToAnthropic;
  }

  /** A tool without a schema takes any object; it is a function on the OpenAI side. */
  lemma ToolDefaults(t: Value)
    ensures Get(ToolToOpenAi(t), "type") == Some(Str("function"))
    ensures Get(t, "input_schema").None? ==>
      Get(Get(ToolToOpenAi(t), "function").GetOr(Null), "parameters") == Some(Obj(map["type" := Str("object")]))
    ensures Get(t, "parameters").None? ==>
      Get(ToolToAnthropic(t), "input_schema") == Some(Obj(map["type" := Str("object")]))
  {
  }

  /** Tool calls of an OpenAI message stay on the Anthropic one, where nothing reads them. */
  lemma ToolCallsStay(m: Value)
    ensures Get(MessageToAnthropic(m), "tool_calls") == Get(m, "tool_calls")
  {
    hide Blocks;
  }

  ghost predicate IsIn(m: Value, role: string) {
    StrField(m, "role") == Some(role)
  }

  /** A message without a role is the user's, on either side. */
  lemma MissingRoleIsUser(m: Value, render: Render)
    requires Get(m, "role").None?
    ensures IsIn(MessageToAnthropic(m), "user")
    ensures var out := MessagesOf(m, render);
      forall i :: 0 <= i < |out| ==> IsIn(out[i], "user") || IsIn(out[i], "tool")
  {
    hide Blocks, Parts, ToolCalls, ContentOf, ToolResults;
    assert RoleOf(m) == "user";
    var content := Get(m, "content").GetOr(Null);
    if content.Arr? {
      ResultsAreTool(content.items);
      var out := MessagesOf(m, render);
      forall i | |ToolResults(content.items)| <= i < |out| ensures IsIn(out[i], "user") {
      }
    }
  }

  lemma {:induction false} ResultsAreTool(blocks: seq<Value>)
    ensures forall i :: 0 <= i < |ToolResults(blocks)| ==> IsIn(ToolResults(blocks)[i], "tool")
  {
    if blocks != [] {
      ResultsAreTool(blocks[..|blocks| - 1]);
      assert IsIn(ToolResultOf(blocks[|blocks| - 1]), "tool");
    }
  }

  /** Tool calls alone are sent with null content. */
  lemma CallsWithoutContent(m: Value, blocks: seq<Value>, render: Render)
    requires Get(m, "content") == Some(Arr(blocks)) && Parts(blocks) == [] && ToolCalls(blocks, render) != []
    ensures var out := MessagesOf(m, render);
      && out != [] && Get(out[|out| - 1], "content") == Some(Null)
      && Get(out[|out| - 1], "tool_calls") == Some(Arr(ToolCalls(blocks, render)))
  {
    hide Parts, ToolCalls, ToolResults;
  }

  /** Image data without a media type is taken for PNG. */
  lemma MediaTypeIsPng(block: Value, data: string)
    requires Get(block, "source") == Some(Obj(map["type" := Str("base64"), "data" := Str(data)]))
    ensures SourceOf(block) == Some(Base64("image/png", data))
  {
  }

  /** Only a part that says it is an image is read as one; a part that is neither text
      nor a readable image stays as it is. */
  lemma OtherPartsStay(p: Value)
    requires p.Obj? && StrField(p, "text").None?
    ensures StrField(p, "type") != Some("image_url") ==> BlockOf(p) == p
    ensures StrField(Get(p, "image_url").GetOr(Null), "url").None? ==> BlockOf(p) == p
  {
  }

  /** A source that is neither inline data nor an address is no image. */
  lemma OtherSourcesAreNone(block: Value)
    requires StrField(Get(block, "source").GetOr(Null), "type") !in [Some("base64"), Some("url")]
    ensures SourceOf(block).None?
  {
  }
}

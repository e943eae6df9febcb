/** When a request body says the same after translation to the other protocol
    and back. */
module RoundTrip {
  import opened Wrappers
  import opened Json
  import opened ImageUrls
  import opened Requests
  import opened Readers

  // ---- What an Anthropic body says ----

  datatype Piece =
    | TextPiece(text: string)
    | ImagePiece(source: Source)
    | ToolUsePiece(id: string, name: string, input: Value)
    | ToolResultPiece(id: string, content: Value)

  datatype Turn = Turn(role: string, pieces: seq<Piece>)

  datatype ToolDef = ToolDef(name: string, description: string, schema: Value)

  datatype Meaning = Meaning(
    system: string, turns: seq<Turn>, maxTokens: Option<Value>, temperature: Option<Value>,
    stops: Option<Value>, stream: Option<Value>, tools: Option<seq<ToolDef>>)

  /** Text, readable images, and tools; other blocks say nothing. */
  function PieceOf(block: Value): Option<Piece> {
    var kind := Text(StrField(block, "type"));
    if kind == "text" then
      var t := StrField(block, "text");
      if t.Some? then Some(TextPiece(t.value)) else None
    else if kind == "image" then
      var source := SourceOf(block);
      if source.Some? then Some(ImagePiece(source.value)) else None
    else if kind == "tool_use" then
      var input := Get(block, "input").GetOr(Obj(map[]));
      Some(ToolUsePiece(Text(StrField(block, "id")), Text(StrField(block, "name")), input))
    else if kind == "tool_result" then
      Some(ToolResultPiece(Text(StrField(block, "tool_use_id")), Get(block, "content").GetOr(Null)))
    else None
  }

  function Pieces(blocks: seq<Value>): seq<Piece> {
    if blocks == [] then []
    else
      var p := PieceOf(blocks[|blocks| - 1]);
      Pieces(blocks[..|blocks| - 1]) + if p.Some? then [p.value] else []
  }

  /** A plain string is one text piece. */
  function PiecesOf(m: Value): seq<Piece> {
    var content := Get(m, "content").GetOr(Null);
    if content.Str? then [TextPiece(content.s)]
    else if content.Arr? then Pieces(content.items)
    else []
  }

  /** The turns that say something. */
  function Turns(ms: seq<Value>): seq<Turn> {
    if ms == [] then []
    else
      var m := ms[|ms| - 1];
      Turns(ms[..|ms| - 1]) + if PiecesOf(m) == [] then [] else [Turn(RoleOf(m), PiecesOf(m))]
  }

  function ToolDefOf(t: Value): ToolDef {
    ToolDef(Text(StrField(t, "name")), Text(StrField(t, "description")), Get(t, "input_schema").GetOr(EMPTY_SCHEMA))
  }

  function ToolDefs(ts: seq<Value>): seq<ToolDef> {
    seq(|ts|, i requires 0 <= i < |ts| => ToolDefOf(ts[i]))
  }

  function MeaningOf(body: Value, render: Render): Meaning {
    var tools := AsArr(Get(body, "tools"));
    Meaning(Lined(SystemTexts(body, render)), Turns(AsArr(Get(body, "messages")).GetOr([])),
            Get(body, "max_tokens"), Get(body, "temperature"), Get(body, "stop_sequences"), Get(body, "stream"),
            if tools.Some? then Some(ToolDefs(tools.value)) else None)
  }

  // ---- The fragment that comes back ----

  predicate IsTool(block: Value) {
    StrField(block, "type") == Some("tool_use") || StrField(block, "type") == Some("tool_result")
  }

  predicate PlainBlock(block: Value) {
    && !IsTool(block)
    && (StrField(block, "type") == Some("image") && SourceOf(block).Some? ==> Carried(SourceOf(block).value))
  }

  /** No tool blocks, images whose URL brings them back, and, if it says anything,
      not a system turn. */
  predicate PlainMessage(m: Value) {
    var content := Get(m, "content").GetOr(Null);
    && (PiecesOf(m) != [] ==> RoleOf(m) != "system")
    && (content.Arr? ==> forall i :: 0 <= i < |content.items| ==> PlainBlock(content.items[i]))
  }

  /** An OpenAI part and the piece it carries agree on being a text, and which. */
  predicate Corresponds(part: Value, piece: Piece) {
    && (StrField(part, "type") == Some("text") <==> piece.TextPiece?)
    && (piece.TextPiece? ==> Get(part, "text") == Some(Str(piece.text)))
  }

  lemma BlockComesBack(block: Value)
    requires PlainBlock(block)
    ensures PartOf(block).Some? <==> PieceOf(block).Some?
    ensures PartOf(block).Some? ==> PieceOf(BlockOf(PartOf(block).value)) == PieceOf(block)
    ensures PartOf(block).Some? ==> Corresponds(PartOf(block).value, PieceOf(block).value)
  {
    var kind := Text(StrField(block, "type"));
    if kind == "image" && SourceOf(block).Some? {
      ImageComesBack(SourceOf(block).value);
    }
  }

  lemma ImageComesBack(source: Source)
    requires Carried(source)
    ensures PieceOf(BlockOf(UrlPart(ToUrl(source)))) == Some(ImagePiece(source))
  {
    hide ToUrl, FromUrl, Carried, SourceOf, SourceBlock, BlockOf;
    RoundTripsIff(source);
    UrlPartBack(ToUrl(source));
    SourceBlockRead(source);
  }

  lemma UrlPartBack(url: string)
    requires FromUrl(url).Some?
    ensures BlockOf(UrlPart(url)) == SourceBlock(FromUrl(url).value)
  {
    hide FromUrl, SourceBlock;
  }

  lemma SourceBlockRead(source: Source)
    ensures StrField(SourceBlock(source), "type") == Some("image") && SourceOf(SourceBlock(source)) == Some(source)
  {
  }

  lemma {:induction false} BlocksComeBack(blocks: seq<Value>)
    requires forall i :: 0 <= i < |blocks| ==> PlainBlock(blocks[i])
    ensures |Parts(blocks)| == |Pieces(blocks)|
    ensures Pieces(Blocks(Parts(blocks))) == Pieces(blocks)
    ensures forall i :: 0 <= i < |Parts(blocks)| ==> Corresponds(Parts(blocks)[i], Pieces(blocks)[i])
  {
    if blocks == [] {
      return;
    }
    hide PartOf, PieceOf, BlockOf, PlainBlock, Corresponds;
    var (pre, b) := (blocks[..|blocks| - 1], blocks[|blocks| - 1]);
    BlocksComeBack(pre);
    BlockComesBack(b);
    if PartOf(b).Some? {
      BlocksExtend(Parts(pre), PartOf(b).value);
    } else {
      assert Parts(blocks) == Parts(pre) && Pieces(blocks) == Pieces(pre);
    }
  }

  lemma BlocksExtend(ps: seq<Value>, p: Value)
    ensures Pieces(Blocks(ps + [p])) ==
      Pieces(Blocks(ps)) + if PieceOf(BlockOf(p)).Some? then [PieceOf(BlockOf(p)).value] else []
  {
    hide PieceOf, BlockOf;
    assert Blocks(ps + [p])[..|ps|] == Blocks(ps);
  }

  lemma {:induction false} PlainHasNoTools(blocks: seq<Value>, render: Render)
    requires forall i :: 0 <= i < |blocks| ==> PlainBlock(blocks[i])
    ensures ToolCalls(blocks, render) == [] && ToolResults(blocks) == []
  {
    if blocks != [] {
      PlainHasNoTools(blocks[..|blocks| - 1], render);
    }
  }

  /** A message becomes no message when it says nothing, and otherwise one that,
      translated back, says the same in the same role. */
  lemma MessageComesBack(m: Value, render: Render)
    requires PlainMessage(m)
    ensures var ms := MessagesOf(m, render);
      if PiecesOf(m) == [] then ms == []
      else |ms| == 1 && RoleOf(ms[0]) == RoleOf(m)
           && RoleOf(MessageToAnthropic(ms[0])) == RoleOf(m) && PiecesOf(MessageToAnthropic(ms[0])) == PiecesOf(m)
  {
    var content := Get(m, "content").GetOr(Null);
    if content.Str? {
      TextMessage(RoleOf(m), content.s);
    } else if content.Arr? {
      BlocksComeBack(content.items);
      PlainHasNoTools(content.items, render);
      var (parts, pieces) := (Parts(content.items), Pieces(content.items));
      if |parts| == 1 && pieces[0].TextPiece? {
        assert ContentOf(parts) == Str(pieces[0].text);
        TextMessage(RoleOf(m), pieces[0].text);
        assert pieces == [TextPiece(pieces[0].text)];
      } else if parts != [] {
        assert ContentOf(parts) == Arr(parts);
        PartsMessage(RoleOf(m), parts);
      }
    }
  }

  lemma TextMessage(role: string, text: string)
    ensures var m := Obj(map["role" := Str(role), "content" := Str(text)]);
      && RoleOf(m) == role && RoleOf(MessageToAnthropic(m)) == role
      && PiecesOf(MessageToAnthropic(m)) == [TextPiece(text)]
  {
  }

  lemma PartsMessage(role: string, parts: seq<Value>)
    ensures var m := Obj(map["role" := Str(role), "content" := Arr(parts)]);
      && RoleOf(m) == role && RoleOf(MessageToAnthropic(m)) == role
      && PiecesOf(MessageToAnthropic(m)) == Pieces(Blocks(parts))
  {
  }

  lemma {:induction false} OtherMessagesBoth(a: seq<Value>, b: seq<Value>)
    ensures OtherMessages(a + b) == OtherMessages(a) + OtherMessages(b)
    ensures SystemParts(a + b) == SystemParts(a) + SystemParts(b)
  {
    hide RoleOf, MessageToAnthropic, SystemPieces;
    if b == [] {
      assert a + b == a;
    } else {
      var (pre, m) := (b[..|b| - 1], b[|b| - 1]);
      assert (a + b)[..|a + b| - 1] == a + pre;
      OtherMessagesBoth(a, pre);
      Associates(OtherMessages(a), OtherMessages(pre), if RoleOf(m) == "system" then [] else [MessageToAnthropic(m)]);
      Associates(SystemParts(a), SystemParts(pre),
                 if RoleOf(m) == "system" then SystemPieces(Get(m, "content").GetOr(Null)) else []);
    }
  }

  lemma OneMessage(m: Value)
    ensures OtherMessages([m]) == (if RoleOf(m) == "system" then [] else [MessageToAnthropic(m)])
    ensures SystemParts([m]) == (if RoleOf(m) == "system" then SystemPieces(Get(m, "content").GetOr(Null)) else [])
  {
    assert [m][..0] == [];
  }

  lemma {:induction false} TurnsComeBack(ms: seq<Value>, render: Render)
    requires forall i :: 0 <= i < |ms| ==> PlainMessage(ms[i])
    ensures Turns(OtherMessages(AllMessages(ms, render))) == Turns(ms)
    ensures SystemParts(AllMessages(ms, render)) == []
  {
    if ms == [] {
      return;
    }
    hide MessagesOf, PlainMessage, MessageToAnthropic, PiecesOf, RoleOf;
    var (pre, m) := (ms[..|ms| - 1], ms[|ms| - 1]);
    TurnsComeBack(pre, render);
    MessageComesBack(m, render);
    SaysNoSystem(m);
    var (as_, bs) := (AllMessages(pre, render), MessagesOf(m, render));
    OtherMessagesBoth(as_, bs);
    if bs == [] {
      assert as_ + bs == as_;
    } else {
      assert bs == [bs[0]];
      OneMessage(bs[0]);
      var others := OtherMessages(as_);
      assert (others + [MessageToAnthropic(bs[0])])[..|others|] == others;
    }
  }

  lemma SaysNoSystem(m: Value)
    requires PlainMessage(m)
    ensures PiecesOf(m) != [] ==> RoleOf(m) != "system"
  {
  }

  lemma {:induction false} ToolsComeBack(ts: seq<Value>)
    ensures |ToolsToAnthropic(ToolsToOpenAi(ts))| == |ts|
    ensures ToolDefs(ToolsToAnthropic(ToolsToOpenAi(ts))) == ToolDefs(ts)
  {
    hide ToolToOpenAi, ToolToAnthropic, ToolDefOf;
    if ts != [] {
      var (pre, t) := (ts[..|ts| - 1], ts[|ts| - 1]);
      ToolsComeBack(pre);
      ToolComesBack(t);
      assert ToolsToOpenAi(ts)[..|pre|] == ToolsToOpenAi(pre);
      assert ToolDefs(ts) == ToolDefs(pre) + [ToolDefOf(t)];
    }
  }

  lemma ToolComesBack(t: Value)
    ensures var f := Get(ToolToOpenAi(t), "function");
      f.Some? && ToolDefOf(ToolToAnthropic(f.value)) == ToolDefOf(t)
  {
  }

  ghost predicate PlainBody(body: Value) {
    AllPlain(AsArr(Get(body, "messages")).GetOr([]))
  }

  function OpenAiMessages(body: Value, render: Render): seq<Value> {
    var sys := SystemText(body, render);
    (if sys == "" then [] else [Obj(map["role" := Str("system"), "content" := Str(sys)])])
    + AllMessages(AsArr(Get(body, "messages")).GetOr([]), render)
  }

  lemma OpenAiContent(body: Value, model: string, render: Render)
    ensures Get(ToOpenAi(body, model, render), "messages") == Some(Arr(OpenAiMessages(body, render)))
  {
    hide SystemText, AllMessages, ToolsToOpenAi;
  }

  lemma OpenAiLimits(body: Value, model: string, render: Render)
    ensures var out := ToOpenAi(body, model, render);
      && Get(out, "max_tokens") == Get(body, "max_tokens") && Get(out, "max_completion_tokens") == None
      && Get(out, "top_p") == None
  {
    hide SystemText, AllMessages, ToolsToOpenAi;
  }

  lemma OpenAiSettings(body: Value, model: string, render: Render)
    ensures var out := ToOpenAi(body, model, render);
      var tools := AsArr(Get(body, "tools"));
      && Get(out, "temperature") == Get(body, "temperature")
      && Get(out, "stop") == Get(body, "stop_sequences") && Get(out, "stream") == Get(body, "stream")
      && Get(out, "tools") == (if tools.Some? then Some(Arr(ToolsToOpenAi(tools.value))) else None)
  {
    hide SystemText, AllMessages, ToolsToOpenAi;
  }

  lemma AnthropicContent(body: Value, model: string)
    ensures Get(ToAnthropic(body, model), "messages") ==
      Some(Arr(OtherMessages(AsArr(Get(body, "messages")).GetOr([]))))
  {
    hide SystemParts, OtherMessages, Join, ToolsToAnthropic;
  }

  lemma AnthropicSystem(body: Value, model: string)
    ensures var sys := SystemParts(AsArr(Get(body, "messages")).GetOr([]));
      Get(ToAnthropic(body, model), "system") == if sys == [] then None else Some(Str(Join(sys)))
  {
    hide SystemParts, OtherMessages, Join, ToolsToAnthropic;
  }

  lemma AnthropicLimit(body: Value, model: string)
    ensures Get(ToAnthropic(body, model), "max_tokens") ==
      if Get(body, "max_tokens").Some? then Get(body, "max_tokens")
      else if Get(body, "max_completion_tokens").Some? then Get(body, "max_completion_tokens")
      else Some(DEFAULT_MAX_TOKENS)
  {
    hide SystemParts, OtherMessages, Join, ToolsToAnthropic;
  }

  lemma AnthropicSettings(body: Value, model: string)
    ensures var out := ToAnthropic(body, model);
      && Get(out, "temperature") == Get(body, "temperature")
      && Get(out, "stop_sequences") == Get(body, "stop") && Get(out, "stream") == Get(body, "stream")
  {
    hide SystemParts, OtherMessages, Join, ToolsToAnthropic;
  }

  lemma AnthropicTools(body: Value, model: string)
    ensures var tools := AsArr(Get(body, "tools"));
      Get(ToAnthropic(body, model), "tools") ==
        if tools.Some? then Some(Arr(ToolsToAnthropic(tools.value))) else None
  {
    hide SystemParts, OtherMessages, Join, ToolsToAnthropic;
  }

  /** The leading system message goes back to the system text alone. */
  lemma SystemHead(sys: string)
    ensures var head := Obj(map["role" := Str("system"), "content" := Str(sys)]);
      SystemParts([head]) == [sys] && OtherMessages([head]) == []
  {
    OneMessage(Obj(map["role" := Str("system"), "content" := Str(sys)]));
  }

  /** A system message at the head, or none, adds just its text. */
  lemma HeadAdds(sys: string, all: seq<Value>)
    ensures var head := if sys == "" then [] else [Obj(map["role" := Str("system"), "content" := Str(sys)])];
      && SystemParts(head + all) == (if sys == "" then [] else [sys]) + SystemParts(all)
      && OtherMessages(head + all) == OtherMessages(all)
  {
    hide SystemParts, OtherMessages;
    if sys == "" {
      assert [] + all == all && [] + SystemParts(all) == SystemParts(all);
    } else {
      SystemHead(sys);
      OtherMessagesBoth([Obj(map["role" := Str("system"), "content" := Str(sys)])], all);
      assert [] + OtherMessages(all) == OtherMessages(all);
    }
  }

  lemma OpenAiMessagesAre(body: Value, render: Render)
    ensures var (sys, ms) := (SystemText(body, render), OpenAiMessages(body, render));
      var all := AllMessages(AsArr(Get(body, "messages")).GetOr([]), render);
      && SystemParts(ms) == (if sys == "" then [] else [sys]) + SystemParts(all)
      && OtherMessages(ms) == OtherMessages(all)
  {
    hide SystemText, AllMessages, SystemParts, OtherMessages, AsArr, Get;
    HeadAdds(SystemText(body, render), AllMessages(AsArr(Get(body, "messages")).GetOr([]), render));
  }

  lemma MessagesComeBack(body: Value, render: Render)
    requires PlainBody(body)
    ensures var ms := OpenAiMessages(body, render);
      var sys := SystemText(body, render);
      && SystemParts(ms) == (if sys == "" then [] else [sys])
      && Turns(OtherMessages(ms)) == Turns(AsArr(Get(body, "messages")).GetOr([]))
  {
    hide OpenAiMessages, SystemText, AllMessages, SystemParts, OtherMessages, Turns, PlainMessage, AsArr, Get;
    OpenAiMessagesAre(body, render);
    TurnsComeBack(AsArr(Get(body, "messages")).GetOr([]), render);
    var sys := SystemText(body, render);
    assert (if sys == "" then [] else [sys]) + [] == if sys == "" then [] else [sys];
  }

  // ---- Nothing else comes back ----

  /** The turn a message is, if it says anything. */
  function OwnTurn(m: Value): seq<Turn> {
    if PiecesOf(m) == [] then [] else [Turn(RoleOf(m), PiecesOf(m))]
  }

  /** The turns it has become, once translated and back. */
  function BackTurns(m: Value, render: Render): seq<Turn> {
    Turns(OtherMessages(MessagesOf(m, render)))
  }

  /** Not a system turn, and no tools in it. */
  predicate Sayable(t: Turn) {
    t.role != "system" && forall i :: 0 <= i < |t.pieces| ==> t.pieces[i].TextPiece? || t.pieces[i].ImagePiece?
  }

  ghost predicate AllSayable(ts: seq<Turn>) {
    forall i :: 0 <= i < |ts| ==> Sayable(ts[i])
  }

  lemma {:induction false} TurnsBoth(a: seq<Value>, b: seq<Value>)
    ensures Turns(a + b) == Turns(a) + Turns(b)
  {
    hide PiecesOf;
    if b == [] {
      assert a + b == a;
    } else {
      assert (a + b)[..|a + b| - 1] == a + b[..|b| - 1];
      TurnsBoth(a, b[..|b| - 1]);
    }
  }

  lemma OneTurn(m: Value)
    ensures Turns([m]) == OwnTurn(m)
  {
    hide PiecesOf;
    assert [m][..0] == [] && [] + OwnTurn(m) == OwnTurn(m);
  }

  /** Translated messages hold texts and image URLs, nothing else. */
  predicate SimplePart(p: Value) {
    StrField(p, "text").Some? || (StrField(p, "type") == Some("image_url") && !p.Str?)
  }

  predicate SimpleMessage(m: Value) {
    var content := Get(m, "content").GetOr(Null);
    content.Arr? ==> forall i :: 0 <= i < |content.items| ==> SimplePart(content.items[i])
  }

  lemma {:induction false} PartsAreSimple(blocks: seq<Value>)
    ensures forall i :: 0 <= i < |Parts(blocks)| ==> SimplePart(Parts(blocks)[i])
  {
    if blocks != [] {
      PartsAreSimple(blocks[..|blocks| - 1]);
    }
  }

  lemma SimplePartSays(p: Value)
    requires SimplePart(p)
    ensures PieceOf(BlockOf(p)).Some? ==> PieceOf(BlockOf(p)).value.TextPiece? || PieceOf(BlockOf(p)).value.ImagePiece?
  {
    hide FromUrl;
  }

  lemma {:induction false} SimplePartsSay(ps: seq<Value>)
    requires forall i :: 0 <= i < |ps| ==> SimplePart(ps[i])
    ensures forall i :: 0 <= i < |Pieces(Blocks(ps))| ==>
      Pieces(Blocks(ps))[i].TextPiece? || Pieces(Blocks(ps))[i].ImagePiece?
  {
    hide SimplePart, PieceOf, BlockOf;
    if ps == [] {
      NothingSaid();
    } else {
      hide Pieces, Blocks;
      var (pre, p) := (ps[..|ps| - 1], ps[|ps| - 1]);
      SimplePartsSay(pre);
      SimplePartSays(p);
      BlocksExtend(pre, p);
      assert pre + [p] == ps;
    }
  }

  /** What an OpenAI message says in Anthropic's terms is what its blocks say. */
  lemma TranslatedSays(m: Value)
    ensures RoleOf(MessageToAnthropic(m)) == RoleOf(m)
    ensures var content := Get(m, "content").GetOr(Null);
      PiecesOf(MessageToAnthropic(m)) ==
        if content.Str? then [TextPiece(content.s)] else if content.Arr? then Pieces(Blocks(content.items)) else []
  {
    hide Blocks, Pieces;
  }

  lemma SimpleMessageSays(m: Value)
    requires SimpleMessage(m) && RoleOf(m) != "system"
    ensures AllSayable(OwnTurn(MessageToAnthropic(m)))
  {
    hide SimplePart, Blocks, Pieces, MessageToAnthropic;
    TranslatedSays(m);
    var content := Get(m, "content").GetOr(Null);
    if content.Arr? {
      SimplePartsSay(content.items);
    }
  }

  lemma {:induction false} SimpleMessagesSay(ms: seq<Value>)
    requires forall i :: 0 <= i < |ms| ==> SimpleMessage(ms[i])
    ensures AllSayable(Turns(OtherMessages(ms)))
  {
    hide SimpleMessage, Sayable;
    if ms != [] {
      hide AllSayable, Turns, OtherMessages;
      var (pre, m) := (ms[..|ms| - 1], ms[|ms| - 1]);
      assert pre + [m] == ms;
      SimpleMessagesSay(pre);
      OneMoreSays(pre, m);
    }
  }

  lemma OneMoreSays(pre: seq<Value>, m: Value)
    requires SimpleMessage(m) && AllSayable(Turns(OtherMessages(pre)))
    ensures AllSayable(Turns(OtherMessages(pre + [m])))
  {
    hide SimpleMessage, AllSayable, Turns, OtherMessages, MessageToAnthropic, OwnTurn, RoleOf;
    OtherMessagesBoth(pre, [m]);
    OneMessage(m);
    if RoleOf(m) == "system" {
      assert OtherMessages(pre) + [] == OtherMessages(pre);
    } else {
      SimpleMessageSays(m);
      TurnsBoth(OtherMessages(pre), [MessageToAnthropic(m)]);
      OneTurn(MessageToAnthropic(m));
      SayableBoth(Turns(OtherMessages(pre)), OwnTurn(MessageToAnthropic(m)));
    }
  }

  lemma SayableBoth(a: seq<Turn>, b: seq<Turn>)
    ensures AllSayable(a + b) <==> AllSayable(a) && AllSayable(b)
  {
    hide Sayable;
    var c := a + b;
    assert forall i :: 0 <= i < |a| ==> c[i] == a[i];
    assert forall i :: 0 <= i < |b| ==> c[|a| + i] == b[i];
  }

  lemma {:induction false} ResultsAreSimple(blocks: seq<Value>)
    ensures forall i :: 0 <= i < |ToolResults(blocks)| ==> SimpleMessage(ToolResults(blocks)[i])
  {
    if blocks != [] {
      ResultsAreSimple(blocks[..|blocks| - 1]);
    }
  }

  lemma MessagesAreSimple(m: Value, render: Render)
    ensures forall i :: 0 <= i < |MessagesOf(m, render)| ==> SimpleMessage(MessagesOf(m, render)[i])
  {
    var content := Get(m, "content").GetOr(Null);
    if content.Arr? {
      ResultsAreSimple(content.items);
      PartsAreSimple(content.items);
      hide Parts, ToolCalls, ToolResults, SimplePart;
      SpokenIsSimple(Parts(content.items), ToolCalls(content.items, render), RoleOf(m));
    }
  }

  lemma SpokenIsSimple(parts: seq<Value>, calls: seq<Value>, role: string)
    requires forall i :: 0 <= i < |parts| ==> SimplePart(parts[i])
    ensures SimpleMessage(Obj(Put(map["role" := Str(role), "content" := ContentOf(parts)],
                                  "tool_calls", if calls == [] then None else Some(Arr(calls)))))
  {
    hide SimplePart;
    if |parts| == 1 && StrField(parts[0], "type") == Some("text") {
      TextPartHoldsText(parts[0]);
    }
  }

  lemma TextPartHoldsText(p: Value)
    requires SimplePart(p) && StrField(p, "type") == Some("text")
    ensures !Get(p, "text").GetOr(Null).Arr?
  {
  }

  lemma {:induction false} AllAreSimple(ms: seq<Value>, render: Render)
    ensures forall i :: 0 <= i < |AllMessages(ms, render)| ==> SimpleMessage(AllMessages(ms, render)[i])
  {
    if ms != [] {
      hide SimpleMessage, MessagesOf;
      AllAreSimple(ms[..|ms| - 1], render);
      MessagesAreSimple(ms[|ms| - 1], render);
    }
  }

  lemma BlockBackIff(block: Value)
    requires !IsTool(block)
    ensures PartOf(block).Some? <==> PieceOf(block).Some?
    ensures PartOf(block).Some? && PieceOf(BlockOf(PartOf(block).value)) == PieceOf(block) ==> PlainBlock(block)
    ensures PartOf(block).None? ==> PlainBlock(block)
  {
    if StrField(block, "type") == Some("image") && SourceOf(block).Some? {
      var source := SourceOf(block).value;
      RoundTripsIff(source);
      hide SourceOf, FromUrl, ToUrl, Carried, SourceBlock;
      if FromUrl(ToUrl(source)).Some? {
        UrlPartBack(ToUrl(source));
        SourceBlockRead(FromUrl(ToUrl(source)).value);
      }
    }
  }

  lemma {:induction false} BlocksBack(blocks: seq<Value>)
    requires forall i :: 0 <= i < |blocks| ==> !IsTool(blocks[i])
    ensures |Parts(blocks)| == |Pieces(blocks)|
    ensures |Pieces(Blocks(Parts(blocks)))| <= |Pieces(blocks)|
    ensures Pieces(Blocks(Parts(blocks))) == Pieces(blocks) ==> forall i :: 0 <= i < |blocks| ==> PlainBlock(blocks[i])
  {
    if blocks == [] {
      return;
    }
    hide PartOf, PieceOf, BlockOf, PlainBlock, IsTool, Blocks, Pieces, Parts;
    var (pre, b) := (blocks[..|blocks| - 1], blocks[|blocks| - 1]);
    assert pre + [b] == blocks;
    BlocksBack(pre);
    BlockBackIff(b);
    PartsExtend(pre, b);
    if PartOf(b).Some? {
      BlocksExtend(Parts(pre), PartOf(b).value);
      var (back, own) := (PieceOf(BlockOf(PartOf(b).value)), PieceOf(b).value);
      SplitLast(Pieces(Blocks(Parts(pre))), if back.Some? then [back.value] else [], Pieces(pre), [own]);
    }
  }

  lemma PartsExtend(blocks: seq<Value>, b: Value)
    ensures Parts(blocks + [b]) == Parts(blocks) + if PartOf(b).Some? then [PartOf(b).value] else []
    ensures Pieces(blocks + [b]) == Pieces(blocks) + if PieceOf(b).Some? then [PieceOf(b).value] else []
    ensures PartOf(b).None? ==> Parts(blocks + [b]) == Parts(blocks)
    ensures PieceOf(b).None? ==> Pieces(blocks + [b]) == Pieces(blocks)
  {
    hide PartOf, PieceOf;
    assert (blocks + [b])[..|blocks|] == blocks;
  }

  /** No tools, and not a system turn unless silent. */
  predicate Speakable(m: Value) {
    var content := Get(m, "content").GetOr(Null);
    && (PiecesOf(m) != [] ==> RoleOf(m) != "system")
    && (content.Arr? ==> forall i :: 0 <= i < |content.items| ==> !IsTool(content.items[i]))
  }

  lemma {:induction false} NoToolsAmong(blocks: seq<Value>, render: Render)
    requires forall i :: 0 <= i < |blocks| ==> !IsTool(blocks[i])
    ensures ToolCalls(blocks, render) == [] && ToolResults(blocks) == []
  {
    if blocks != [] {
      NoToolsAmong(blocks[..|blocks| - 1], render);
    }
  }

  lemma {:induction false} ToolsArePieces(blocks: seq<Value>, i: nat)
    requires i < |blocks| && IsTool(blocks[i])
    ensures exists j :: 0 <= j < |Pieces(blocks)| && !Pieces(blocks)[j].TextPiece? && !Pieces(blocks)[j].ImagePiece?
    decreases |blocks|
  {
    var (pre, b) := (blocks[..|blocks| - 1], blocks[|blocks| - 1]);
    if i < |pre| {
      ToolsArePieces(pre, i);
      var j :| 0 <= j < |Pieces(pre)| && !Pieces(pre)[j].TextPiece? && !Pieces(pre)[j].ImagePiece?;
      assert Pieces(blocks)[j] == Pieces(pre)[j];
    } else {
      assert PieceOf(b).Some?;
      assert Pieces(blocks)[|Pieces(pre)|] == PieceOf(b).value;
    }
  }

  lemma SayableIsSpeakable(m: Value)
    requires AllSayable(OwnTurn(m))
    ensures Speakable(m)
  {
    hide IsTool, Pieces;
    if PiecesOf(m) != [] {
      assert Sayable(OwnTurn(m)[0]);
    }
    var content := Get(m, "content").GetOr(Null);
    if content.Arr? {
      forall i | 0 <= i < |content.items| ensures !IsTool(content.items[i]) {
        if IsTool(content.items[i]) {
          ToolsArePieces(content.items, i);
        }
      }
    }
  }

  /** What an array of tool-free blocks has become. */
  lemma SpokenBack(m: Value, render: Render)
    requires Speakable(m) && Get(m, "content").GetOr(Null).Arr?
    ensures var said := Pieces(Blocks(Parts(Get(m, "content").GetOr(Null).items)));
      BackTurns(m, render) == if said == [] then [] else [Turn(RoleOf(m), said)]
  {
    hide IsTool, ToolCalls, ToolResults, Parts, Pieces, PieceOf, Blocks;
    var items := Get(m, "content").GetOr(Null).items;
    NoToolsAmong(items, render);
    BlocksBack(items);
    PartsAreSimple(items);
    var parts := Parts(items);
    assert PiecesOf(m) == Pieces(items);
    if parts == [] {
      assert MessagesOf(m, render) == [];
      NothingSaid();
    } else {
      var msg := Obj(map["role" := Str(RoleOf(m)), "content" := ContentOf(parts)]);
      assert MessagesOf(m, render) == [msg];
      hide MessagesOf, Turns, OtherMessages, ContentOf, MessageToAnthropic, RoleOf, PiecesOf, SimplePart;
      MessageSays(RoleOf(m), parts);
      OneMessage(msg);
      OneTurn(MessageToAnthropic(msg));
    }
  }

  lemma NothingSaid()
    ensures Turns(OtherMessages([])) == [] && Pieces(Blocks([])) == []
  {
  }

  lemma MessageSays(role: string, parts: seq<Value>)
    requires parts != [] && forall i :: 0 <= i < |parts| ==> SimplePart(parts[i])
    ensures var msg := Obj(map["role" := Str(role), "content" := ContentOf(parts)]);
      && RoleOf(msg) == role && RoleOf(MessageToAnthropic(msg)) == role
      && PiecesOf(MessageToAnthropic(msg)) == Pieces(Blocks(parts))
  {
    if |parts| == 1 && StrField(parts[0], "type") == Some("text") {
      var text := StrField(parts[0], "text").value;
      TextMessage(role, text);
      assert Blocks(parts) == [TextPart(text)];
      OneText(text);
    } else {
      PartsMessage(role, parts);
    }
  }

  lemma OneText(text: string)
    ensures Pieces([TextPart(text)]) == [TextPiece(text)]
  {
    assert [TextPart(text)][..0] == [];
  }

  /** A speakable message comes back shorter or not at all, unless it is plain. */
  lemma MessageBack(m: Value, render: Render)
    requires Speakable(m)
    ensures |BackTurns(m, render)| <= |OwnTurn(m)|
    ensures BackTurns(m, render) == OwnTurn(m) ==> PlainMessage(m)
  {
    var content := Get(m, "content").GetOr(Null);
    if content.Arr? {
      hide IsTool, PlainBlock, Parts, Pieces, Blocks, BackTurns;
      SpokenBack(m, render);
      BlocksBack(content.items);
      assert PiecesOf(m) == Pieces(content.items);
      assert Pieces(Blocks(Parts(content.items))) != [] ==> Pieces(content.items) != [];
    } else if content.Str? {
      var msg := Obj(map["role" := Str(RoleOf(m)), "content" := content]);
      assert MessagesOf(m, render) == [msg];
      TextMessage(RoleOf(m), content.s);
      OneMessage(msg);
      OneTurn(MessageToAnthropic(msg));
    }
  }

  lemma BackExtends(ms: seq<Value>, m: Value, render: Render)
    ensures Turns(OtherMessages(AllMessages(ms + [m], render)))
      == Turns(OtherMessages(AllMessages(ms, render))) + BackTurns(m, render)
  {
    hide MessagesOf, OtherMessages, Turns;
    assert (ms + [m])[..|ms|] == ms;
    OtherMessagesBoth(AllMessages(ms, render), MessagesOf(m, render));
    TurnsBoth(OtherMessages(AllMessages(ms, render)), OtherMessages(MessagesOf(m, render)));
  }

  ghost predicate AllPlain(ms: seq<Value>) {
    forall i :: 0 <= i < |ms| ==> PlainMessage(ms[i])
  }

  ghost predicate AllSpeakable(ms: seq<Value>) {
    forall i :: 0 <= i < |ms| ==> Speakable(ms[i])
  }

  lemma OneMorePlain(ms: seq<Value>, m: Value)
    ensures AllPlain(ms + [m]) <==> AllPlain(ms) && PlainMessage(m)
    ensures AllSpeakable(ms + [m]) <==> AllSpeakable(ms) && Speakable(m)
  {
    hide PlainMessage, Speakable;
    var all := ms + [m];
    assert all[|ms|] == m && forall i :: 0 <= i < |ms| ==> all[i] == ms[i];
  }

  lemma {:induction false} MessagesBack(ms: seq<Value>, render: Render)
    requires AllSpeakable(ms)
    ensures |Turns(OtherMessages(AllMessages(ms, render)))| <= |Turns(ms)|
    ensures Turns(OtherMessages(AllMessages(ms, render))) == Turns(ms) ==> AllPlain(ms)
  {
    if ms == [] {
      return;
    }
    hide AllSpeakable, AllPlain, Turns, OtherMessages, AllMessages, BackTurns, OwnTurn;
    var (pre, m) := (ms[..|ms| - 1], ms[|ms| - 1]);
    assert pre + [m] == ms;
    OneMorePlain(pre, m);
    MessagesBack(pre, render);
    MessageBack(m, render);
    BackExtends(pre, m, render);
    TurnsBoth(pre, [m]);
    OneTurn(m);
    SplitLast(Turns(OtherMessages(AllMessages(pre, render))), BackTurns(m, render), Turns(pre), OwnTurn(m));
  }

  lemma {:induction false} SayableTurnsSpeak(ms: seq<Value>)
    requires AllSayable(Turns(ms))
    ensures AllSpeakable(ms)
  {
    hide Speakable, Turns, AllSayable, OwnTurn;
    if ms != [] {
      hide AllSpeakable, AllPlain;
      var (pre, m) := (ms[..|ms| - 1], ms[|ms| - 1]);
      assert pre + [m] == ms;
      OneMorePlain(pre, m);
      TurnsBoth(pre, [m]);
      OneTurn(m);
      SayableBoth(Turns(pre), OwnTurn(m));
      SayableTurnsSpeak(pre);
      SayableIsSpeakable(m);
    }
  }

  /** The turns come back exactly when every message is plain. */
  lemma TurnsComeBackIff(ms: seq<Value>, render: Render)
    ensures Turns(OtherMessages(AllMessages(ms, render))) == Turns(ms) <==> AllPlain(ms)
  {
    hide PlainMessage, Turns, OtherMessages, AllMessages, SimpleMessage, Speakable;
    if AllPlain(ms) {
      TurnsComeBack(ms, render);
    }
    if Turns(OtherMessages(AllMessages(ms, render))) == Turns(ms) {
      AllAreSimple(ms, render);
      SimpleMessagesSay(AllMessages(ms, render));
      SayableTurnsSpeak(ms);
      MessagesBack(ms, render);
    }
  }

  /** The system text and the turns of the body that comes back. */
  lemma OutSays(body: Value, first: string, second: string, render: Render)
    ensures var out := ToAnthropic(ToOpenAi(body, first, render), second);
      && Get(out, "messages") == Some(Arr(OtherMessages(OpenAiMessages(body, render))))
      && Turns(OtherMessages(OpenAiMessages(body, render)))
         == Turns(OtherMessages(AllMessages(AsArr(Get(body, "messages")).GetOr([]), render)))
  {
    hide ToOpenAi, ToAnthropic, OpenAiMessages, Turns, AllMessages, SystemText, OtherMessages, SystemParts;
    OpenAiContent(body, first, render);
    AnthropicContent(ToOpenAi(body, first, render), second);
    OpenAiMessagesAre(body, render);
  }

  function WithLimit(body: Value, meaning: Meaning): Meaning {
    meaning.(maxTokens := if Get(body, "max_tokens").Some? then Get(body, "max_tokens") else Some(DEFAULT_MAX_TOKENS))
  }

  /** For every body: it says the same after Anthropic to OpenAI and back, a
      missing `max_tokens` filled in, exactly when every message is plain. */
  lemma BodyComesBackIff(body: Value, first: string, second: string, render: Render)
    ensures MeaningOf(ToAnthropic(ToOpenAi(body, first, render), second), render) ==
      WithLimit(body, MeaningOf(body, render))
      <==> PlainBody(body)
  {
    hide ToOpenAi, ToAnthropic, Turns, OpenAiMessages, SystemText, ToolDefs, AllMessages, OtherMessages, PlainMessage;
    var ms := AsArr(Get(body, "messages")).GetOr([]);
    TurnsComeBackIff(ms, render);
    OutSays(body, first, second, render);
    if PlainBody(body) {
      BodyComesBack(body, first, second, render);
    }
  }

  /** The plain case: all of it comes back. */
  lemma BodyComesBack(body: Value, first: string, second: string, render: Render)
    requires PlainBody(body)
    ensures MeaningOf(ToAnthropic(ToOpenAi(body, first, render), second), render) ==
      WithLimit(body, MeaningOf(body, render))
  {
    hide ToOpenAi, ToAnthropic, OpenAiMessages, PlainBody, Turns, ToolDefs, ToolsToOpenAi, ToolsToAnthropic;
    hide SystemParts, OtherMessages;
    var mid := ToOpenAi(body, first, render);
    OpenAiContent(body, first, render);
    OpenAiLimits(body, first, render);
    OpenAiSettings(body, first, render);
    AnthropicContent(mid, second);
    AnthropicSystem(mid, second);
    AnthropicLimit(mid, second);
    AnthropicSettings(mid, second);
    AnthropicTools(mid, second);
    MessagesComeBack(body, render);
    var tools := AsArr(Get(body, "tools"));
    if tools.Some? {
      ToolsComeBack(tools.value);
    }
    var out := ToAnthropic(mid, second);
    SystemTextIsRead(out, render);
    SystemTextIsRead(body, render);
    hide SystemTexts, Lined;
    assert SystemText(out, render) == SystemText(body, render) by {
      var sys := SystemText(body, render);
      assert sys != "" ==> Join([sys]) == sys;
    }
  }

  /** A `top_p` does not survive: only the way back copies it. */
  lemma TopPIsLost(p: Value, render: Render)
    ensures Get(ToOpenAi(Obj(map["top_p" := p]), "m", render), "top_p") == None
  {
    OpenAiLimits(Obj(map["top_p" := p]), "m", render);
  }

  /** A system turn among the messages does not stay a turn. */
  lemma SystemTurnIsMoved(render: Render)
    ensures var m := Obj(map["role" := Str("system"), "content" := Str("x")]);
      Turns([m]) == [Turn("system", [TextPiece("x")])] && Turns(OtherMessages(AllMessages([m], render))) == []
  {
    var m := Obj(map["role" := Str("system"), "content" := Str("x")]);
    assert [m][..0] == [] && RoleOf(m) == "system" && PiecesOf(m) == [TextPiece("x")];
    assert MessagesOf(m, render) == [m];
    assert AllMessages([m], render) == [] + [m] && [] + [m] == [m];
    OneMessage(m);
  }
}

/** When an OpenAI request body says the same after translation to Anthropic and back. */
module OpenAiRoundTrip {
  import opened Wrappers
  import opened Json
  import opened ImageUrls
  import opened Requests
  import opened Readers
  import Anth = RoundTrip

  // ---- What an OpenAI body says ----

  /** A part of a message's content; what is neither text nor an image URL stands for itself. */
  datatype Piece = TextPiece(text: string) | ImagePiece(url: string) | OtherPiece(part: Value)

  datatype Turn = Turn(role: string, pieces: seq<Piece>, calls: Option<Value>, callId: Option<Value>)

  datatype Meaning = Meaning(
    system: string, turns: seq<Turn>, limit: Option<Value>, temperature: Option<Value>, topP: Option<Value>,
    stops: Option<Value>, stream: Option<Value>, tools: Option<seq<Anth.ToolDef>>)

  function UrlOf(p: Value): Option<string> {
    if StrField(p, "type") == Some("image_url") then StrField(Get(p, "image_url").GetOr(Null), "url") else None
  }

  function PieceOf(p: Value): Piece {
    var t := StrField(p, "text");
    if t.Some? then TextPiece(t.value)
    else if p.Str? then TextPiece(p.s)
    else if UrlOf(p).Some? then ImagePiece(UrlOf(p).value)
    else OtherPiece(p)
  }

  function Pieces(parts: seq<Value>): seq<Piece> {
    seq(|parts|, i requires 0 <= i < |parts| => PieceOf(parts[i]))
  }

  function PiecesOf(m: Value): seq<Piece> {
    var content := Get(m, "content").GetOr(Null);
    if content.Str? then [TextPiece(content.s)] else if content.Arr? then Pieces(content.items) else []
  }

  /** The turn a message is: system messages are none, nor are those that say nothing. */
  function OwnTurn(m: Value): seq<Turn> {
    var (calls, callId) := (Get(m, "tool_calls"), Get(m, "tool_call_id"));
    if RoleOf(m) == "system" || (PiecesOf(m) == [] && calls.None? && callId.None?) then []
    else [Turn(RoleOf(m), PiecesOf(m), calls, callId)]
  }

  function Turns(ms: seq<Value>): seq<Turn> {
    if ms == [] then [] else Turns(ms[..|ms| - 1]) + OwnTurn(ms[|ms| - 1])
  }

  /** The definitions of the tools that are functions. */
  function FunctionDefs(ts: seq<Value>): seq<Anth.ToolDef> {
    if ts == [] then []
    else
      var f := Get(ts[|ts| - 1], "function");
      FunctionDefs(ts[..|ts| - 1]) + if f.Some? then [DefOf(f.value)] else []
  }

  function DefOf(f: Value): Anth.ToolDef {
    Anth.ToolDef(Text(StrField(f, "name")), Text(StrField(f, "description")), Get(f, "parameters").GetOr(EMPTY_SCHEMA))
  }

  function MessagesIn(body: Value): seq<Value> {
    AsArr(Get(body, "messages")).GetOr([])
  }

  function LimitOf(body: Value): Option<Value> {
    if Get(body, "max_tokens").Some? then Get(body, "max_tokens") else Get(body, "max_completion_tokens")
  }

  function MeaningOf(body: Value): Meaning {
    var tools := AsArr(Get(body, "tools"));
    Meaning(Lined(SystemSaid(MessagesIn(body))), Turns(MessagesIn(body)), LimitOf(body),
            Get(body, "temperature"), Get(body, "top_p"), Get(body, "stop"), Get(body, "stream"),
            if tools.Some? then Some(FunctionDefs(tools.value)) else None)
  }

  // ---- The fragment that comes back ----

  predicate Returns(piece: Piece) {
    match piece
    case TextPiece(_) => true
    case ImagePiece(url) => FromUrl(url).Some? && ToUrl(FromUrl(url).value) == url
    case OtherPiece(_) => false
  }

  /** A system message, or one of texts and of images whose URL comes back, without
      tool calls and without a tool's id. */
  predicate Plain(m: Value) {
    RoleOf(m) == "system" ||
    (Get(m, "tool_calls").None? && Get(m, "tool_call_id").None?
     && forall i :: 0 <= i < |PiecesOf(m)| ==> Returns(PiecesOf(m)[i]))
  }

  ghost predicate AllPlain(ms: seq<Value>) {
    forall i :: 0 <= i < |ms| ==> Plain(ms[i])
  }

  /** The messages after the trip. */
  function Back(ms: seq<Value>, render: Render): seq<Value> {
    AllMessages(OtherMessages(ms), render)
  }

  function BackOf(m: Value, render: Render): seq<Value> {
    if RoleOf(m) == "system" then [] else MessagesOf(MessageToAnthropic(m), render)
  }

  lemma {:induction false} TurnsBoth(a: seq<Value>, b: seq<Value>)
    ensures Turns(a + b) == Turns(a) + Turns(b)
  {
    hide OwnTurn;
    if b == [] {
      assert a + b == a;
    } else {
      assert (a + b)[..|a + b| - 1] == a + b[..|b| - 1];
      TurnsBoth(a, b[..|b| - 1]);
      Associates(Turns(a), Turns(b[..|b| - 1]), OwnTurn(b[|b| - 1]));
    }
  }

  lemma OneTurn(m: Value)
    ensures Turns([m]) == OwnTurn(m)
  {
    hide OwnTurn;
    assert [m][..0] == [] && [] + OwnTurn(m) == OwnTurn(m);
  }

  lemma BackExtends(ms: seq<Value>, m: Value, render: Render)
    ensures Back(ms + [m], render) == Back(ms, render) + BackOf(m, render)
    ensures Turns(Back(ms + [m], render)) == Turns(Back(ms, render)) + Turns(BackOf(m, render))
  {
    hide MessagesOf, MessageToAnthropic, RoleOf, Turns;
    assert (ms + [m])[..|ms|] == ms;
    var others := OtherMessages(ms);
    if RoleOf(m) == "system" {
      assert others + [] == others && Back(ms, render) + [] == Back(ms, render);
    } else {
      assert (others + [MessageToAnthropic(m)])[..|others|] == others;
    }
    TurnsBoth(Back(ms, render), BackOf(m, render));
  }

  // ---- What a translated message says ----

  /** The part that a part has become, where any has. */
  function BackPart(p: Value): Option<Value> {
    PartOf(BlockOf(p))
  }

  lemma TextComesBack(p: Value)
    requires PieceOf(p).TextPiece?
    ensures BlockOf(p) == TextPart(PieceOf(p).text) && BackPart(p) == Some(TextPart(PieceOf(p).text))
    ensures !Anth.IsTool(BlockOf(p))
  {
  }

  lemma ImageComesBack(p: Value)
    requires PieceOf(p).ImagePiece?
    ensures var source := FromUrl(PieceOf(p).url);
      && BackPart(p) == (if source.Some? then Some(UrlPart(ToUrl(source.value))) else None)
      && !Anth.IsTool(BlockOf(p))
  {
    hide FromUrl, ToUrl, SourceOf, SourceBlock;
    var source := FromUrl(PieceOf(p).url);
    if source.Some? {
      Anth.SourceBlockRead(source.value);
      SourceIsBlock(source.value);
    }
  }

  lemma SourceIsBlock(source: Source)
    ensures Get(SourceBlock(source), "text").None? && StrField(SourceBlock(source), "type") == Some("image")
  {
  }

  lemma PartsSay(text: string, url: string)
    ensures PieceOf(TextPart(text)) == TextPiece(text) && PieceOf(UrlPart(url)) == ImagePiece(url)
    ensures StrField(TextPart(text), "type") == Some("text") && StrField(UrlPart(url), "type") == Some("image_url")
  {
  }

  /** A text or image comes back as itself exactly when it returns. */
  lemma PartBackIff(p: Value)
    requires !PieceOf(p).OtherPiece?
    ensures !Anth.IsTool(BlockOf(p))
    ensures BackPart(p).Some? && PieceOf(BackPart(p).value) == PieceOf(p) <==> Returns(PieceOf(p))
    ensures BackPart(p).Some? ==> !PieceOf(BackPart(p).value).OtherPiece?
  {
    if PieceOf(p).TextPiece? {
      TextComesBack(p);
      PartsSay(PieceOf(p).text, "");
    } else {
      ImageComesBack(p);
      hide FromUrl, ToUrl, BackPart;
      var source := FromUrl(PieceOf(p).url);
      if source.Some? {
        PartsSay("", ToUrl(source.value));
      }
    }
  }

  function BackParts(parts: seq<Value>): seq<Value> {
    Parts(Blocks(parts))
  }

  lemma BackPartsExtend(parts: seq<Value>, p: Value)
    ensures BackParts(parts + [p]) == BackParts(parts) + if BackPart(p).Some? then [BackPart(p).value] else []
    ensures BackPart(p).None? ==> BackParts(parts + [p]) == BackParts(parts)
    ensures Pieces(parts + [p]) == Pieces(parts) + [PieceOf(p)]
  {
    hide PartOf, BlockOf, PieceOf;
    assert Blocks(parts + [p])[..|parts|] == Blocks(parts);
    assert Blocks(parts + [p])[|parts|] == BlockOf(p);
  }

  ghost predicate NoOthers(pieces: seq<Piece>) {
    forall i :: 0 <= i < |pieces| ==> !pieces[i].OtherPiece?
  }

  ghost predicate AllReturn(pieces: seq<Piece>) {
    forall i :: 0 <= i < |pieces| ==> Returns(pieces[i])
  }

  lemma OneMorePiece(pieces: seq<Piece>, piece: Piece)
    ensures AllReturn(pieces + [piece]) <==> AllReturn(pieces) && Returns(piece)
    ensures NoOthers(pieces + [piece]) <==> NoOthers(pieces) && !piece.OtherPiece?
  {
    hide Returns;
    var all := pieces + [piece];
    assert all[|pieces|] == piece && forall i :: 0 <= i < |pieces| ==> all[i] == pieces[i];
  }

  /** Texts and images come back shorter, unless they all return. */
  lemma {:induction false} PartsBack(parts: seq<Value>, render: Render)
    requires NoOthers(Pieces(parts))
    ensures |BackParts(parts)| <= |parts|
    ensures Pieces(BackParts(parts)) == Pieces(parts) <==> AllReturn(Pieces(parts))
    ensures ToolCalls(Blocks(parts), render) == [] && ToolResults(Blocks(parts)) == []
  {
    if parts == [] {
      return;
    }
    hide PieceOf, BlockOf, BackPart, Returns, Pieces, BackParts, NoOthers, AllReturn, ToolCalls, ToolResults;
    hide Anth.IsTool, Blocks;
    var (pre, p) := (parts[..|parts| - 1], parts[|parts| - 1]);
    assert pre + [p] == parts;
    BackPartsExtend(pre, p);
    OneMorePiece(Pieces(pre), PieceOf(p));
    PartsBack(pre, render);
    PartBackIff(p);
    NoToolsExtend(pre, p, render);
    SizeOfPieces(parts);
    SizeOfPieces(pre);
    SizeOfPieces(BackParts(pre));
    PiecesBoth(BackParts(pre), if BackPart(p).Some? then [BackPart(p).value] else []);
    if BackPart(p).Some? {
      OnePiece(BackPart(p).value);
    }
    SplitLast(Pieces(BackParts(pre)), if BackPart(p).Some? then [PieceOf(BackPart(p).value)] else [],
              Pieces(pre), [PieceOf(p)]);
    NoPieces();
  }

  lemma SizeOfPieces(parts: seq<Value>)
    ensures |Pieces(parts)| == |parts|
  {
  }

  lemma NoPieces()
    ensures Pieces([]) == []
  {
  }

  lemma OnePiece(p: Value)
    ensures Pieces([p]) == [PieceOf(p)]
  {
    hide PieceOf;
  }

  lemma PiecesBoth(a: seq<Value>, b: seq<Value>)
    ensures Pieces(a + b) == Pieces(a) + Pieces(b)
  {
    hide PieceOf;
  }

  lemma NoToolsExtend(parts: seq<Value>, p: Value, render: Render)
    requires ToolCalls(Blocks(parts), render) == [] && ToolResults(Blocks(parts)) == [] && !Anth.IsTool(BlockOf(p))
    ensures ToolCalls(Blocks(parts + [p]), render) == [] && ToolResults(Blocks(parts + [p])) == []
  {
    hide BlockOf, ToolCallOf, ToolResultOf;
    assert Blocks(parts + [p])[..|parts|] == Blocks(parts);
    assert Blocks(parts + [p])[|parts|] == BlockOf(p);
  }

  // ---- Messages ----

  /** The content a message has gone through Anthropic with. */
  lemma MidMessage(m: Value)
    ensures RoleOf(MessageToAnthropic(m)) == RoleOf(m)
    ensures var content := Get(m, "content").GetOr(Null);
      Get(MessageToAnthropic(m), "content").GetOr(Null) ==
        if content.Arr? then Arr(Blocks(content.items)) else content
  {
    hide Blocks;
  }

  lemma SpokenTurn(role: string, parts: seq<Value>)
    requires parts != [] && role != "system" && NoOthers(Pieces(parts))
    requires forall i :: 0 <= i < |parts| ==>
      StrField(parts[i], "text").Some? || StrField(parts[i], "type") != Some("text")
    ensures OwnTurn(Obj(map["role" := Str(role), "content" := ContentOf(parts)])) ==
      [Turn(role, Pieces(parts), None, None)]
  {
    if |parts| == 1 && StrField(parts[0], "type") == Some("text") {
      OnePiece(parts[0]);
      assert parts == [parts[0]];
    }
  }

  lemma {:induction false} BackPartsText(blocks: seq<Value>)
    ensures forall i :: 0 <= i < |Parts(blocks)| ==>
      (StrField(Parts(blocks)[i], "text").Some? || StrField(Parts(blocks)[i], "type") != Some("text"))
      && !PieceOf(Parts(blocks)[i]).OtherPiece?
  {
    if blocks != [] {
      BackPartsText(blocks[..|blocks| - 1]);
      PartSays(blocks[|blocks| - 1]);
      hide PartOf, PieceOf;
    }
  }

  lemma PartSays(block: Value)
    ensures PartOf(block).Some? ==>
      && (StrField(PartOf(block).value, "text").Some? || StrField(PartOf(block).value, "type") != Some("text"))
      && !PieceOf(PartOf(block).value).OtherPiece?
  {
    hide SourceOf, ToUrl;
  }

  lemma BackPartsSpeak(parts: seq<Value>)
    ensures NoOthers(Pieces(BackParts(parts)))
  {
    BackPartsText(Blocks(parts));
  }

  /** What an array of texts and images has become. */
  lemma SpokenBack(m: Value, render: Render)
    requires RoleOf(m) != "system" && Get(m, "content").GetOr(Null).Arr? && NoOthers(PiecesOf(m))
    ensures var parts := BackParts(Get(m, "content").GetOr(Null).items);
      Turns(BackOf(m, render)) == if parts == [] then [] else [Turn(RoleOf(m), Pieces(parts), None, None)]
  {
    var items := Get(m, "content").GetOr(Null).items;
    assert PiecesOf(m) == Pieces(items);
    hide Pieces, BackParts, NoOthers, MessageToAnthropic, PiecesOf, Turns, OwnTurn, ContentOf, ToolCalls, ToolResults;
    PartsBack(items, render);
    MidMessage(m);
    BackPartsText(Blocks(items));
    BackPartsSpeak(items);
    var parts := Parts(Blocks(items));
    BackPartsAre(items);
    if parts == [] {
      assert BackOf(m, render) == [];
      NoTurns();
    } else {
      var msg := Obj(map["role" := Str(RoleOf(m)), "content" := ContentOf(parts)]);
      assert BackOf(m, render) == [msg];
      SpokenTurn(RoleOf(m), parts);
      OneTurn(msg);
    }
  }

  lemma BackPartsAre(parts: seq<Value>)
    ensures BackParts(parts) == Parts(Blocks(parts))
  {
  }

  lemma NoTurns()
    ensures Turns([]) == []
  {
  }

  lemma TextTurn(role: string, text: string)
    requires role != "system"
    ensures OwnTurn(Obj(map["role" := Str(role), "content" := Str(text)])) ==
      [Turn(role, [TextPiece(text)], None, None)]
  {
  }

  /** No longer than it was, and the same exactly when the message is plain. */
  ghost predicate SameIfPlain(m: Value, back: seq<Turn>) {
    && |back| <= |OwnTurn(m)|
    && (back == OwnTurn(m) <==> Plain(m))
  }

  lemma TextBack(m: Value, render: Render)
    requires RoleOf(m) != "system" && Get(m, "content").GetOr(Null).Str?
    ensures SameIfPlain(m, Turns(BackOf(m, render)))
  {
    var text := Get(m, "content").GetOr(Null).s;
    MidMessage(m);
    TextTurn(RoleOf(m), text);
    OneTurn(Obj(map["role" := Str(RoleOf(m)), "content" := Str(text)]));
    hide MessageToAnthropic, Turns, PieceOf, Blocks;
    assert PiecesOf(m) == [TextPiece(text)];
    assert BackOf(m, render) == [Obj(map["role" := Str(RoleOf(m)), "content" := Str(text)])];
    OneText(m, text);
  }

  lemma OneText(m: Value, text: string)
    requires RoleOf(m) != "system" && PiecesOf(m) == [TextPiece(text)]
    ensures SameIfPlain(m, [Turn(RoleOf(m), [TextPiece(text)], None, None)])
  {
    hide PiecesOf;
  }

  lemma PartsMessageBack(m: Value, render: Render)
    requires RoleOf(m) != "system" && Get(m, "content").GetOr(Null).Arr? && NoOthers(PiecesOf(m))
    ensures SameIfPlain(m, Turns(BackOf(m, render)))
  {
    hide BackOf, Turns, BackParts, SameIfPlain, Pieces, NoOthers;
    var items := Get(m, "content").GetOr(Null).items;
    PiecesAre(m, items);
    SpokenBack(m, render);
    PartsBack(items, render);
    SizeOfPieces(items);
    SizeOfPieces(BackParts(items));
    NoPieces();
    PartsSame(m, Pieces(BackParts(items)));
  }

  lemma PiecesAre(m: Value, items: seq<Value>)
    requires Get(m, "content") == Some(Arr(items))
    ensures PiecesOf(m) == Pieces(items)
  {
  }

  lemma PartsSame(m: Value, pieces: seq<Piece>)
    requires RoleOf(m) != "system" && |pieces| <= |PiecesOf(m)|
    requires pieces == PiecesOf(m) <==> AllReturn(PiecesOf(m))
    ensures SameIfPlain(m, if pieces == [] then [] else [Turn(RoleOf(m), pieces, None, None)])
  {
    hide PiecesOf, Returns;
  }

  lemma SilentBack(m: Value, render: Render)
    requires RoleOf(m) != "system" && !Get(m, "content").GetOr(Null).Str? && !Get(m, "content").GetOr(Null).Arr?
    ensures SameIfPlain(m, Turns(BackOf(m, render)))
  {
    MidMessage(m);
    NoTurns();
    hide MessageToAnthropic, Turns, Blocks;
    assert BackOf(m, render) == [] && PiecesOf(m) == [];
    hide PiecesOf;
  }

  /** A message of texts and images comes back no longer, and the same if plain. */
  lemma MessageBack(m: Value, render: Render)
    requires Spoken(m)
    ensures SameIfPlain(m, Turns(BackOf(m, render)))
  {
    if RoleOf(m) == "system" {
      NoTurns();
      hide PiecesOf;
    } else if Get(m, "content").GetOr(Null).Str? {
      TextBack(m, render);
    } else if Get(m, "content").GetOr(Null).Arr? {
      PartsMessageBack(m, render);
    } else {
      SilentBack(m, render);
    }
  }

  // ---- Nothing else comes back ----

  ghost predicate Spoken(m: Value) {
    RoleOf(m) == "system" || NoOthers(PiecesOf(m))
  }

  ghost predicate AllSpoken(ms: seq<Value>) {
    forall i :: 0 <= i < |ms| ==> Spoken(ms[i])
  }

  ghost predicate TurnsSpoken(ts: seq<Turn>) {
    forall i :: 0 <= i < |ts| ==> NoOthers(ts[i].pieces)
  }

  lemma TurnsSpokenBoth(a: seq<Turn>, b: seq<Turn>)
    ensures TurnsSpoken(a + b) <==> TurnsSpoken(a) && TurnsSpoken(b)
  {
    hide NoOthers;
    var c := a + b;
    assert forall i :: 0 <= i < |a| ==> c[i] == a[i];
    assert forall i :: 0 <= i < |b| ==> c[|a| + i] == b[i];
  }

  lemma OneMoreMessage(ms: seq<Value>, m: Value)
    ensures AllPlain(ms + [m]) <==> AllPlain(ms) && Plain(m)
    ensures AllSpoken(ms + [m]) <==> AllSpoken(ms) && Spoken(m)
  {
    hide Plain, Spoken;
    var all := ms + [m];
    assert all[|ms|] == m && forall i :: 0 <= i < |ms| ==> all[i] == ms[i];
  }

  /** A message whose content is a text, nothing, or parts that are texts and images. */
  ghost predicate Sent(m: Value) {
    NoOthers(PiecesOf(m))
  }

  ghost predicate AllSent(ms: seq<Value>) {
    forall i :: 0 <= i < |ms| ==> Sent(ms[i])
  }

  lemma SentTurn(m: Value)
    requires Sent(m)
    ensures TurnsSpoken(OwnTurn(m))
  {
    hide NoOthers, PiecesOf;
  }

  lemma {:induction false} SentTurns(ms: seq<Value>)
    requires AllSent(ms)
    ensures TurnsSpoken(Turns(ms))
  {
    if ms == [] {
      return;
    }
    hide Sent, OwnTurn, TurnsSpoken;
    var (pre, m) := (ms[..|ms| - 1], ms[|ms| - 1]);
    SentTurns(pre);
    SentTurn(m);
    TurnsSpokenBoth(Turns(pre), OwnTurn(m));
  }

  lemma {:induction false} ResultsAreSent(blocks: seq<Value>)
    ensures AllSent(ToolResults(blocks))
  {
    if blocks != [] {
      hide Sent;
      ResultsAreSent(blocks[..|blocks| - 1]);
      ResultIsSent(blocks[|blocks| - 1]);
    }
  }

  lemma ResultIsSent(block: Value)
    ensures Sent(ToolResultOf(block))
  {
  }

  lemma SpokenIsSent(role: string, parts: seq<Value>, calls: seq<Value>)
    requires NoOthers(Pieces(parts))
    ensures Sent(Obj(Put(map["role" := Str(role), "content" := ContentOf(parts)],
                         "tool_calls", if calls == [] then None else Some(Arr(calls)))))
  {
    if |parts| == 1 && StrField(parts[0], "type") == Some("text") {
      assert Pieces(parts)[0] == PieceOf(parts[0]);
    }
    hide PieceOf;
  }

  lemma MessagesAreSent(m: Value, render: Render)
    ensures AllSent(MessagesOf(m, render))
  {
    var content := Get(m, "content").GetOr(Null);
    hide Sent;
    if content.Arr? {
      ResultsAreSent(content.items);
      BackPartsText(content.items);
      SpokenIsSent(RoleOf(m), Parts(content.items), ToolCalls(content.items, render)) by {
        hide Parts, PieceOf;
      }
      hide Parts, ToolCalls, ToolResults, ContentOf;
    } else if content.Str? {
      TextIsSent(RoleOf(m), content.s);
    }
  }

  lemma TextIsSent(role: string, text: string)
    ensures Sent(Obj(map["role" := Str(role), "content" := Str(text)]))
  {
  }

  lemma {:induction false} AllAreSent(ms: seq<Value>, render: Render)
    ensures AllSent(AllMessages(ms, render))
  {
    if ms != [] {
      hide Sent, MessagesOf;
      AllAreSent(ms[..|ms| - 1], render);
      MessagesAreSent(ms[|ms| - 1], render);
    }
  }

  lemma SpokenMessage(m: Value)
    requires TurnsSpoken(OwnTurn(m))
    ensures Spoken(m)
  {
    hide PiecesOf;
    if RoleOf(m) != "system" && PiecesOf(m) != [] {
      assert NoOthers(OwnTurn(m)[0].pieces);
    }
  }

  lemma {:induction false} SpokenTurns(ms: seq<Value>)
    requires TurnsSpoken(Turns(ms))
    ensures AllSpoken(ms)
  {
    if ms == [] {
      return;
    }
    hide Spoken, TurnsSpoken, OwnTurn, AllSpoken;
    var (pre, m) := (ms[..|ms| - 1], ms[|ms| - 1]);
    assert pre + [m] == ms;
    TurnsSpokenBoth(Turns(pre), OwnTurn(m));
    SpokenTurns(pre);
    SpokenMessage(m);
    OneMoreMessage(pre, m);
  }

  lemma {:induction false} MessagesBack(ms: seq<Value>, render: Render)
    requires AllSpoken(ms)
    ensures |Turns(Back(ms, render))| <= |Turns(ms)|
    ensures Turns(Back(ms, render)) == Turns(ms) <==> AllPlain(ms)
  {
    if ms == [] {
      return;
    }
    hide Spoken, AllSpoken, AllPlain, Plain, OwnTurn, Back, BackOf;
    var (pre, m) := (ms[..|ms| - 1], ms[|ms| - 1]);
    assert pre + [m] == ms;
    OneMoreMessage(pre, m);
    MessagesBack(pre, render);
    BackExtends(pre, m, render);
    MessageBack(m, render);
    hide Turns;
    TurnsBoth(pre, [m]);
    OneTurn(m);
    SplitLast(Turns(Back(pre, render)), Turns(BackOf(m, render)), Turns(pre), OwnTurn(m));
  }

  // ---- Main results ----

  /** The turns come back exactly when every message is plain. */
  lemma TurnsComeBackIff(ms: seq<Value>, render: Render)
    ensures Turns(Back(ms, render)) == Turns(ms) <==> AllPlain(ms)
  {
    hide Turns, TurnsSpoken, AllPlain, AllSpoken, AllSent;
    if AllPlain(ms) {
      PlainAreSpoken(ms);
      MessagesBack(ms, render);
    }
    if Turns(Back(ms, render)) == Turns(ms) {
      AllAreSent(OtherMessages(ms), render);
      SentTurns(Back(ms, render));
      SpokenTurns(ms);
      MessagesBack(ms, render);
    }
  }

  lemma PlainAreSpoken(ms: seq<Value>)
    requires AllPlain(ms)
    ensures AllSpoken(ms)
  {
    hide PiecesOf;
  }

  lemma {:induction false} NoSystemAmong(blocks: seq<Value>)
    ensures SystemParts(ToolResults(blocks)) == []
  {
    if blocks != [] {
      hide ToolResultOf;
      var (pre, b) := (blocks[..|blocks| - 1], blocks[|blocks| - 1]);
      NoSystemAmong(pre);
      if StrField(b, "type") == Some("tool_result") {
        ResultRole(b);
        Anth.OneMessage(ToolResultOf(b));
        Anth.OtherMessagesBoth(ToolResults(pre), [ToolResultOf(b)]);
      } else {
        assert ToolResults(pre) + [] == ToolResults(pre);
      }
    }
  }

  lemma ResultRole(block: Value)
    ensures RoleOf(ToolResultOf(block)) == "tool" != "system"
  {
  }

  lemma NoSystemFrom(m: Value, render: Render)
    requires RoleOf(m) != "system"
    ensures SystemParts(MessagesOf(m, render)) == []
  {
    var content := Get(m, "content").GetOr(Null);
    hide SystemParts, RoleOf;
    NoSystemIn();
    if content.Str? {
      NotSystem(RoleOf(m), content, []);
    } else if content.Arr? {
      NoSystemAmong(content.items);
      NotSystem(RoleOf(m), ContentOf(Parts(content.items)), ToolCalls(content.items, render));
      var msg := Message(RoleOf(m), ContentOf(Parts(content.items)), ToolCalls(content.items, render));
      hide Parts, ToolCalls, ToolResults, ContentOf;
      Anth.OtherMessagesBoth(ToolResults(content.items), [msg]);
      assert ToolResults(content.items) + [] == ToolResults(content.items);
    }
  }

  lemma NoSystemIn()
    ensures SystemParts([]) == []
  {
  }

  function Message(role: string, content: Value, calls: seq<Value>): Value {
    Obj(Put(map["role" := Str(role), "content" := content],
            "tool_calls", if calls == [] then None else Some(Arr(calls))))
  }

  lemma NotSystem(role: string, content: Value, calls: seq<Value>)
    requires role != "system"
    ensures SystemParts([Message(role, content, calls)]) == []
  {
    assert RoleOf(Message(role, content, calls)) == role;
    Anth.OneMessage(Message(role, content, calls));
  }

  lemma {:induction false} NoSystemBack(ms: seq<Value>, render: Render)
    ensures SystemParts(Back(ms, render)) == []
  {
    if ms == [] {
      return;
    }
    hide Back, BackOf, SystemParts;
    var (pre, m) := (ms[..|ms| - 1], ms[|ms| - 1]);
    assert pre + [m] == ms;
    NoSystemBack(pre, render);
    BackExtends(pre, m, render);
    NoSystemBackOf(m, render);
    Anth.OtherMessagesBoth(Back(pre, render), BackOf(m, render));
  }

  lemma NoSystemBackOf(m: Value, render: Render)
    ensures SystemParts(BackOf(m, render)) == []
  {
    hide MessagesOf, MessageToAnthropic;
    MidMessage(m);
    if RoleOf(m) != "system" {
      NoSystemFrom(MessageToAnthropic(m), render);
    }
  }

  lemma {:induction false} FunctionsComeBack(ts: seq<Value>)
    ensures FunctionDefs(ToolsToOpenAi(ToolsToAnthropic(ts))) == FunctionDefs(ts)
  {
    if ts != [] {
      hide ToolToOpenAi, ToolToAnthropic, DefOf;
      var (pre, t) := (ts[..|ts| - 1], ts[|ts| - 1]);
      FunctionsComeBack(pre);
      var (f, tools) := (Get(t, "function"), ToolsToAnthropic(pre));
      if f.Some? {
        var all := ToolsToOpenAi(tools + [ToolToAnthropic(f.value)]);
        assert all[..|all| - 1] == ToolsToOpenAi(tools);
        FunctionComesBack(f.value);
      } else {
        assert tools + [] == tools && FunctionDefs(pre) + [] == FunctionDefs(pre);
      }
    }
  }

  lemma FunctionComesBack(f: Value)
    ensures var g := Get(ToolToOpenAi(ToolToAnthropic(f)), "function");
      g.Some? && DefOf(g.value) == DefOf(f)
  {
  }

  function AndBack(body: Value, first: string, second: string, render: Render): Value {
    ToOpenAi(ToAnthropic(body, first), second, render)
  }

  lemma SystemBetween(body: Value, model: string, render: Render)
    ensures SystemText(ToAnthropic(body, model), render) == Join(SystemParts(MessagesIn(body)))
  {
    hide ToAnthropic, SystemParts;
    Anth.AnthropicSystem(body, model);
  }

  /** What the messages of the body that comes back say. */
  lemma MessagesBackSay(body: Value, first: string, second: string, render: Render)
    ensures var out := MessagesIn(AndBack(body, first, second, render));
      && Lined(SystemSaid(out)) == Lined(SystemSaid(MessagesIn(body)))
      && Turns(out) == Turns(Back(MessagesIn(body), render))
  {
    hide ToOpenAi, ToAnthropic, SystemText, SystemParts, Turns, AllMessages, OtherMessages, Anth.OpenAiMessages;
    var mid := ToAnthropic(body, first);
    Anth.AnthropicContent(body, first);
    Anth.OpenAiContent(mid, second, render);
    SystemBetween(body, first, render);
    var (sys, all) := (SystemText(mid, render), Back(MessagesIn(body), render));
    assert AllMessages(AsArr(Get(mid, "messages")).GetOr([]), render) == all;
    Anth.OpenAiMessagesAre(mid, render);
    NoSystemBack(MessagesIn(body), render);
    HeadHasNoTurn(mid, render);
    assert (if sys == "" then [] else [sys]) + [] == if sys == "" then [] else [sys];
    assert Join([sys]) == sys && Join([]) == "";
    var out := MessagesIn(AndBack(body, first, second, render));
    SystemPartsAreSaid(out);
    SystemPartsAreSaid(MessagesIn(body));
    LinedIsJoin(SystemSaid(out));
    LinedIsJoin(SystemSaid(MessagesIn(body)));
  }

  lemma HeadHasNoTurn(mid: Value, render: Render)
    ensures Turns(Anth.OpenAiMessages(mid, render)) ==
      Turns(AllMessages(AsArr(Get(mid, "messages")).GetOr([]), render))
  {
    hide SystemText, AllMessages, Turns;
    var (sys, all) := (SystemText(mid, render), AllMessages(AsArr(Get(mid, "messages")).GetOr([]), render));
    var head := Obj(map["role" := Str("system"), "content" := Str(sys)]);
    if sys == "" {
      assert [] + all == all;
    } else {
      TurnsBoth([head], all);
      OneTurn(head);
      assert [] + Turns(all) == Turns(all);
    }
  }

  /** What the settings of the body that comes back say. */
  lemma SettingsBackSay(body: Value, first: string, second: string, render: Render)
    ensures var out := AndBack(body, first, second, render);
      && LimitOf(out) == (if LimitOf(body).Some? then LimitOf(body) else Some(DEFAULT_MAX_TOKENS))
      && Get(out, "temperature") == Get(body, "temperature") && Get(out, "top_p") == None
      && Get(out, "stop") == Get(body, "stop") && Get(out, "stream") == Get(body, "stream")
      && MeaningOf(out).tools == MeaningOf(body).tools
  {
    hide ToOpenAi, ToAnthropic, SystemParts, Turns, ToolsToOpenAi, ToolsToAnthropic, FunctionDefs;
    var mid := ToAnthropic(body, first);
    Anth.AnthropicLimit(body, first);
    Anth.AnthropicSettings(body, first);
    Anth.AnthropicTools(body, first);
    Anth.OpenAiLimits(mid, second, render);
    Anth.OpenAiSettings(mid, second, render);
    var tools := AsArr(Get(body, "tools"));
    if tools.Some? {
      FunctionsComeBack(tools.value);
    }
  }

  /** For every body: it says the same after OpenAI to Anthropic and back, a missing
      limit filled in, exactly when every message is plain and there is no `top_p`. */
  lemma BodyComesBackIff(body: Value, first: string, second: string, render: Render)
    ensures MeaningOf(AndBack(body, first, second, render)) ==
        MeaningOf(body).(limit := if LimitOf(body).Some? then LimitOf(body) else Some(DEFAULT_MAX_TOKENS))
      <==> AllPlain(MessagesIn(body)) && Get(body, "top_p").None?
  {
    hide AndBack, Turns, SystemParts, MessagesIn, Back, AllPlain, FunctionDefs;
    MessagesBackSay(body, first, second, render);
    SettingsBackSay(body, first, second, render);
    TurnsComeBackIff(MessagesIn(body), render);
  }

  /** An assistant turn that calls a tool loses the call. */
  lemma ToolCallIsLost(calls: Value, render: Render)
    ensures var m := Obj(map["role" := Str("assistant"), "content" := Str("x"), "tool_calls" := calls]);
      Turns([m]) == [Turn("assistant", [TextPiece("x")], Some(calls), None)]
      && Turns(Back([m], render)) == [Turn("assistant", [TextPiece("x")], None, None)]
  {
    var m := Obj(map["role" := Str("assistant"), "content" := Str("x"), "tool_calls" := calls]);
    var msg := Obj(map["role" := Str("assistant"), "content" := Str("x")]);
    assert OwnTurn(m) == [Turn("assistant", [TextPiece("x")], Some(calls), None)];
    assert RoleOf(m) == "assistant" && Get(m, "content") == Some(Str("x"));
    OneTurn(m);
    BackExtends([], m, render);
    MidMessage(m);
    hide MessageToAnthropic, Turns, OwnTurn, RoleOf;
    assert [] + [m] == [m];
    TextTurn("assistant", "x");
    OneTurn(msg);
    NoTurns();
    BackOfText(m, "assistant", "x", render);
    assert Back([], render) == [] && [] + Turns([msg]) == Turns([msg]);
  }

  lemma BackOfText(m: Value, role: string, text: string, render: Render)
    requires RoleOf(m) == role != "system" && Get(m, "content") == Some(Str(text))
    ensures BackOf(m, render) == [Obj(map["role" := Str(role), "content" := Str(text)])]
  {
    MidMessage(m);
    hide MessageToAnthropic, RoleOf, Blocks;
  }
}

// modelpolicy/anthropic_provider.go and the streaming half of agentorchestrator/agent_loop.go:
// one model reply, mapped in one piece or read as a stream of server-sent events.
module Streaming {
  import opened Common
  import opened Sequences

  /** A content block of the buffered reply; args is its input marshalled to JSON.  Blocks of
      any other type are ignored. */
  datatype Block = Text(text: string) | ToolUse(id: string, name: string, args: string) | OtherBlock

  datatype ToolCall = ToolCall(id: string, name: string, arguments: string)

  datatype Reply = Reply(content: string, toolCalls: seq<ToolCall>, finishReason: string)

  /** A line of the event stream.  Noise is every line the reader passes over: pings, block
      stops, other deltas, starts of blocks that are not tool uses, lines that do not decode.
      Broken is a cancelled context or a read error met at that point. */
  datatype Event =
    | ToolStart(id: string, name: string)
    | TextDelta(text: string)
    | JsonDelta(json: string)
    | MessageDelta(stopReason: string)
    | MessageStop
    | Noise
    | Broken

  datatype Chunk = Chunk(delta: string, toolCalls: seq<ToolCall>, finishReason: string) | ErrChunk

  // ---- Buffered: mapResponse ----

  function Concat(parts: seq<string>): string {
    if parts == [] then "" else parts[0] + Concat(parts[1..])
  }

  function TextOf(b: Block): string {
    if b.Text? then b.text else ""
  }

  function CallOf(b: Block): seq<ToolCall> {
    if b.ToolUse? then [ToolCall(b.id, b.name, b.args)] else []
  }

  function Texts(blocks: seq<Block>): string {
    if blocks == [] then "" else TextOf(blocks[0]) + Texts(blocks[1..])
  }

  function Calls(blocks: seq<Block>): seq<ToolCall> {
    if blocks == [] then [] else CallOf(blocks[0]) + Calls(blocks[1..])
  }

  /** The texts in order, the tool calls in order, and whether the model wants tools run. */
  function Buffered(blocks: seq<Block>, stopReason: string): Reply {
    Reply(Texts(blocks), Calls(blocks), if stopReason == "tool_use" then "tool_calls" else "stop")
  }

  method MapResponse(blocks: seq<Block>, stopReason: string) returns (r: Reply)
    ensures r == Buffered(blocks, stopReason)
  {
    var content: string, toolCalls: seq<ToolCall> := "", [];
    for i := 0 to |blocks|
      invariant Texts(blocks) == content + Texts(blocks[i..])
      invariant Calls(blocks) == toolCalls + Calls(blocks[i..])
    {
      assert blocks[i..][1..] == blocks[i + 1..];
      Assoc(content, TextOf(blocks[i]), Texts(blocks[i + 1..]));
      Assoc(toolCalls, CallOf(blocks[i]), Calls(blocks[i + 1..]));
      Unit(content);
      Unit(toolCalls);
      match blocks[i]
      case Text(text) => content := content + text;
      case ToolUse(id, name, args) => toolCalls := toolCalls + [ToolCall(id, name, args)];
      case OtherBlock =>
    }
    var finishReason := "stop";
    if stopReason == "tool_use" {
      finishReason := "tool_calls";
    }
    r := Reply(content, toolCalls, finishReason);
  }

  // ---- Streamed: readAnthropicSSE ----

  function AppendArgs(pending: seq<ToolCall>, json: string): seq<ToolCall> {
    if pending == [] then []
    else
      var last := pending[|pending| - 1];
      pending[|pending| - 1 := last.(arguments := last.arguments + json)]
  }

  function FinishChunk(stopReason: string, pending: seq<ToolCall>): Chunk {
    if stopReason == "end_turn" then Chunk("", [], "stop")
    else if stopReason == "tool_use" then Chunk("", pending, "tool_calls")
    else Chunk("", [], "")
  }

  /** The chunks sent while reading these events, with these tool uses under construction. */
  function Read(events: seq<Event>, pending: seq<ToolCall>): seq<Chunk> {
    if events == [] then []
    else
      var rest := events[1..];
      match events[0]
      case ToolStart(id, name) => Read(rest, pending + [ToolCall(id, name, "")])
      case TextDelta(text) => [Chunk(text, [], "")] + Read(rest, pending)
      case JsonDelta(json) => Read(rest, AppendArgs(pending, json))
      case MessageDelta(stop) =>
        [FinishChunk(stop, pending)] + Read(rest, if stop == "tool_use" then [] else pending)
      case MessageStop => []
      case Noise => Read(rest, pending)
      case Broken => [ErrChunk]
  }

  method ReadSSE(events: seq<Event>) returns (ch: seq<Chunk>)
    ensures ch == Read(events, [])
  {
    ch := [];
    var pending: seq<ToolCall> := [];
    for i := 0 to |events|
      invariant Read(events, []) == ch + Read(events[i..], pending)
    {
      assert events[i..][1..] == events[i + 1..];
      match events[i]
      case ToolStart(id, name) =>
        pending := pending + [ToolCall(id, name, "")];
      case TextDelta(text) =>
        ch := ch + [Chunk(text, [], "")];
      case JsonDelta(json) =>
        if |pending| > 0 {
          var last := pending[|pending| - 1];
          pending := pending[|pending| - 1 := last.(arguments := last.arguments + json)];
        }
      case MessageDelta(stop) =>
        var sc := Chunk("", [], "");
        if stop == "end_turn" {
          sc := sc.(finishReason := "stop");
        } else if stop == "tool_use" {
          sc := Chunk("", pending, "tool_calls");
          pending := [];
        }
        ch := ch + [sc];
      case MessageStop =>
        return;
      case Noise =>
      case Broken =>
        ch := ch + [ErrChunk];
        return;
    }
  }

  // ---- Streamed: streamModelCall ----

  /** Folds the chunks into what has been gathered so far; None when the stream failed. */
  function Gather(chunks: seq<Chunk>, so: Reply): Option<Reply>
    decreases |chunks|
  {
    if chunks == [] then Some(so.(finishReason := if so.finishReason == "" then "stop" else so.finishReason))
    else match chunks[0]
      case ErrChunk => None
      case Chunk(delta, calls, finish) =>
        Gather(chunks[1..], Reply(so.content + delta, so.toolCalls + calls,
                                  if finish != "" then finish else so.finishReason))
  }

  const NOTHING := Reply("", [], "")

  /** The reply assembled from an event stream. */
  function Streamed(events: seq<Event>): Option<Reply> {
    Gather(Read(events, []), NOTHING)
  }

  /** Also returns the text of each step.token event it emits. */
  method StreamModelCall(ch: seq<Chunk>) returns (r: Option<Reply>, tokens: seq<string>)
    ensures r == Gather(ch, NOTHING)
    ensures r.Some? ==> Concat(tokens) == r.value.content
    ensures forall t | t in tokens :: t != ""
  {
    var content: string, calls: seq<ToolCall>, finish := "", [], "";
    tokens := [];
    for i := 0 to |ch|
      invariant Gather(ch, NOTHING) == Gather(ch[i..], Reply(content, calls, finish))
      invariant Concat(tokens) == content
      invariant forall t | t in tokens :: t != ""
    {
      assert ch[i..][1..] == ch[i + 1..];
      if ch[i].ErrChunk? { return None, tokens; }
      if ch[i].delta != "" {
        ConcatLast(tokens, ch[i].delta);
        content := content + ch[i].delta;
        tokens := tokens + [ch[i].delta];
      } else {
        assert content + ch[i].delta == content;
      }
      if |ch[i].toolCalls| > 0 {
        calls := calls + ch[i].toolCalls;
      } else {
        assert calls + ch[i].toolCalls == calls;
      }
      if ch[i].finishReason != "" {
        finish := ch[i].finishReason;
      }
    }
    if finish == "" {
      finish := "stop";
    }
    r := Some(Reply(content, calls, finish));
  }

  lemma {:induction false} ConcatLast(parts: seq<string>, s: string)
    ensures Concat(parts + [s]) == Concat(parts) + s
  {
    if parts == [] {
      assert parts + [s] == [s];
      assert [s][1..] == [];
    } else {
      assert (parts + [s])[1..] == parts[1..] + [s];
      ConcatLast(parts[1..], s);
    }
  }

  // ---- Every way of streaming a reply ----

  /** A block as it is streamed: its text or argument JSON cut into consecutive deltas. */
  datatype Piece =
    | TextPiece(deltas: seq<string>)
    | ToolPiece(id: string, name: string, deltas: seq<string>)
    | OtherPiece

  /** The block as the deltas spell it. */
  function BlockOf(p: Piece): Block {
    match p
    case TextPiece(deltas) => Text(Concat(deltas))
    case ToolPiece(id, name, deltas) => ToolUse(id, name, Concat(deltas))
    case OtherPiece => OtherBlock
  }

  function Blocks(pieces: seq<Piece>): seq<Block> {
    if pieces == [] then [] else [BlockOf(pieces[0])] + Blocks(pieces[1..])
  }

  function TextDeltas(deltas: seq<string>, after: seq<Event>): seq<Event> {
    if deltas == [] then after else [TextDelta(deltas[0])] + TextDeltas(deltas[1..], after)
  }

  function JsonDeltas(deltas: seq<string>, after: seq<Event>): seq<Event> {
    if deltas == [] then after else [JsonDelta(deltas[0])] + JsonDeltas(deltas[1..], after)
  }

  function PieceEvents(p: Piece, after: seq<Event>): seq<Event> {
    match p
    case TextPiece(deltas) => TextDeltas(deltas, after)
    case ToolPiece(id, name, deltas) => [ToolStart(id, name)] + JsonDeltas(deltas, after)
    case OtherPiece => after
  }

  /** The pieces' events, then the closing ones. */
  function Events(pieces: seq<Piece>, closing: seq<Event>): seq<Event> {
    if pieces == [] then closing else PieceEvents(pieces[0], Events(pieces[1..], closing))
  }

  function Denoise(events: seq<Event>): seq<Event> {
    if events == [] then []
    else (if events[0].Noise? then [] else [events[0]]) + Denoise(events[1..])
  }

  /** The stream says exactly these pieces and this stop reason; noise may stand anywhere, and
      anything may follow the message's end. */
  ghost predicate Streams(events: seq<Event>, pieces: seq<Piece>, stopReason: string) {
    exists tail: seq<Event> ::
      && Denoise(events) == Events(pieces, [MessageDelta(stopReason)] + tail)
      && (tail == [] || tail[0].MessageStop?)
  }

  lemma {:induction false} NoiseIgnored(events: seq<Event>, pending: seq<ToolCall>)
    ensures Read(Denoise(events), pending) == Read(events, pending)
  {
    if events != [] {
      var rest := events[1..];
      if events[0].Noise? {
        assert Denoise(events) == Denoise(rest);
        NoiseIgnored(rest, pending);
      } else {
        assert Denoise(events)[1..] == Denoise(rest);
        match events[0]
        case ToolStart(id, name) => NoiseIgnored(rest, pending + [ToolCall(id, name, "")]);
        case TextDelta(_) => NoiseIgnored(rest, pending);
        case JsonDelta(json) => NoiseIgnored(rest, AppendArgs(pending, json));
        case MessageDelta(stop) => NoiseIgnored(rest, if stop == "tool_use" then [] else pending);
        case MessageStop =>
        case Broken =>
      }
    }
  }

  lemma {:induction false} TextGathers(deltas: seq<string>, after: seq<Event>, pending: seq<ToolCall>, so: Reply)
    ensures Gather(Read(TextDeltas(deltas, after), pending), so)
         == Gather(Read(after, pending), so.(content := so.content + Concat(deltas)))
    decreases |deltas|
  {
    if deltas == [] {
      Unit(so.content);
    } else {
      var next := TextDeltas(deltas[1..], after);
      Tail(TextDelta(deltas[0]), next);
      Tail(Chunk(deltas[0], [], ""), Read(next, pending));
      Unit(so.toolCalls);
      TextGathers(deltas[1..], after, pending, so.(content := so.content + deltas[0]));
      Assoc(so.content, deltas[0], Concat(deltas[1..]));
    }
  }

  lemma {:induction false} JsonGathers(deltas: seq<string>, after: seq<Event>, done: seq<ToolCall>, call: ToolCall)
    ensures Read(JsonDeltas(deltas, after), done + [call])
         == Read(after, done + [call.(arguments := call.arguments + Concat(deltas))])
    decreases |deltas|
  {
    if deltas == [] {
      Unit(call.arguments);
    } else {
      Tail(JsonDelta(deltas[0]), JsonDeltas(deltas[1..], after));
      var grown := call.(arguments := call.arguments + deltas[0]);
      assert AppendArgs(done + [call], deltas[0]) == done + [grown];
      JsonGathers(deltas[1..], after, done, grown);
      Assoc(call.arguments, deltas[0], Concat(deltas[1..]));
    }
  }

  lemma BlocksHead(pieces: seq<Piece>)
    requires pieces != []
    ensures var b, rest := BlockOf(pieces[0]), Blocks(pieces[1..]);
            Texts(Blocks(pieces)) == TextOf(b) + Texts(rest) && Calls(Blocks(pieces)) == CallOf(b) + Calls(rest)
  {
    assert Blocks(pieces)[1..] == Blocks(pieces[1..]);
  }

  lemma PieceGathers(p: Piece, after: seq<Event>, pending: seq<ToolCall>, so: Reply)
    ensures Gather(Read(PieceEvents(p, after), pending), so)
         == Gather(Read(after, pending + CallOf(BlockOf(p))), so.(content := so.content + TextOf(BlockOf(p))))
  {
    match p
    case TextPiece(deltas) =>
      TextGathers(deltas, after, pending, so);
      assert pending + [] == pending;
    case ToolPiece(id, name, deltas) =>
      assert PieceEvents(p, after)[1..] == JsonDeltas(deltas, after);
      JsonGathers(deltas, after, pending, ToolCall(id, name, ""));
      assert "" + Concat(deltas) == Concat(deltas) && so.content + "" == so.content;
    case OtherPiece =>
      assert pending + [] == pending && so.content + "" == so.content;
  }

  /** Reading the pieces gathers their texts and leaves their tool uses pending, in order. */
  lemma {:induction false} PiecesGather(pieces: seq<Piece>, closing: seq<Event>, pending: seq<ToolCall>, so: Reply)
    ensures Gather(Read(Events(pieces, closing), pending), so)
         == Gather(Read(closing, pending + Calls(Blocks(pieces))),
                   so.(content := so.content + Texts(Blocks(pieces))))
    decreases |pieces|
  {
    if pieces == [] {
      Unit(pending);
      Unit(so.content);
    } else {
      var b, rest := BlockOf(pieces[0]), Blocks(pieces[1..]);
      PieceGathers(pieces[0], Events(pieces[1..], closing), pending, so);
      PiecesGather(pieces[1..], closing, pending + CallOf(b), so.(content := so.content + TextOf(b)));
      BlocksHead(pieces);
      Assoc(pending, CallOf(b), Calls(rest));
      Assoc(so.content, TextOf(b), Texts(rest));
    }
  }

  /** What any streaming of the pieces is assembled into: the text, and on stop reason tool_use the
      tool calls, as the deltas spell them. */
  lemma StreamedReply(events: seq<Event>, pieces: seq<Piece>, stopReason: string)
    requires Streams(events, pieces, stopReason)
    ensures Streamed(events) == Some(
              Reply(Texts(Blocks(pieces)), if stopReason == "tool_use" then Calls(Blocks(pieces)) else [],
                    if stopReason == "tool_use" then "tool_calls" else "stop"))
  {
    var tail: seq<Event> :| Denoise(events) == Events(pieces, [MessageDelta(stopReason)] + tail)
             && (tail == [] || tail[0].MessageStop?);
    var calls, texts := Calls(Blocks(pieces)), Texts(Blocks(pieces));
    NoiseIgnored(events, []);
    PiecesGather(pieces, [MessageDelta(stopReason)] + tail, [], NOTHING);
    Unit(calls);
    Unit(texts);
    Closing(stopReason, tail, calls, texts);
  }

  /** The closing events turn what was gathered into the reply. */
  lemma Closing(stopReason: string, tail: seq<Event>, calls: seq<ToolCall>, texts: string)
    requires tail == [] || tail[0].MessageStop?
    ensures Gather(Read([MessageDelta(stopReason)] + tail, calls), Reply(texts, [], ""))
         == Some(Reply(texts, if stopReason == "tool_use" then calls else [],
                       if stopReason == "tool_use" then "tool_calls" else "stop"))
  {
    var chunk := FinishChunk(stopReason, calls);
    Tail(MessageDelta(stopReason), tail);
    assert Read([MessageDelta(stopReason)] + tail, calls) == [chunk];
    assert [chunk][1..] == [];
    Unit(texts);
    Unit(chunk.toolCalls);
  }

  // ---- Streamed against buffered ----

  /** The piece streams the block: the text is the same, a tool use has the same id and name; how its
      arguments are spelled is left open. */
  predicate Carries(b: Block, p: Piece) {
    match b
    case Text(text) => p.TextPiece? && Concat(p.deltas) == text
    case ToolUse(id, name, _) => p.ToolPiece? && p.id == id && p.name == name
    case OtherBlock => p.OtherPiece?
  }

  ghost predicate CarriesAll(blocks: seq<Block>, pieces: seq<Piece>) {
    |blocks| == |pieces| && forall i | 0 <= i < |blocks| :: Carries(blocks[i], pieces[i])
  }

  /** The deltas spell every tool's arguments as marshalling does. */
  ghost predicate SpelledAlike(blocks: seq<Block>, pieces: seq<Piece>)
    requires CarriesAll(blocks, pieces)
  {
    forall i | 0 <= i < |blocks| && blocks[i].ToolUse? :: Concat(pieces[i].deltas) == blocks[i].args
  }

  ghost predicate NoTools(blocks: seq<Block>) {
    forall i | 0 <= i < |blocks| :: !blocks[i].ToolUse?
  }

  lemma CarriedTail(blocks: seq<Block>, pieces: seq<Piece>)
    requires CarriesAll(blocks, pieces) && blocks != []
    ensures CarriesAll(blocks[1..], pieces[1..])
    ensures NoTools(blocks) <==> !blocks[0].ToolUse? && NoTools(blocks[1..])
    ensures SpelledAlike(blocks, pieces) <==>
              (blocks[0].ToolUse? ==> Concat(pieces[0].deltas) == blocks[0].args)
              && SpelledAlike(blocks[1..], pieces[1..])
  {
    assert forall i | 1 <= i < |blocks| :: blocks[i] == blocks[1..][i - 1] && pieces[i] == pieces[1..][i - 1];
  }

  /** Texts always come out alike, tool calls exactly if they are spelled alike. */
  lemma {:induction false} CarriedAlike(blocks: seq<Block>, pieces: seq<Piece>)
    requires CarriesAll(blocks, pieces)
    ensures Texts(Blocks(pieces)) == Texts(blocks)
    ensures Calls(Blocks(pieces)) == Calls(blocks) <==> SpelledAlike(blocks, pieces)
    ensures Calls(blocks) == [] <==> NoTools(blocks)
    decreases |blocks|
  {
    if blocks != [] {
      CarriedTail(blocks, pieces);
      CarriedAlike(blocks[1..], pieces[1..]);
      BlocksHead(pieces);
      SameConcat(CallOf(BlockOf(pieces[0])), CallOf(blocks[0]), Calls(Blocks(pieces[1..])), Calls(blocks[1..]));
    }
  }

  lemma SameConcat(a: seq<ToolCall>, b: seq<ToolCall>, x: seq<ToolCall>, y: seq<ToolCall>)
    requires |a| == |b|
    ensures a + x == b + y <==> a == b && x == y
  {
    assert (a + x)[..|a|] == a && (a + x)[|a|..] == x;
    assert (b + y)[..|b|] == b && (b + y)[|b|..] == y;
  }

  /** A streamed reply is the buffered one, however text and arguments are cut, exactly when there are no
      tools, or the stop reason is tool_use and the stream spells the arguments as marshalling does. */
  lemma StreamedIsBuffered(events: seq<Event>, blocks: seq<Block>, pieces: seq<Piece>, stopReason: string)
    requires Streams(events, pieces, stopReason) && CarriesAll(blocks, pieces)
    ensures Streamed(events) == Some(Buffered(blocks, stopReason))
      <==> NoTools(blocks) || (stopReason == "tool_use" && SpelledAlike(blocks, pieces))
  {
    StreamedReply(events, pieces, stopReason);
    CarriedAlike(blocks, pieces);
  }

  /** Marshalling never gives the empty text, so a tool streamed without arguments makes them differ. */
  lemma BareToolDiffers(events: seq<Event>, blocks: seq<Block>, pieces: seq<Piece>, stopReason: string, k: nat)
    requires Streams(events, pieces, stopReason) && CarriesAll(blocks, pieces)
    requires k < |blocks| && blocks[k].ToolUse? && blocks[k].args != "" && Concat(pieces[k].deltas) == ""
    ensures Streamed(events) != Some(Buffered(blocks, stopReason))
  {
    StreamedIsBuffered(events, blocks, pieces, stopReason);
  }

  // ---- Streams that do not end as they should ----

  /** An error or a cancelled context is met before the message's end. */
  predicate BreaksOff(events: seq<Event>) {
    events != [] && !events[0].MessageStop? && (events[0].Broken? || BreaksOff(events[1..]))
  }

  /** No reply comes of a stream exactly when it breaks off with an error before the message's end. */
  lemma {:induction false} BrokenIsNoReply(events: seq<Event>, pending: seq<ToolCall>, so: Reply)
    ensures Gather(Read(events, pending), so) == None <==> BreaksOff(events)
    decreases |events|
  {
    if events != [] {
      var rest := events[1..];
      match events[0]
      case ToolStart(id, name) => BrokenIsNoReply(rest, pending + [ToolCall(id, name, "")], so);
      case TextDelta(text) =>
        Tail(Chunk(text, [], ""), Read(rest, pending));
        BrokenIsNoReply(rest, pending, Reply(so.content + text, so.toolCalls + [], so.finishReason));
      case JsonDelta(json) => BrokenIsNoReply(rest, AppendArgs(pending, json), so);
      case MessageDelta(stop) =>
        var left := if stop == "tool_use" then [] else pending;
        var chunk := FinishChunk(stop, pending);
        Tail(chunk, Read(rest, left));
        BrokenIsNoReply(rest, left, Reply(so.content + "", so.toolCalls + chunk.toolCalls,
          if chunk.finishReason != "" then chunk.finishReason else so.finishReason));
      case MessageStop =>
      case Noise => BrokenIsNoReply(rest, pending, so);
      case Broken =>
        Tail(ErrChunk, []);
    }
  }

  /** A stream that just ends, at any point before the stop reason, passes for a finished reply: the text
      so far, no tool calls, and finish reason stop. */
  lemma TruncatedIsReply(events: seq<Event>, pieces: seq<Piece>)
    requires Denoise(events) == Events(pieces, [])
    ensures Streamed(events) == Some(Reply(Texts(Blocks(pieces)), [], "stop"))
  {
    NoiseIgnored(events, []);
    PiecesGather(pieces, [], [], NOTHING);
    Unit(Calls(Blocks(pieces)));
    Unit(Texts(Blocks(pieces)));
  }
}

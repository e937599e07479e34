// The streaming half of agentorchestrator/agent_loop.go, between the chunks a provider sends and the
// reply the agent loop goes on with.
module AgentStreams {
  import opened Common
  import opened Sequences
  import S = Streaming
  import A = AgentLoop

  // ---- What the chunks say, read one aspect at a time ----

  predicate Whole(chunks: seq<S.Chunk>) {
    chunks == [] || (chunks[0].Chunk? && Whole(chunks[1..]))
  }

  /** The deltas before the end, or before the error. */
  function Deltas(chunks: seq<S.Chunk>): seq<string> {
    if chunks == [] || chunks[0].ErrChunk? then [] else [chunks[0].delta] + Deltas(chunks[1..])
  }

  function ToolCalls(chunks: seq<S.Chunk>): seq<S.ToolCall> {
    if chunks == [] || chunks[0].ErrChunk? then [] else chunks[0].toolCalls + ToolCalls(chunks[1..])
  }

  /** The last finish reason given; sofar if there is none. */
  function Finish(chunks: seq<S.Chunk>, sofar: string): string {
    if chunks == [] || chunks[0].ErrChunk? then sofar
    else Finish(chunks[1..], if chunks[0].finishReason != "" then chunks[0].finishReason else sofar)
  }

  function Reason(finish: string): A.FinishReason {
    if finish == "" then A.NoReason
    else if finish == "tool_calls" then A.ToolUse
    else if finish == "stop" then A.Stop
    else A.OtherReason(finish)
  }

  /** The chunks as a stream of the agent loop. */
  function AsStream(chunks: seq<S.Chunk>): A.Stream {
    A.Stream(Deltas(chunks), if Whole(chunks) then Some((ToolCalls(chunks), Reason(Finish(chunks, "")))) else None)
  }

  /** A reply, or none, as the agent loop's. */
  function AsReply(r: Option<S.Reply>): A.Reply {
    match r
    case None => A.Error
    case Some(reply) =>
      A.Choices([A.Choice(Reason(reply.finishReason), A.Message(A.Assistant, reply.content, reply.toolCalls, ""))])
  }

  // ---- The two readings agree ----

  lemma {:induction false} GatherReads(chunks: seq<S.Chunk>, so: S.Reply)
    ensures S.Gather(chunks, so).Some? <==> Whole(chunks)
    ensures Whole(chunks) ==>
              var finish := Finish(chunks, so.finishReason);
              S.Gather(chunks, so)
              == Some(S.Reply(so.content + S.Concat(Deltas(chunks)), so.toolCalls + ToolCalls(chunks),
                              if finish == "" then "stop" else finish))
    decreases |chunks|
  {
    if chunks == [] {
      Unit(so.content);
      Unit(so.toolCalls);
    } else if chunks[0].Chunk? {
      var c, rest := chunks[0], chunks[1..];
      GatherReads(rest, S.Reply(so.content + c.delta, so.toolCalls + c.toolCalls,
                                if c.finishReason != "" then c.finishReason else so.finishReason));
      Assoc(so.content, c.delta, S.Concat(Deltas(rest)));
      Assoc(so.toolCalls, c.toolCalls, ToolCalls(rest));
      Tail(c.delta, Deltas(rest));
    }
  }

  /** The reply the loop hears from a streamed turn is the one gathered from its chunks. */
  lemma LoopHears(chunks: seq<S.Chunk>, turn: A.Turn)
    requires turn.stream == AsStream(chunks)
    ensures A.Heard(true, turn) == AsReply(S.Gather(chunks, S.NOTHING))
  {
    GatherReads(chunks, S.NOTHING);
    Unit(S.Concat(Deltas(chunks)));
    Unit(ToolCalls(chunks));
  }

  /** So a turn streamed from a provider's events is heard as the buffered turn exactly when the message
      has no tools, or stops for them with its arguments spelled as marshalling does. */
  lemma LoopHearsBuffered(events: seq<S.Event>, blocks: seq<S.Block>, pieces: seq<S.Piece>, stopReason: string,
                          turn: A.Turn)
    requires S.Streams(events, pieces, stopReason) && S.CarriesAll(blocks, pieces)
    requires turn.stream == AsStream(S.Read(events, []))
    requires turn.reply == AsReply(Some(S.Buffered(blocks, stopReason)))
    ensures A.Heard(true, turn) == A.Heard(false, turn)
      <==> S.NoTools(blocks) || (stopReason == "tool_use" && S.SpelledAlike(blocks, pieces))
  {
    LoopHears(S.Read(events, []), turn);
    S.StreamedReply(events, pieces, stopReason);
    S.StreamedIsBuffered(events, blocks, pieces, stopReason);
    AsReplyInjective(S.Streamed(events).value, S.Buffered(blocks, stopReason));
  }

  lemma AsReplyInjective(a: S.Reply, b: S.Reply)
    ensures AsReply(Some(a)) == AsReply(Some(b)) ==> a == b
  {
    if AsReply(Some(a)) == AsReply(Some(b)) {
      assert AsReply(Some(a)).choices[0] == AsReply(Some(b)).choices[0];
    }
  }
}

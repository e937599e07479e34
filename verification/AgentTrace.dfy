// agentorchestrator/agent_loop.go: what every run sends to the model, message by message, what it announces,
// step by step, and how it ends, said of the job and the script alone.
module AgentTrace {
  import opened Common
  import opened Sequences
  import Streaming
  import opened AgentLoop

  // ---- Messages by position ----

  function MessageAt(chat: Chat, k: nat): Message
    requires k < Size(chat)
  {
    if k == Size(chat) - 1 then chat.message else MessageAt(chat.earlier, k)
  }

  /** The assistant message that ended round r. */
  function Asked(job: Job, world: World, r: nat): Message
    requires FirstChoice(job, At(world, r)).Some?
  {
    FirstChoice(job, At(world, r)).value.message
  }

  /** How many messages there are before round r: the prompt's, and for each round the assistant's and one
      for each of its calls. */
  function Offset(job: Job, world: World, r: nat): nat {
    if r == 0 then Size(job.prompt)
    else
      Offset(job, world, r - 1)
      + (match FirstChoice(job, At(world, r - 1))
         case None => 0
         case Some(c) => 1 + |c.message.toolCalls|)
  }

  lemma {:induction false} ToolMessageAt(chat: Chat, calls: seq<ToolCall>, results: seq<string>, n: nat, k: nat)
    requires n <= |calls| && k < Size(chat) + n
    ensures var after := AddToolMessages(chat, calls, results, n);
            && Size(after) == Size(chat) + n
            && MessageAt(after, k) ==
               if k < Size(chat) then MessageAt(chat, k)
               else Message(ToolRole, ResultAt(results, k - Size(chat)), [], calls[k - Size(chat)].id)
  {
    if n > 0 && k < Size(chat) + n - 1 {
      ToolMessageAt(chat, calls, results, n - 1, k);
    } else {
      ToolSize(chat, calls, results, n);
    }
  }

  lemma {:induction false} ToolSize(chat: Chat, calls: seq<ToolCall>, results: seq<string>, n: nat)
    requires n <= |calls|
    ensures Size(AddToolMessages(chat, calls, results, n)) == Size(chat) + n
  {
    if n > 0 { ToolSize(chat, calls, results, n - 1); }
  }

  lemma RoundMessageAt(chat: Chat, turn: Turn, c: Choice, k: nat)
    requires k < Size(chat) + 1 + |c.message.toolCalls|
    ensures var after, calls := AddRoundMessages(chat, turn, c), c.message.toolCalls;
            && Size(after) == Size(chat) + 1 + |calls|
            && MessageAt(after, k) ==
               if k < Size(chat) then MessageAt(chat, k)
               else if k == Size(chat) then c.message
               else Message(ToolRole, ResultAt(turn.results, k - Size(chat) - 1), [], calls[k - Size(chat) - 1].id)
  {
    ToolMessageAt(Said(chat, c.message), c.message.toolCalls, turn.results, |c.message.toolCalls|, k);
  }

  /** What the model is sent after n rounds is what it was sent after n - 1 and one round more. */
  lemma SentAfter(job: Job, world: World, n: nat)
    requires n > 0 && Rounds(job, world, n)
    ensures Rounds(job, world, n - 1) && FirstChoice(job, At(world, n - 1)).Some?
    ensures Screened(job, Conversation(job, world, n))
            == AddRoundMessages(Screened(job, Conversation(job, world, n - 1)), At(world, n - 1),
                                FirstChoice(job, At(world, n - 1)).value)
  {
    ConversationPaired(job, world, n);
  }

  /** The first messages sent are the prompt's, with the last one redacted where redaction is asked for and
      PII was found in it, and unchanged otherwise. */
  ghost predicate PromptKept(job: Job, chat: Chat) {
    && Size(chat) >= Size(job.prompt)
    && (forall k | 0 <= k < Size(job.prompt) - 1 :: MessageAt(chat, k) == MessageAt(job.prompt, k))
    && (Size(job.prompt) > 0 ==>
          var last := job.prompt.message;
          MessageAt(chat, Size(job.prompt) - 1)
          == if job.pii == Redact && last.role == User && last.text != "" && last.text in job.redactions
             then Message(User, job.redactions[last.text], last.toolCalls, last.toolCallId) else last)
  }

  /** The assistant message of a turn that was answered: the first choice of a buffered reply, or what the
      stream spelled out. */
  ghost predicate IsAnswer(job: Job, turn: Turn, m: Message) {
    if job.streaming then
      && turn.stream.end.Some?
      && m == Message(Assistant, Streaming.Concat(turn.stream.deltas), turn.stream.end.value.0, "")
    else turn.reply.Choices? && turn.reply.choices != [] && m == turn.reply.choices[0].message
  }

  ghost predicate IsToolMessage(m: Message, call: ToolCall, results: seq<string>, i: nat) {
    && m.role == ToolRole && m.toolCalls == [] && m.toolCallId == call.id
    && (i < |results| ==> m.text == results[i])
  }

  /** Round r of the conversation: the assistant's message, and then for each of its calls, in order, a tool
      message with that call's id and result. */
  ghost predicate RoundKept(job: Job, world: World, r: nat, chat: Chat) {
    && FirstChoice(job, At(world, r)).Some?
    && var m, at := Asked(job, world, r), Offset(job, world, r);
       && IsAnswer(job, At(world, r), m)
       && at + |m.toolCalls| < Size(chat)
       && MessageAt(chat, at) == m
       && forall i | 0 <= i < |m.toolCalls| ::
            IsToolMessage(MessageAt(chat, at + 1 + i), m.toolCalls[i], At(world, r).results, i)
  }

  lemma PromptScreened(job: Job)
    ensures Size(Screened(job, job.prompt)) == Size(job.prompt) && PromptKept(job, Screened(job, job.prompt))
  {
  }

  lemma MoreKeepsPrompt(job: Job, chat: Chat, turn: Turn, c: Choice)
    requires PromptKept(job, chat)
    ensures PromptKept(job, AddRoundMessages(chat, turn, c))
  {
    RoundMessageAt(chat, turn, c, Size(chat));
    forall k | 0 <= k < Size(job.prompt)
      ensures MessageAt(AddRoundMessages(chat, turn, c), k) == MessageAt(chat, k)
    {
      RoundMessageAt(chat, turn, c, k);
    }
  }

  lemma MoreKeepsRound(job: Job, world: World, r: nat, chat: Chat, turn: Turn, c: Choice)
    requires RoundKept(job, world, r, chat)
    ensures RoundKept(job, world, r, AddRoundMessages(chat, turn, c))
  {
    var m, at := Asked(job, world, r), Offset(job, world, r);
    RoundMessageAt(chat, turn, c, at);
    forall i | 0 <= i < |m.toolCalls|
      ensures IsToolMessage(MessageAt(AddRoundMessages(chat, turn, c), at + 1 + i), m.toolCalls[i],
                            At(world, r).results, i)
    {
      RoundMessageAt(chat, turn, c, at + 1 + i);
    }
  }

  lemma NewRound(job: Job, world: World, r: nat, chat: Chat)
    requires FirstChoice(job, At(world, r)).Some? && Size(chat) == Offset(job, world, r)
    ensures var after := AddRoundMessages(chat, At(world, r), FirstChoice(job, At(world, r)).value);
            RoundKept(job, world, r, after) && Size(after) == Offset(job, world, r + 1)
  {
    var c := FirstChoice(job, At(world, r)).value;
    RoundMessageAt(chat, At(world, r), c, Size(chat));
    forall i | 0 <= i < |c.message.toolCalls|
      ensures IsToolMessage(MessageAt(AddRoundMessages(chat, At(world, r), c), Size(chat) + 1 + i),
                            c.message.toolCalls[i], At(world, r).results, i)
    {
      RoundMessageAt(chat, At(world, r), c, Size(chat) + 1 + i);
    }
  }

  ghost predicate Transcript(job: Job, world: World, n: nat, chat: Chat) {
    && Size(chat) == Offset(job, world, n)
    && PromptKept(job, chat)
    && forall r | 0 <= r < n :: RoundKept(job, world, r, chat)
  }

  lemma {:induction false} SentTranscript(job: Job, world: World, n: nat)
    requires Rounds(job, world, n)
    ensures Transcript(job, world, n, Screened(job, Conversation(job, world, n)))
  {
    if n == 0 {
      PromptScreened(job);
    } else {
      SentAfter(job, world, n);
      SentTranscript(job, world, n - 1);
      var before, turn := Screened(job, Conversation(job, world, n - 1)), At(world, n - 1);
      var c := FirstChoice(job, turn).value;
      MoreKeepsPrompt(job, before, turn, c);
      NewRound(job, world, n - 1, before);
      forall r | 0 <= r < n - 1
        ensures RoundKept(job, world, r, AddRoundMessages(before, turn, c))
      {
        MoreKeepsRound(job, world, r, before, turn, c);
      }
    }
  }

  /** The k-th call, counting from 0. */
  function SentAt(sent: Sent, k: nat): Chat
    requires k < Calls(sent)
  {
    if k == Calls(sent) - 1 then sent.chat else SentAt(sent.earlier, k)
  }

  lemma {:induction false} SentInAt(job: Job, world: World, n: nat, k: nat)
    requires k < n
    ensures Calls(SentIn(job, world, n)) == n
    ensures SentAt(SentIn(job, world, n), k) == Screened(job, Conversation(job, world, k))
  {
    SentOncePerRound(job, world, n);
    if k < n - 1 { SentInAt(job, world, n - 1, k); }
  }

  lemma FinishSends(job: Job, turn: Turn, n: nat, db: Record, s: State)
    ensures Finish(job, turn, n, db, s).sent
            == if CallsModel(job, turn, Blocked(job, s.chat), n) then Call(s.sent, Screened(job, s.chat)) else s.sent
  {
  }

  lemma {:induction false} RoundsBefore(job: Job, world: World, n: nat, k: nat)
    requires Rounds(job, world, n) && k <= n
    ensures Rounds(job, world, k)
  {
    if k < n { RoundsBefore(job, world, n - 1, k); }
  }

  /** The k-th model call of any run is sent the prompt, its last message redacted if need be, and then the
      k rounds before it, each with its tool results in place. */
  lemma RunSends(job: Job, world: World, n: nat, db: Record, k: nat)
    requires Rounds(job, world, n) && k < Calls(Final(job, world, n, db).sent)
    ensures k <= n && Transcript(job, world, k, SentAt(Final(job, world, n, db).sent, k))
  {
    SentOncePerRound(job, world, n);
    FinishSends(job, At(world, n), n, db, After(job, world, n, db));
    if k < n {
      SentInAt(job, world, n, k);
    }
    RoundsBefore(job, world, n, if k <= n then k else n);
    SentTranscript(job, world, if k <= n then k else n);
  }

  // ---- What is announced, step by step ----

  /** What the events of one step say: the tool calls announced and the results returned, in order, the text
      streamed, and the finish reasons. */
  datatype Facts = Facts(called: seq<(string, string)>, returned: seq<(string, string)>, spoken: string,
                         finished: seq<FinishReason>)

  const NOTHING := Facts([], [], "", [])

  function Heed(f: Facts, e: Event, step: nat): Facts {
    match e
    case ToolCalled(s, id, name) => if s == step then f.(called := f.called + [(id, name)]) else f
    case ToolReturned(s, id, result) => if s == step then f.(returned := f.returned + [(id, result)]) else f
    case Token(s, delta) => if s == step then f.(spoken := f.spoken + delta) else f
    case ModelResponse(s, reason) => if s == step then f.(finished := f.finished + [reason]) else f
    case _ => f
  }

  function FactsOf(log: Log, step: nat): Facts {
    match log
    case Silent => NOTHING
    case Then(earlier, e) => Heed(FactsOf(earlier, step), e, step)
  }

  function Named(calls: seq<ToolCall>): seq<(string, string)> {
    seq(|calls|, i requires 0 <= i < |calls| => (calls[i].id, calls[i].name))
  }

  function ResultsOf(calls: seq<ToolCall>, results: seq<string>): seq<(string, string)> {
    seq(|calls|, i requires 0 <= i < |calls| => (calls[i].id, ResultAt(results, i)))
  }

  lemma {:induction false} CallsHeeded(log: Log, step: nat, calls: seq<ToolCall>, n: nat, k: nat)
    requires n <= |calls|
    ensures FactsOf(AddCalls(log, step, calls, n), k)
            == var f := FactsOf(log, k); if k == step then f.(called := f.called + Named(calls)[..n]) else f
  {
    if n == 0 {
      assert Named(calls)[..0] == [];
      Unit(FactsOf(log, k).called);
    } else {
      CallsHeeded(log, step, calls, n - 1, k);
      assert Named(calls)[..n] == Named(calls)[..n - 1] + [Named(calls)[n - 1]];
      Assoc(FactsOf(log, k).called, Named(calls)[..n - 1], [Named(calls)[n - 1]]);
    }
  }

  lemma {:induction false} ResultsHeeded(log: Log, step: nat, calls: seq<ToolCall>, results: seq<string>, n: nat,
      k: nat)
    requires n <= |calls|
    ensures FactsOf(AddResults(log, step, calls, results, n), k)
            == var f := FactsOf(log, k);
               if k == step then f.(returned := f.returned + ResultsOf(calls, results)[..n]) else f
  {
    var all := ResultsOf(calls, results);
    if n == 0 {
      assert all[..0] == [];
      Unit(FactsOf(log, k).returned);
    } else {
      ResultsHeeded(log, step, calls, results, n - 1, k);
      assert all[..n] == all[..n - 1] + [all[n - 1]];
      Assoc(FactsOf(log, k).returned, all[..n - 1], [all[n - 1]]);
    }
  }

  lemma {:induction false} TokensHeeded(log: Log, step: nat, deltas: seq<string>, n: nat, k: nat)
    requires n <= |deltas|
    ensures FactsOf(AddTokens(log, step, deltas, n), k)
            == var f := FactsOf(log, k);
               if k == step then f.(spoken := f.spoken + Streaming.Concat(deltas[..n])) else f
  {
    var f := FactsOf(log, k);
    if n == 0 {
      assert deltas[..0] == [];
      Unit(f.spoken);
    } else {
      TokensHeeded(log, step, deltas, n - 1, k);
      assert deltas[..n] == deltas[..n - 1] + [deltas[n - 1]];
      Streaming.ConcatLast(deltas[..n - 1], deltas[n - 1]);
      Assoc(f.spoken, Streaming.Concat(deltas[..n - 1]), deltas[n - 1]);
      Unit(f.spoken + Streaming.Concat(deltas[..n - 1]));
    }
  }

  /** What a model call announces before its response. */
  function CallFacts(streaming: bool, turn: Turn): Facts {
    if !streaming then NOTHING
    else Facts(if turn.stream.end.Some? then Named(turn.stream.end.value.0) else [], [],
               Streaming.Concat(turn.stream.deltas), [])
  }

  lemma InvokeHeeded(log: Log, step: nat, streaming: bool, turn: Turn, k: nat)
    ensures k != step ==> FactsOf(AddInvoke(log, step, streaming, turn), k) == FactsOf(log, k)
    ensures FactsOf(log, step) == NOTHING ==>
              FactsOf(AddInvoke(log, step, streaming, turn), step) == CallFacts(streaming, turn)
  {
    if streaming {
      var invoked, deltas := Then(log, ModelInvoke(step)), turn.stream.deltas;
      TokensHeeded(invoked, step, deltas, |deltas|, k);
      TokensHeeded(invoked, step, deltas, |deltas|, step);
      assert deltas[..|deltas|] == deltas;
      Unit(Streaming.Concat(deltas));
      if turn.stream.end.Some? {
        var calls, spoken := turn.stream.end.value.0, AddTokens(invoked, step, deltas, |deltas|);
        CallsHeeded(spoken, step, calls, |calls|, k);
        CallsHeeded(spoken, step, calls, |calls|, step);
        assert Named(calls)[..|calls|] == Named(calls);
        Unit(Named(calls));
      }
    }
  }

  /** What a whole round announces: the call again for each tool call once the response is in. */
  function RoundFacts(job: Job, turn: Turn, c: Choice): Facts {
    var f := CallFacts(job.streaming, turn);
    Facts(f.called + Named(c.message.toolCalls), ResultsOf(c.message.toolCalls, turn.results), f.spoken,
          [c.finishReason])
  }

  lemma RoundHeeded(log: Log, step: nat, job: Job, turn: Turn, c: Choice, k: nat)
    ensures k != step ==> FactsOf(AddRound(log, step, job.streaming, turn, c), k) == FactsOf(log, k)
    ensures FactsOf(log, step) == NOTHING ==>
              FactsOf(AddRound(log, step, job.streaming, turn, c), step) == RoundFacts(job, turn, c)
  {
    var calls := c.message.toolCalls;
    InvokeHeeded(log, step, job.streaming, turn, k);
    var responded := Then(AddInvoke(log, step, job.streaming, turn), ModelResponse(step, c.finishReason));
    var called := AddCalls(responded, step, calls, |calls|);
    CallsHeeded(responded, step, calls, |calls|, k);
    CallsHeeded(responded, step, calls, |calls|, step);
    ResultsHeeded(called, step, calls, turn.results, |calls|, k);
    ResultsHeeded(called, step, calls, turn.results, |calls|, step);
    WholeLists(calls, turn.results);
  }

  lemma WholeLists(calls: seq<ToolCall>, results: seq<string>)
    ensures Named(calls)[..|calls|] == Named(calls)
    ensures [] + ResultsOf(calls, results)[..|calls|] == ResultsOf(calls, results)
  {
  }

  lemma {:induction false} LogFacts(job: Job, world: World, n: nat, k: nat)
    requires Rounds(job, world, n)
    ensures FactsOf(LogOf(job, world, n), k)
            == if 1 <= k <= n && FirstChoice(job, At(world, k - 1)).Some?
               then RoundFacts(job, At(world, k - 1), FirstChoice(job, At(world, k - 1)).value) else NOTHING
  {
    if n > 0 {
      var turn := At(world, n - 1);
      LogFacts(job, world, n - 1, k);
      LogFacts(job, world, n - 1, n);
      RoundHeeded(LogOf(job, world, n - 1), n, job, turn, FirstChoice(job, turn).value, k);
    }
  }

  lemma ClosingHeeded(job: Job, turn: Turn, blocked: bool, n: nat, log: Log, k: nat)
    ensures k != n + 1 ==> FactsOf(Closing(job, turn, blocked, n, log), k) == FactsOf(log, k)
  {
    InvokeHeeded(log, n + 1, job.streaming, turn, k);
  }

  lemma FinishHeeded(job: Job, turn: Turn, n: nat, db: Record, s: State, k: nat)
    requires k != n + 1
    ensures FactsOf(Finish(job, turn, n, db, s).log, k) == FactsOf(s.log, k)
  {
    ClosingHeeded(job, turn, Blocked(job, s.chat), n, s.log, k);
  }

  /** In the log of any run with a model, round r announces its text if it was streamed, the finish reason,
      every tool call with its name (twice if streamed), and for each of them its result. */
  lemma RunAnnounces(job: Job, world: World, n: nat, db: Record, r: nat)
    requires Rounds(job, world, n) && job.model != None && r < n
    ensures FirstChoice(job, At(world, r)).Some?
    ensures var c, f := FirstChoice(job, At(world, r)).value, FactsOf(Final(job, world, n, db).log, r + 1);
            var calls := c.message.toolCalls;
            && IsAnswer(job, At(world, r), c.message)
            && f.called == (if job.streaming then Named(calls) + Named(calls) else Named(calls))
            && |f.returned| == |calls|
            && (forall i | 0 <= i < |calls| :: f.returned[i].0 == calls[i].id
                 && (i < |At(world, r).results| ==> f.returned[i].1 == At(world, r).results[i]))
            && f.spoken == (if job.streaming then c.message.text else "")
            && f.finished == [c.finishReason]
  {
    RoundsBefore(job, world, n, r + 1);
    LogFacts(job, world, n, r + 1);
    FinishHeeded(job, At(world, n), n, db, After(job, world, n, db), r + 1);
    Unit(Named(FirstChoice(job, At(world, r)).value.message.toolCalls));
  }

  // ---- Where and how a run ends ----

  /** The reply of a turn is an answer with this finish reason and message. */
  ghost predicate Answers(job: Job, turn: Turn, reason: FinishReason, m: Message) {
    && IsAnswer(job, turn, m)
    && (if job.streaming then
          reason == (if turn.stream.end.value.1 == NoReason then Stop else turn.stream.end.value.1)
        else reason == turn.reply.choices[0].finishReason)
  }

  /** The turn is answered with tool calls to make. */
  ghost predicate AsksForTools(job: Job, turn: Turn) {
    exists m :: Answers(job, turn, ToolUse, m) && m.toolCalls != []
  }

  ghost predicate Unanswered(job: Job, turn: Turn) {
    if job.streaming then turn.stream.end.None? else turn.reply.Error?
  }

  lemma ChoiceAnswers(job: Job, turn: Turn)
    ensures FirstChoice(job, turn).Some? ==>
              Answers(job, turn, FirstChoice(job, turn).value.finishReason, FirstChoice(job, turn).value.message)
    ensures (exists reason, m :: Answers(job, turn, reason, m)) ==> FirstChoice(job, turn).Some?
    ensures FirstChoice(job, turn).Some? ==>
              (AsksForTools(job, turn) <==> WantsTools(FirstChoice(job, turn).value))
  {
    var c := FirstChoice(job, turn);
    if c.Some? && WantsTools(c.value) {
      assert Answers(job, turn, ToolUse, c.value.message);
    }
  }

  /** The run's user message is found to hold PII while input is to be blocked. */
  predicate InputBlocked(job: Job) {
    && job.pii == Block && Size(job.prompt) > 0
    && var last := job.prompt.message;
       last.role == User && last.text != "" && last.text in job.redactions
  }

  lemma {:induction false} BlockedOnlyAtOnce(job: Job, world: World, n: nat)
    requires Rounds(job, world, n)
    ensures Blocked(job, Conversation(job, world, n)) <==> n == 0 && InputBlocked(job)
  {
    if n > 0 {
      BlockedOnlyAtOnce(job, world, n - 1);
      SentAfter(job, world, n);
      ConversationPaired(job, world, n);
      LastIsTool(Screened(job, Conversation(job, world, n - 1)), At(world, n - 1),
                 FirstChoice(job, At(world, n - 1)).value);
    }
  }

  lemma LastIsTool(chat: Chat, turn: Turn, c: Choice)
    requires c.message.toolCalls != []
    ensures var after := AddRoundMessages(chat, turn, c); after.Said? && after.message.role == ToolRole
  {
  }

  /** Every step before the last one was answered with tool calls, not cancelled and not blocked. */
  lemma {:induction false} RoundsAsk(job: Job, world: World, n: nat, k: nat)
    requires Rounds(job, world, n) && k < n
    ensures k < job.maxSteps && !At(world, k).canceledBefore && AsksForTools(job, At(world, k))
    ensures !InputBlocked(job)
  {
    if k < n - 1 {
      RoundsAsk(job, world, n - 1, k);
    } else {
      ChoiceAnswers(job, At(world, k));
      RoundsBefore(job, world, n, k);
      BlockedOnlyAtOnce(job, world, k);
      if k > 0 { RoundsAsk(job, world, n - 1, k - 1); }
    }
  }

  /** How the run ends, from its last turn: the step limit, a cancelled context, blocked input, no answer, no
      choice, or an answer without tool calls to make. */
  ghost predicate EndsAs(job: Job, turn: Turn, n: nat, e: Event) {
    if n >= job.maxSteps then e.RunFailed? && e.code == MaxStepsExceeded
    else if turn.canceledBefore then e.RunFailed? && e.code == RunCanceled
    else if n == 0 && InputBlocked(job) then e.RunFailed? && e.code == PiiBlocked
    else if Unanswered(job, turn) then
      e.RunFailed? && e.code == (if turn.canceledAfter then RunCanceled else ProviderError)
    else if !job.streaming && turn.reply.choices == [] then e.RunFailed? && e.code == ProviderError
    else e == RunCompleted(n + 1) && !AsksForTools(job, turn)
  }

  lemma FinishEnds(job: Job, turn: Turn, n: nat, db: Record, s: State)
    ensures var o, e := Finish(job, turn, n, db, s), EndingAt(job, turn, Blocked(job, s.chat), n);
            && o.log.Then?
            && (e.Fails? ==> o.log.event.RunFailed? && o.log.event.code == e.code)
            && (e.Answered? ==> o.log.event == RunCompleted(n + 1))
  {
  }

  /** A run with a model makes rounds exactly while it can, and ends as its next turn says; a run without
      one fails at once. */
  lemma RunEnds(job: Job, world: World, n: nat, db: Record)
    requires Rounds(job, world, n)
    requires n < job.maxSteps ==> !GoesOn(job, At(world, n), Conversation(job, world, n))
    ensures forall k | 0 <= k < n :: !At(world, k).canceledBefore && AsksForTools(job, At(world, k))
    ensures var o := Final(job, world, n, db);
            && o.log.Then?
            && (if job.model == None then o.log.event.RunFailed? && o.log.event.code == NoModel && o.sent == NoCall
                else EndsAs(job, At(world, n), n, o.log.event))
            && (if o.log.event.RunCompleted? then EndingOf(job, world, n).Answered?
                else o.log.event.RunFailed? && EndingOf(job, world, n) == Fails(o.log.event.code))
  {
    forall k | 0 <= k < n
      ensures !At(world, k).canceledBefore && AsksForTools(job, At(world, k))
    {
      RoundsAsk(job, world, n, k);
    }
    BlockedOnlyAtOnce(job, world, n);
    ChoiceAnswers(job, At(world, n));
    FinishEnds(job, At(world, n), n, db, After(job, world, n, db));
  }
}

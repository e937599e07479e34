// agentorchestrator/agent_loop.go: one run of an agent, against any model, tools and PII detector.
// The outside world is a script: what happens at each step of the loop.
module AgentLoop {
  import opened Common
  import Streaming

  type ToolCall = Streaming.ToolCall

  datatype Role = System | User | Assistant | ToolRole | OtherRole(name: string)

  /** NoReason is the empty string a stream may leave. */
  datatype FinishReason = ToolUse | Stop | OtherReason(name: string) | NoReason

  datatype Message = Message(role: Role, text: string, toolCalls: seq<ToolCall>, toolCallId: string)

  /** A conversation, newest message last. */
  datatype Chat = Nobody | Said(earlier: Chat, message: Message)

  datatype Choice = Choice(finishReason: FinishReason, message: Message)

  datatype Reply = Error | Choices(choices: seq<Choice>)

  /** A streamed reply: the deltas received, then an error or the accumulated tool calls and finish reason. */
  datatype Stream = Stream(deltas: seq<string>, end: Option<(seq<ToolCall>, FinishReason)>)

  /** One step of the loop: is the context over before it, what the model answers (streamed or not), is
      the context over once the model failed, and what the tools return, by position of the call.
      cancels: the cancel handler writes its status to the store at some point of the step. */
  datatype Turn = Turn(canceledBefore: bool, reply: Reply, stream: Stream, canceledAfter: bool,
                       results: seq<string>, cancels: bool)

  type World = seq<Turn>

  /** The script's turn n; past its end the context is over. */
  function At(world: World, n: nat): Turn {
    if n < |world| then world[n] else Turn(true, Error, Stream([], None), true, [], false)
  }

  function ResultAt(results: seq<string>, i: nat): string {
    if i < |results| then results[i] else ""
  }

  datatype PiiMode = Off | Block | Redact | Warn

  /** redactions holds, for each text in which PII is found, the text with the PII replaced. */
  datatype Job = Job(runId: string, retryOf: string, maxSteps: int, model: Option<string>, streaming: bool,
                     prompt: Chat, pii: PiiMode, redactions: map<string, string>,
                     autoRetry: bool)

  datatype Code = NoModel | RunCanceled | PiiBlocked | ProviderError | MaxStepsExceeded

  datatype Event =
    | RunStarted
    | ModelInvoke(step: nat)
    | Token(step: nat, delta: string)
    | ModelResponse(step: nat, finishReason: FinishReason)
    | ToolCalled(step: nat, id: string, name: string)
    | ToolReturned(step: nat, id: string, result: string)
    | RunCompleted(steps: nat)
    | RunFailed(code: Code, alreadyTerminal: bool)

  /** The events emitted so far, newest last. */
  datatype Log = Silent | Then(earlier: Log, event: Event)

  datatype Status = Queued | Running | Completed | Failed | Canceled

  // ---- What one step does ----

  /** The reply the loop works with; a stream that ends well becomes a single assistant choice. */
  function Heard(streaming: bool, turn: Turn): Reply {
    if !streaming then turn.reply
    else
      match turn.stream.end
      case None => Error
      case Some((calls, finish)) =>
        Choices([Choice(if finish == NoReason then Stop else finish,
                        Message(Assistant, Streaming.Concat(turn.stream.deltas), calls, ""))])
  }

  predicate WantsTools(c: Choice) {
    c.finishReason == ToolUse && c.message.toolCalls != []
  }

  /** The latest message is a user's and holds PII. */
  predicate Sensitive(job: Job, chat: Chat) {
    && job.pii != Off
    && chat.Said? && chat.message.role == User && chat.message.text != ""
    && chat.message.text in job.redactions
  }

  function Screened(job: Job, chat: Chat): Chat {
    if Sensitive(job, chat) && job.pii == Redact then
      Said(chat.earlier, chat.message.(text := job.redactions[chat.message.text]))
    else chat
  }

  /** The chat with the results of the first n calls. */
  function AddToolMessages(chat: Chat, calls: seq<ToolCall>, results: seq<string>, n: nat): Chat
    requires n <= |calls|
  {
    if n == 0 then chat
    else Said(AddToolMessages(chat, calls, results, n - 1),
              Message(ToolRole, ResultAt(results, n - 1), [], calls[n - 1].id))
  }

  function AddRoundMessages(chat: Chat, turn: Turn, c: Choice): Chat {
    AddToolMessages(Said(chat, c.message), c.message.toolCalls, turn.results, |c.message.toolCalls|)
  }

  /** The log with a token event for each of the first n deltas that is not empty. */
  function AddTokens(log: Log, step: nat, deltas: seq<string>, n: nat): Log
    requires n <= |deltas|
  {
    if n == 0 then log
    else
      var sofar := AddTokens(log, step, deltas, n - 1);
      if deltas[n - 1] == "" then sofar else Then(sofar, Token(step, deltas[n - 1]))
  }

  function AddCalls(log: Log, step: nat, calls: seq<ToolCall>, n: nat): Log
    requires n <= |calls|
  {
    if n == 0 then log
    else Then(AddCalls(log, step, calls, n - 1), ToolCalled(step, calls[n - 1].id, calls[n - 1].name))
  }

  function AddResults(log: Log, step: nat, calls: seq<ToolCall>, results: seq<string>, n: nat): Log
    requires n <= |calls|
  {
    if n == 0 then log
    else Then(AddResults(log, step, calls, results, n - 1),
              ToolReturned(step, calls[n - 1].id, ResultAt(results, n - 1)))
  }

  /** The events of a streamed model call after its announcement. */
  function Streamed(log: Log, step: nat, turn: Turn): Log {
    var spoken := AddTokens(log, step, turn.stream.deltas, |turn.stream.deltas|);
    match turn.stream.end
    case None => spoken
    case Some((calls, _)) => AddCalls(spoken, step, calls, |calls|)
  }

  /** A streamed call announces its tokens, and its tool calls once the stream has ended. */
  function AddInvoke(log: Log, step: nat, streaming: bool, turn: Turn): Log {
    var invoked := Then(log, ModelInvoke(step));
    if streaming then Streamed(invoked, step, turn) else invoked
  }

  function AddRound(log: Log, step: nat, streaming: bool, turn: Turn, c: Choice): Log {
    var calls := c.message.toolCalls;
    var answered := Then(AddInvoke(log, step, streaming, turn), ModelResponse(step, c.finishReason));
    AddResults(AddCalls(answered, step, calls, |calls|), step, calls, turn.results, |calls|)
  }

  // ---- The whole run: n tool rounds, then an ending ----

  function FirstChoice(job: Job, turn: Turn): Option<Choice> {
    match Heard(job.streaming, turn)
    case Error => None
    case Choices(cs) => if cs == [] then None else Some(cs[0])
  }

  predicate ToolRound(job: Job, turn: Turn) {
    var c := FirstChoice(job, turn);
    !turn.canceledBefore && c.Some? && WantsTools(c.value)
  }

  predicate Blocked(job: Job, chat: Chat) {
    job.pii == Block && Sensitive(job, chat)
  }

  /** Step n + 1 is reached with these messages and answered with tool calls. */
  predicate GoesOn(job: Job, turn: Turn, chat: Chat) {
    ToolRound(job, turn) && !Blocked(job, chat)
  }

  /** The conversation after n tool rounds. */
  function Conversation(job: Job, world: World, n: nat): Chat {
    if n == 0 then job.prompt
    else
      var before := Screened(job, Conversation(job, world, n - 1));
      match FirstChoice(job, At(world, n - 1))
      case None => before
      case Some(c) => AddRoundMessages(before, At(world, n - 1), c)
  }

  /** The events up to there. */
  function LogOf(job: Job, world: World, n: nat): Log {
    if n == 0 then Then(Silent, RunStarted)
    else
      match FirstChoice(job, At(world, n - 1))
      case None => LogOf(job, world, n - 1)
      case Some(c) => AddRound(LogOf(job, world, n - 1), n, job.streaming, At(world, n - 1), c)
  }

  /** What the model was sent, newest call last. */
  datatype Sent = NoCall | Call(earlier: Sent, chat: Chat)

  function SentIn(job: Job, world: World, n: nat): Sent {
    if n == 0 then NoCall
    else Call(SentIn(job, world, n - 1), Screened(job, Conversation(job, world, n - 1)))
  }

  /** The first n steps were tool rounds, within the step limit. */
  predicate Rounds(job: Job, world: World, n: nat) {
    n == 0 || (n <= job.maxSteps && Rounds(job, world, n - 1)
               && GoesOn(job, At(world, n - 1), Conversation(job, world, n - 1)))
  }

  datatype Ending = Answered(text: string) | Fails(code: Code)

  /** How the run ends in the step after n tool rounds, if that step is not one itself. */
  function EndingAt(job: Job, turn: Turn, blocked: bool, n: nat): Ending {
    if n >= job.maxSteps then Fails(MaxStepsExceeded)
    else if turn.canceledBefore then Fails(RunCanceled)
    else if blocked then Fails(PiiBlocked)
    else
      match Heard(job.streaming, turn)
      case Error => Fails(if turn.canceledAfter then RunCanceled else ProviderError)
      case Choices(cs) => if cs == [] then Fails(ProviderError) else Answered(cs[0].message.text)
  }

  /** Whether the ending step calls the model. */
  predicate CallsModel(job: Job, turn: Turn, blocked: bool, n: nat) {
    n < job.maxSteps && !turn.canceledBefore && !blocked
  }

  predicate Terminal(s: Status) {
    s == Completed || s == Failed || s == Canceled
  }

  /** The log before the last event. */
  function Closing(job: Job, turn: Turn, blocked: bool, n: nat, log: Log): Log {
    if !CallsModel(job, turn, blocked, n) then log
    else
      var invoked := AddInvoke(log, n + 1, job.streaming, turn);
      match FirstChoice(job, turn)
      case None => invoked
      case Some(c) => Then(invoked, ModelResponse(n + 1, c.finishReason))
  }

  // ---- The trace of every run ----

  predicate IsEnd(e: Event) {
    e.RunCompleted? || e.RunFailed?
  }

  /** Model calls announced. */
  function Invokes(log: Log): nat {
    match log
    case Silent => 0
    case Then(earlier, e) => Invokes(earlier) + (if e.ModelInvoke? then 1 else 0)
  }

  /** A run under way: run.started came first and only then, nothing has ended it, and model calls are
      announced as steps 1, 2, ..., every other step event belonging to the latest of them. */
  predicate UnderWay(log: Log) {
    match log
    case Silent => false
    case Then(Silent, e) => e == RunStarted
    case Then(earlier, e) =>
      && UnderWay(earlier)
      && !IsEnd(e) && !e.RunStarted?
      && (if e.ModelInvoke? then e.step == Invokes(earlier) + 1 else e.step == Invokes(earlier))
  }

  /** run.started first, exactly one ending event, and it is last. */
  predicate WellFormed(log: Log) {
    log.Then? && IsEnd(log.event) && UnderWay(log.earlier)
  }

  lemma {:induction false} CallsKeep(log: Log, step: nat, calls: seq<ToolCall>, n: nat)
    requires n <= |calls| && UnderWay(log) && Invokes(log) == step
    ensures UnderWay(AddCalls(log, step, calls, n)) && Invokes(AddCalls(log, step, calls, n)) == step
  {
    if n > 0 { CallsKeep(log, step, calls, n - 1); }
  }

  lemma {:induction false} ResultsKeep(log: Log, step: nat, calls: seq<ToolCall>, results: seq<string>, n: nat)
    requires n <= |calls| && UnderWay(log) && Invokes(log) == step
    ensures UnderWay(AddResults(log, step, calls, results, n))
    ensures Invokes(AddResults(log, step, calls, results, n)) == step
  {
    if n > 0 { ResultsKeep(log, step, calls, results, n - 1); }
  }

  lemma {:induction false} TokensKeep(log: Log, step: nat, deltas: seq<string>, n: nat)
    requires n <= |deltas| && UnderWay(log) && Invokes(log) == step
    ensures UnderWay(AddTokens(log, step, deltas, n)) && Invokes(AddTokens(log, step, deltas, n)) == step
  {
    if n > 0 { TokensKeep(log, step, deltas, n - 1); }
  }

  lemma InvokeKeeps(log: Log, step: nat, streaming: bool, turn: Turn)
    requires UnderWay(log) && step == Invokes(log) + 1
    ensures UnderWay(AddInvoke(log, step, streaming, turn)) && Invokes(AddInvoke(log, step, streaming, turn)) == step
  {
    var invoked := Then(log, ModelInvoke(step));
    TokensKeep(invoked, step, turn.stream.deltas, |turn.stream.deltas|);
    var spoken := AddTokens(invoked, step, turn.stream.deltas, |turn.stream.deltas|);
    if turn.stream.end.Some? {
      CallsKeep(spoken, step, turn.stream.end.value.0, |turn.stream.end.value.0|);
    }
  }

  lemma RoundKeeps(log: Log, step: nat, streaming: bool, turn: Turn, c: Choice)
    requires UnderWay(log) && step == Invokes(log) + 1
    ensures UnderWay(AddRound(log, step, streaming, turn, c))
    ensures Invokes(AddRound(log, step, streaming, turn, c)) == step
  {
    var calls := c.message.toolCalls;
    InvokeKeeps(log, step, streaming, turn);
    var answered := Then(AddInvoke(log, step, streaming, turn), ModelResponse(step, c.finishReason));
    CallsKeep(answered, step, calls, |calls|);
    ResultsKeep(AddCalls(answered, step, calls, |calls|), step, calls, turn.results, |calls|);
  }

  lemma {:induction false} RoundsKeep(job: Job, world: World, n: nat)
    requires Rounds(job, world, n)
    ensures UnderWay(LogOf(job, world, n)) && Invokes(LogOf(job, world, n)) == n
  {
    if n > 0 {
      RoundsKeep(job, world, n - 1);
      var turn := At(world, n - 1);
      RoundKeeps(LogOf(job, world, n - 1), n, job.streaming, turn, FirstChoice(job, turn).value);
    }
  }

  lemma ClosingKeeps(job: Job, turn: Turn, blocked: bool, n: nat, log: Log)
    requires UnderWay(log) && Invokes(log) == n
    ensures UnderWay(Closing(job, turn, blocked, n, log))
    ensures Invokes(Closing(job, turn, blocked, n, log)) == n + (if CallsModel(job, turn, blocked, n) then 1 else 0)
  {
    InvokeKeeps(log, n + 1, job.streaming, turn);
  }

  function CallIds(calls: seq<ToolCall>): seq<string> {
    seq(|calls|, i requires 0 <= i < |calls| => calls[i].id)
  }

  /** Reads the log for the tool calls announced since the latest model response: each result must be
      for the next of them, and a model call or the end must find none unanswered.  None is a breach. */
  function Owed(log: Log): Option<seq<string>> {
    if log.Silent? then Some([])
    else
      match Owed(log.earlier)
      case None => None
      case Some(ids) =>
        match log.event
        case ModelResponse(_, _) => Some([])
        case ToolCalled(_, id, _) => Some(ids + [id])
        case ToolReturned(_, id, _) => if ids != [] && ids[0] == id then Some(ids[1..]) else None
        case ModelInvoke(_) => if ids == [] then Some([]) else None
        case RunCompleted(_) => if ids == [] then Some([]) else None
        case RunFailed(_, _) => if ids == [] then Some([]) else None
        case _ => Some(ids)
  }

  lemma {:induction false} CallsOwe(log: Log, step: nat, calls: seq<ToolCall>, n: nat)
    requires n <= |calls| && Owed(log) == Some([])
    ensures Owed(AddCalls(log, step, calls, n)) == Some(CallIds(calls)[..n])
  {
    if n > 0 {
      CallsOwe(log, step, calls, n - 1);
      assert CallIds(calls)[..n] == CallIds(calls)[..n - 1] + [calls[n - 1].id];
    }
  }

  lemma {:induction false} ResultsPay(log: Log, step: nat, calls: seq<ToolCall>, results: seq<string>, n: nat)
    requires n <= |calls| && Owed(log) == Some(CallIds(calls))
    ensures Owed(AddResults(log, step, calls, results, n)) == Some(CallIds(calls)[n..])
  {
    if n > 0 {
      ResultsPay(log, step, calls, results, n - 1);
      NextId(calls, n - 1);
    } else {
      assert CallIds(calls)[0..] == CallIds(calls);
    }
  }

  lemma NextId(calls: seq<ToolCall>, n: nat)
    requires n < |calls|
    ensures var ids := CallIds(calls)[n..]; ids != [] && ids[0] == calls[n].id && ids[1..] == CallIds(calls)[n + 1..]
  {
  }

  lemma {:induction false} TokensOweNothing(log: Log, step: nat, deltas: seq<string>, n: nat)
    requires n <= |deltas|
    ensures Owed(AddTokens(log, step, deltas, n)) == Owed(log)
  {
    if n > 0 { TokensOweNothing(log, step, deltas, n - 1); }
  }

  /** A streamed call announces tool calls only with a whole reply, which the response then follows. */
  lemma InvokeOwes(log: Log, step: nat, streaming: bool, turn: Turn)
    requires Owed(log) == Some([])
    ensures Owed(AddInvoke(log, step, streaming, turn)).Some?
    ensures Heard(streaming, turn) == Error ==> Owed(AddInvoke(log, step, streaming, turn)) == Some([])
    ensures !streaming ==> Owed(AddInvoke(log, step, streaming, turn)) == Some([])
  {
    var invoked := Then(log, ModelInvoke(step));
    TokensOweNothing(invoked, step, turn.stream.deltas, |turn.stream.deltas|);
    if turn.stream.end.Some? {
      var calls := turn.stream.end.value.0;
      CallsOwe(AddTokens(invoked, step, turn.stream.deltas, |turn.stream.deltas|), step, calls, |calls|);
    }
  }

  lemma RoundPays(log: Log, step: nat, streaming: bool, turn: Turn, c: Choice)
    requires Owed(log) == Some([])
    ensures Owed(AddRound(log, step, streaming, turn, c)) == Some([])
  {
    var calls := c.message.toolCalls;
    InvokeOwes(log, step, streaming, turn);
    var answered := Then(AddInvoke(log, step, streaming, turn), ModelResponse(step, c.finishReason));
    CallsOwe(answered, step, calls, |calls|);
    assert CallIds(calls)[..|calls|] == CallIds(calls);
    ResultsPay(AddCalls(answered, step, calls, |calls|), step, calls, turn.results, |calls|);
    assert CallIds(calls)[|calls|..] == [];
  }

  lemma {:induction false} RoundsPay(job: Job, world: World, n: nat)
    ensures Owed(LogOf(job, world, n)) == Some([])
  {
    if n > 0 {
      RoundsPay(job, world, n - 1);
      var c := FirstChoice(job, At(world, n - 1));
      if c.Some? { RoundPays(LogOf(job, world, n - 1), n, job.streaming, At(world, n - 1), c.value); }
    }
  }

  lemma ClosingPays(job: Job, turn: Turn, blocked: bool, n: nat, log: Log)
    requires Owed(log) == Some([])
    ensures Owed(Closing(job, turn, blocked, n, log)) == Some([])
  {
    InvokeOwes(log, n + 1, job.streaming, turn);
  }

  // ---- The conversation of every run ----

  /** Reads what was said after base: every message must either ask for tools, or answer the next of
      the calls still open.  Some(ids) are the calls still open, in order; None is a breach. */
  function OpenCalls(base: Chat, chat: Chat): Option<seq<string>> {
    if chat == base then Some([])
    else if chat.Nobody? then None
    else
      match OpenCalls(base, chat.earlier)
      case None => None
      case Some(ids) =>
        if ids == [] then
          if chat.message.toolCalls != [] then Some(CallIds(chat.message.toolCalls)) else None
        else if chat.message.role == ToolRole && chat.message.toolCallId == ids[0] then Some(ids[1..])
        else None
  }

  predicate Longer(base: Chat, chat: Chat) {
    chat.Said? && (chat.earlier == base || Longer(base, chat.earlier))
  }

  lemma {:induction false} LongerDiffers(base: Chat, chat: Chat)
    requires Longer(base, chat)
    ensures Size(chat) > Size(base) && chat != base
  {
    if chat.earlier != base { LongerDiffers(base, chat.earlier); }
  }

  function Size(chat: Chat): nat {
    if chat.Nobody? then 0 else Size(chat.earlier) + 1
  }

  /** Answering the calls one by one closes them one by one. */
  lemma {:induction false} Answering(base: Chat, asked: Chat, calls: seq<ToolCall>, results: seq<string>, n: nat)
    requires n <= |calls| && Longer(base, asked) && OpenCalls(base, asked) == Some(CallIds(calls))
    ensures Longer(base, AddToolMessages(asked, calls, results, n))
    ensures OpenCalls(base, AddToolMessages(asked, calls, results, n)) == Some(CallIds(calls)[n..])
  {
    if n > 0 {
      Answering(base, asked, calls, results, n - 1);
      LongerDiffers(base, AddToolMessages(asked, calls, results, n));
      NextId(calls, n - 1);
    } else {
      assert CallIds(calls)[0..] == CallIds(calls);
    }
  }

  lemma RoundPaired(base: Chat, chat: Chat, turn: Turn, c: Choice)
    requires (chat == base || Longer(base, chat)) && OpenCalls(base, chat) == Some([]) && WantsTools(c)
    ensures var after := AddRoundMessages(chat, turn, c);
            && Longer(base, after) && OpenCalls(base, after) == Some([])
            && after.message.role == ToolRole
  {
    var asked, calls := Said(chat, c.message), c.message.toolCalls;
    LongerDiffers(base, asked);
    Answering(base, asked, calls, turn.results, |calls|);
    assert CallIds(calls)[|calls|..] == [];
  }

  /** At every step the conversation is the screened prompt followed by complete rounds: each message
      asking for tools is followed by one tool message per call, with the same ids in the same order.
      Only the prompt is ever screened. */
  lemma {:induction false} ConversationPaired(job: Job, world: World, n: nat)
    requires Rounds(job, world, n)
    ensures var base, chat := Screened(job, job.prompt), Screened(job, Conversation(job, world, n));
            && (chat == base || Longer(base, chat)) && OpenCalls(base, chat) == Some([])
            && (n > 0 ==> chat == Conversation(job, world, n))
  {
    if n > 0 {
      ConversationPaired(job, world, n - 1);
      RoundPaired(Screened(job, job.prompt), Screened(job, Conversation(job, world, n - 1)), At(world, n - 1),
                  FirstChoice(job, At(world, n - 1)).value);
    }
  }

  /** So is everything a model is ever sent. */
  predicate AllPaired(base: Chat, sent: Sent) {
    match sent
    case NoCall => true
    case Call(earlier, chat) => OpenCalls(base, chat) == Some([]) && AllPaired(base, earlier)
  }

  lemma {:induction false} SentPaired(job: Job, world: World, n: nat)
    requires n == 0 || Rounds(job, world, n - 1)
    ensures AllPaired(Screened(job, job.prompt), SentIn(job, world, n))
  {
    if n > 0 {
      ConversationPaired(job, world, n - 1);
      SentPaired(job, world, n - 1);
    }
  }

  lemma {:induction false} BlockedAtOnce(job: Job, world: World, n: nat)
    requires Rounds(job, world, n) && Blocked(job, job.prompt)
    ensures n == 0
  {
    if n > 0 { BlockedAtOnce(job, world, n - 1); }
  }

  // ---- Automatic retries ----

  /** failRun schedules a retry of this run, whose stored status it found terminal or not. */
  predicate Retries(job: Job, e: Ending, over: bool) {
    e == Fails(ProviderError) && !over && job.retryOf == "" && job.autoRetry
  }

  /** scheduleAutoRetry: the same run under a new id. */
  function RetryOf(job: Job, newId: string, prompt: Chat): Job {
    job.(runId := newId, retryOf := job.runId, prompt := prompt)
  }

  /** Runs that each were created as the automatic retry of the one before. */
  datatype Line = First(job: Job) | Again(line: Line, newId: string, prompt: Chat, ending: Ending, over: bool)

  function Latest(l: Line): Job {
    match l
    case First(job) => job
    case Again(line, newId, prompt, _, _) => RetryOf(Latest(line), newId, prompt)
  }

  predicate Spawned(l: Line) {
    match l
    case First(job) => job.runId != ""
    case Again(line, newId, _, ending, over) =>
      Spawned(line) && newId != "" && Retries(Latest(line), ending, over)
  }

  /** An automatic retry never spawns another. */
  lemma RetriesOnce(l: Line)
    requires Spawned(l)
    ensures l.First? || l.line.First?
  {
    if l.Again? && l.line.Again? {
      NamedRun(l.line.line);
    }
  }

  lemma {:induction false} NamedRun(l: Line)
    requires Spawned(l)
    ensures Latest(l).runId != "" && (l.Again? ==> Latest(l).retryOf != "")
  {
    if l.Again? { NamedRun(l.line); }
  }

  // ---- The executor ----

  /** What else happens to the run's record in the store.  The cancel handler may write its status
      before the run starts (early), between the read and the save of failRun (between) or after the run
      (late).  The context may be over when the run starts, so that its first save is refused (refused),
      and failRun may be unable to read the record (unreadable). */
  datatype Record = Record(early: bool, refused: bool, unreadable: bool, between: bool, late: bool)

  /** The executor's view of a run: events, messages, model calls, what went to conversation memory,
      whether a retry was scheduled, and the run's status as stored. */
  datatype State = State(log: Log, chat: Chat, sent: Sent, remembered: Option<Chat>, retried: bool, status: Status)

  const IDLE := State(Silent, Nobody, NoCall, None, false, Queued)

  function Written(canceled: bool, status: Status): Status {
    if canceled then Canceled else status
  }

  function StartStatus(db: Record): Status {
    if db.refused then Written(db.early, Queued) else Running
  }

  function Started(job: Job, db: Record, s: State): State {
    s.(log := Then(s.log, RunStarted), status := StartStatus(db), chat := job.prompt)
  }

  /** A tool round. */
  function Advance(job: Job, turn: Turn, step: nat, c: Choice, s: State): State {
    var chat := Screened(job, s.chat);
    s.(log := AddRound(s.log, step, job.streaming, turn, c), chat := AddRoundMessages(chat, turn, c),
       sent := Call(s.sent, chat), status := Written(turn.cancels, s.status))
  }

  /** failRun finds the stored status terminal. */
  predicate FoundOver(db: Record, status: Status) {
    !db.unreadable && Terminal(status)
  }

  /** failRun: a status found terminal is not overwritten. */
  function FailedWith(job: Job, code: Code, db: Record, s: State): State {
    var over := FoundOver(db, s.status);
    s.(log := Then(s.log, RunFailed(code, over)), status := if over then s.status else Failed,
       retried := s.retried || Retries(job, Fails(code), over))
  }

  /** An answered run remembers what the last call was sent, without the answer. */
  function AnsweredWith(step: nat, s: State): State {
    s.(log := Then(s.log, RunCompleted(step)), status := Completed, remembered := Some(s.chat))
  }

  /** The step after n rounds, when it ends the run. */
  function Finish(job: Job, turn: Turn, n: nat, db: Record, s: State): State {
    var blocked := Blocked(job, s.chat);
    var closing := s.(log := Closing(job, turn, blocked, n, s.log),
                      status := Written(n < job.maxSteps && turn.cancels, s.status));
    var called := if CallsModel(job, turn, blocked, n)
                  then closing.(chat := Screened(job, s.chat), sent := Call(s.sent, Screened(job, s.chat)))
                  else closing;
    match EndingAt(job, turn, blocked, n)
    case Answered(_) => AnsweredWith(n + 1, called)
    case Fails(code) => FailedWith(job, code, db, called)
  }

  function StatusAfter(world: World, n: nat, db: Record): Status {
    if n == 0 then StartStatus(db) else Written(At(world, n - 1).cancels, StatusAfter(world, n - 1, db))
  }

  function After(job: Job, world: World, n: nat, db: Record): State {
    State(LogOf(job, world, n), Conversation(job, world, n), SentIn(job, world, n), None, false,
          StatusAfter(world, n, db))
  }

  lemma AdvanceRound(job: Job, world: World, n: nat, db: Record)
    requires Rounds(job, world, n) && n < job.maxSteps && GoesOn(job, At(world, n), Conversation(job, world, n))
    ensures Rounds(job, world, n + 1)
    ensures Advance(job, At(world, n), n + 1, FirstChoice(job, At(world, n)).value, After(job, world, n, db))
            == After(job, world, n + 1, db)
  {
  }

  /** What a run that has a model leaves behind. */
  function Outcome(job: Job, world: World, n: nat, db: Record): State {
    Finish(job, At(world, n), n, db, After(job, world, n, db))
  }

  /** What any run leaves behind, n being its tool rounds. */
  function Ended(job: Job, world: World, n: nat, db: Record): State {
    if job.model == None then FailedWith(job, NoModel, db, Started(job, db, IDLE)) else Outcome(job, world, n, db)
  }

  /** And what is left once a cancel handler still under way has written too. */
  function Final(job: Job, world: World, n: nat, db: Record): State {
    var s := Ended(job, world, n, db);
    s.(status := Written(db.late, s.status))
  }

  function Calls(sent: Sent): nat {
    match sent
    case NoCall => 0
    case Call(earlier, _) => Calls(earlier) + 1
  }

  lemma FinishWellFormed(job: Job, turn: Turn, n: nat, db: Record, s: State)
    requires UnderWay(s.log) && Invokes(s.log) == n == Calls(s.sent)
    ensures var o := Finish(job, turn, n, db, s);
            && WellFormed(o.log) && Invokes(o.log) == Calls(o.sent)
            && Calls(o.sent) <= (if n < job.maxSteps then n + 1 else n)
            && (o.log.event.RunCompleted? ==> o.log.event.steps == Calls(o.sent))
  {
    ClosingKeeps(job, turn, Blocked(job, s.chat), n, s.log);
  }

  lemma {:induction false} SentOncePerRound(job: Job, world: World, n: nat)
    ensures Calls(SentIn(job, world, n)) == n
  {
    if n > 0 { SentOncePerRound(job, world, n - 1); }
  }

  /** Every run emits run.started first and exactly one of run.completed and run.failed, last; it
      announces each of its model calls, in order, makes at most maxSteps, and completes with their
      number. */
  lemma RunTrace(job: Job, world: World, n: nat, db: Record)
    requires Rounds(job, world, n)
    ensures var o := Final(job, world, n, db);
            && WellFormed(o.log) && Invokes(o.log) == Calls(o.sent)
            && Calls(o.sent) <= (if job.maxSteps > 0 then job.maxSteps else 0)
            && (o.log.event.RunCompleted? ==> o.log.event.steps == Calls(o.sent))
  {
    RoundsKeep(job, world, n);
    SentOncePerRound(job, world, n);
    FinishWellFormed(job, At(world, n), n, db, After(job, world, n, db));
  }

  lemma FinishPays(job: Job, turn: Turn, n: nat, db: Record, s: State)
    requires Owed(s.log) == Some([])
    ensures Owed(Finish(job, turn, n, db, s).log) == Some([])
  {
    ClosingPays(job, turn, Blocked(job, s.chat), n, s.log);
  }

  /** In every run each tool call announced after a model response is answered by one result event, in
      order, before the next model call and before the end. */
  lemma RunAnswersCalls(job: Job, world: World, n: nat, db: Record)
    ensures Owed(Final(job, world, n, db).log) == Some([])
  {
    RoundsPay(job, world, n);
    FinishPays(job, At(world, n), n, db, After(job, world, n, db));
  }

  lemma FinishPaired(base: Chat, job: Job, turn: Turn, n: nat, db: Record, s: State)
    requires AllPaired(base, s.sent) && OpenCalls(base, Screened(job, s.chat)) == Some([])
    ensures AllPaired(base, Finish(job, turn, n, db, s).sent)
    ensures n < job.maxSteps && Blocked(job, s.chat) ==> Finish(job, turn, n, db, s).sent == s.sent
  {
  }

  /** Every model call is sent the screened prompt followed by complete rounds.  So with redaction on
      no call sees the user's latest message with its PII, and with blocking on there is no call. */
  lemma RunConversation(job: Job, world: World, n: nat, db: Record)
    requires Rounds(job, world, n)
    ensures AllPaired(Screened(job, job.prompt), Final(job, world, n, db).sent)
    ensures Blocked(job, job.prompt) ==> Final(job, world, n, db).sent == NoCall
  {
    SentPaired(job, world, n);
    ConversationPaired(job, world, n);
    FinishPaired(Screened(job, job.prompt), job, At(world, n), n, db, After(job, world, n, db));
    if Blocked(job, job.prompt) { BlockedAtOnce(job, world, n); }
  }

  // ---- Does a cancellation survive? ----

  /** A cancel handler has written among the first n steps, or before them with the first save refused. */
  predicate CancelSeen(world: World, n: nat, db: Record) {
    if n == 0 then db.early && db.refused else At(world, n - 1).cancels || CancelSeen(world, n - 1, db)
  }

  lemma {:induction false} StatusTells(world: World, n: nat, db: Record)
    ensures StatusAfter(world, n, db) == Canceled <==> CancelSeen(world, n, db)
    ensures StatusAfter(world, n, db) in {Queued, Running, Canceled}
  {
    if n > 0 { StatusTells(world, n - 1, db); }
  }

  /** How a run ends, and the steps it enters. */
  function EndingOf(job: Job, world: World, n: nat): Ending {
    if job.model == None then Fails(NoModel)
    else EndingAt(job, At(world, n), Blocked(job, Conversation(job, world, n)), n)
  }

  function StepsEntered(job: Job, n: nat): nat {
    if job.model == None then 0 else if n < job.maxSteps then n + 1 else n
  }

  lemma FinishStatus(job: Job, turn: Turn, n: nat, db: Record, s: State)
    ensures var e := EndingAt(job, turn, Blocked(job, s.chat), n);
            var before := Written(n < job.maxSteps && turn.cancels, s.status);
            && Finish(job, turn, n, db, s).status
               == (if e.Answered? then Completed else if FoundOver(db, before) then before else Failed)
            && Finish(job, turn, n, db, s).retried == (s.retried || Retries(job, e, FoundOver(db, before)))
  {
  }

  lemma EndedStatus(job: Job, world: World, n: nat, db: Record)
    ensures var e, before := EndingOf(job, world, n), StatusAfter(world, StepsEntered(job, n), db);
            && Ended(job, world, n, db).status
               == (if e.Answered? then Completed else if FoundOver(db, before) then before else Failed)
            && Ended(job, world, n, db).retried == Retries(job, e, FoundOver(db, before))
  {
    FinishStatus(job, At(world, n), n, db, After(job, world, n, db));
  }

  /** A cancellation written before a run ends survives it exactly if the run fails and failRun reads it:
      a completion overwrites it, a start overwrites one that came before it (unless the context was
      over by then and the save refused), and so does a failure whose read came first or found nothing.
      Only a handler that writes after the run has the last word in any case. */
  lemma CancelSurvives(job: Job, world: World, n: nat, db: Record)
    ensures Final(job, world, n, db).status == Canceled <==>
              || db.late
              || (EndingOf(job, world, n).Fails? && !db.unreadable && CancelSeen(world, StepsEntered(job, n), db))
    ensures Final(job, world, n, db).status != Canceled ==>
              Final(job, world, n, db).status == (if EndingOf(job, world, n).Answered? then Completed else Failed)
  {
    EndedStatus(job, world, n, db);
    StatusTells(world, StepsEntered(job, n), db);
  }

  /** A retry is scheduled exactly for a provider error of a run that is not a retry itself and whose
      cancellation failRun did not see. */
  lemma RetriedExactly(job: Job, world: World, n: nat, db: Record)
    ensures Final(job, world, n, db).retried <==>
              && job.autoRetry && job.retryOf == "" && EndingOf(job, world, n) == Fails(ProviderError)
              && (db.unreadable || !CancelSeen(world, StepsEntered(job, n), db))
  {
    EndedStatus(job, world, n, db);
    StatusTells(world, StepsEntered(job, n), db);
  }

  lemma FinishRemembers(job: Job, turn: Turn, n: nat, db: Record, s: State)
    requires s.remembered == None
    ensures var o := Finish(job, turn, n, db, s);
            && (EndingAt(job, turn, Blocked(job, s.chat), n).Answered? <==> o.remembered.Some?)
            && (o.remembered.Some? ==> o.sent.Call? && o.remembered.value == o.sent.chat)
  {
  }

  /** Only an answered run is remembered, and as what its last model call was sent: without the answer. */
  lemma RunRemembers(job: Job, world: World, n: nat, db: Record)
    ensures var o := Final(job, world, n, db);
            && (EndingOf(job, world, n).Answered? <==> o.remembered.Some?)
            && (o.remembered.Some? ==> o.sent.Call? && o.remembered.value == o.sent.chat)
  {
    FinishRemembers(job, At(world, n), n, db, After(job, world, n, db));
  }

  class Executor {
    var log: Log
    var chat: Chat
    var sent: Sent
    var remembered: Option<Chat>
    var retried: bool
    var status: Status               // the run's record in the store

    ghost function View(): State
      reads this
    {
      State(log, chat, sent, remembered, retried, status)
    }

    constructor ()
      ensures View() == IDLE
    {
      log, chat, sent, remembered, retried, status := Silent, Nobody, NoCall, None, false, Queued;
    }

    method ExecuteRun(job: Job, world: World, db: Record) returns (ghost n: nat)
      requires View() == IDLE
      modifies this
      ensures Rounds(job, world, n) && View() == Ended(job, world, n, db)
      ensures job.model != None && n < job.maxSteps ==> !GoesOn(job, At(world, n), Conversation(job, world, n))
    {
      n := 0;
      TransitionToRunning(db);
      chat := job.prompt;
      if job.model == None {
        FailRun(job, NoModel, db);
        return;
      }
      var step := 0;
      while step < job.maxSteps
        invariant n == step && Rounds(job, world, n) && View() == After(job, world, n, db)
        decreases job.maxSteps - step
      {
        var goesOn := Step(job, At(world, step), step + 1, db);
        if !goesOn { return; }
        AdvanceRound(job, world, n, db);
        step := step + 1;
        n := n + 1;
      }
      OverLimit(job, At(world, n), n, db, View());
      FailRun(job, MaxStepsExceeded, db);
    }

    method TransitionToRunning(db: Record)
      requires View() == IDLE
      modifies this`log, this`status
      ensures log == Then(Silent, RunStarted) && status == StartStatus(db)
    {
      if db.early {
        CancelHandler();
      }
      if !db.refused {
        status := Running;
      }
      log := Then(log, RunStarted);
    }

    /** The cancel handler's write. */
    method CancelHandler()
      modifies this`status
      ensures status == Canceled
    {
      status := Canceled;
    }

    /** One step of the loop; tells whether the loop goes on. */
    method Step(job: Job, turn: Turn, step: nat, db: Record) returns (goesOn: bool)
      requires 0 < step <= job.maxSteps
      modifies this
      ensures goesOn <==> GoesOn(job, turn, old(chat))
      ensures goesOn ==> View() == Advance(job, turn, step, FirstChoice(job, turn).value, old(View()))
      ensures !goesOn ==> View() == Finish(job, turn, step - 1, db, old(View()))
    {
      goesOn := false;
      if turn.cancels {
        CancelHandler();
      }
      if turn.canceledBefore {
        FailRun(job, RunCanceled, db);
        return;
      }
      if Sensitive(job, chat) && job.pii == Block {
        FailRun(job, PiiBlocked, db);
        return;
      }
      chat := Screened(job, chat);
      var reply := InvokeModel(job, turn, step);
      if reply == Error {
        FailRun(job, if turn.canceledAfter then RunCanceled else ProviderError, db);
        return;
      }
      if reply.choices == [] {
        FailRun(job, ProviderError, db);
        return;
      }
      var c := reply.choices[0];
      log := Then(log, ModelResponse(step, c.finishReason));
      if WantsTools(c) {
        RunTools(c, turn, step);
        return true;
      }
      status := Completed;
      log := Then(log, RunCompleted(step));
      remembered := Some(chat);
    }

    method InvokeModel(job: Job, turn: Turn, step: nat) returns (reply: Reply)
      modifies this`log, this`sent
      ensures reply == Heard(job.streaming, turn)
      ensures log == AddInvoke(old(log), step, job.streaming, turn)
      ensures sent == Call(old(sent), chat)
    {
      log := Then(log, ModelInvoke(step));
      sent := Call(sent, chat);
      if !job.streaming { return turn.reply; }
      reply := StreamModelCall(turn, step);
    }

    method StreamModelCall(turn: Turn, step: nat) returns (reply: Reply)
      modifies this`log
      ensures reply == Heard(true, turn)
      ensures log == Streamed(old(log), step, turn)
    {
      var content := "";
      var deltas := turn.stream.deltas;
      for i := 0 to |deltas|
        invariant content == Streaming.Concat(deltas[..i]) && log == AddTokens(old(log), step, deltas, i)
      {
        assert deltas[..i + 1] == deltas[..i] + [deltas[i]];
        Streaming.ConcatLast(deltas[..i], deltas[i]);
        if deltas[i] != "" {
          content := content + deltas[i];
          log := Then(log, Token(step, deltas[i]));
        } else {
          assert content + deltas[i] == content;
        }
      }
      assert deltas[..|deltas|] == deltas;
      match turn.stream.end {
        case None =>
          return Error;
        case Some(end) =>
          ghost var spoken := log;
          for i := 0 to |end.0|
            invariant log == AddCalls(spoken, step, end.0, i)
          {
            log := Then(log, ToolCalled(step, end.0[i].id, end.0[i].name));
          }
          var finish := if end.1 == NoReason then Stop else end.1;
          return Choices([Choice(finish, Message(Assistant, content, end.0, ""))]);
      }
    }

    method RunTools(c: Choice, turn: Turn, step: nat)
      modifies this`log, this`chat
      ensures var calls := c.message.toolCalls;
              && log == AddResults(AddCalls(old(log), step, calls, |calls|), step, calls, turn.results, |calls|)
              && chat == AddRoundMessages(old(chat), turn, c)
    {
      var calls := c.message.toolCalls;
      chat := Said(chat, c.message);
      for i := 0 to |calls|
        invariant log == AddCalls(old(log), step, calls, i) && chat == Said(old(chat), c.message)
      {
        log := Then(log, ToolCalled(step, calls[i].id, calls[i].name));
      }
      ghost var called := log;
      for i := 0 to |calls|
        invariant log == AddResults(called, step, calls, turn.results, i)
        invariant chat == AddToolMessages(Said(old(chat), c.message), calls, turn.results, i)
      {
        log := Then(log, ToolReturned(step, calls[i].id, ResultAt(turn.results, i)));
        chat := Said(chat, Message(ToolRole, ResultAt(turn.results, i), [], calls[i].id));
      }
    }

    method FailRun(job: Job, code: Code, db: Record)
      modifies this`log, this`status, this`retried
      ensures View() == FailedWith(job, code, db, old(View()))
    {
      if !db.unreadable && (status == Canceled || status == Completed || status == Failed) {
        log := Then(log, RunFailed(code, true));
        return;
      }
      if db.between {
        CancelHandler();
      }
      status := Failed;
      log := Then(log, RunFailed(code, false));
      if code == ProviderError && job.retryOf == "" && job.autoRetry {
        retried := true;
      }
    }
  }

  lemma OverLimit(job: Job, turn: Turn, n: nat, db: Record, s: State)
    requires n >= job.maxSteps
    ensures Finish(job, turn, n, db, s) == FailedWith(job, MaxStepsExceeded, db, s)
  {
  }
}

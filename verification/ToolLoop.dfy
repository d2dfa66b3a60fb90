/**
 The assistant's tool loop: up to five normal provider calls, each tool-calling answer
 followed by one result per call, and at most one last call without tools when the context
 is full.  The provider, the tools, the timer and the message store are given as arbitrary
 answers by position, so a proof covers whatever they do.
 */
module ToolLoop {
  import opened Wrappers
  import opened ContextBudget

  const MAX_TOOL_ITERATIONS := 5
  const NO_MORE_TOOLS := Message(System, "Context limit reached. Provide your final answer now without tools.", None, None)

  /** One provider call: it fails, ends the conversation, or asks for tools. */
  datatype Response = Broken | Final(content: string) | ToolCalls(content: string, calls: seq<Call>)

  /** How one requested tool comes out; the text is the JSON error, or the JSON result. */
  datatype ToolOutcome =
    | Unknown(text: string)
    | Denied(text: string)
    | Invalid(text: string)
    | Failed(text: string)
    | Success(text: string)

  /** Everything outside, by the number of the provider call and the position in it. */
  datatype World = World(
    respond: nat -> Response,
    run: (nat, nat) -> ToolOutcome,
    timedOutAfterCall: nat -> bool,
    timedOutAfterTool: (nat, nat) -> bool,
    saved: nat -> bool)

  datatype Ending = Answered | MaxIterations | ContextExceeded | TimedOut | NotSaved | ProviderFailed

  /** What the provider was sent, and whether tools were offered. */
  datatype Sent = Sent(messages: seq<Message>, withTools: bool)

  function ResultText(outcome: ToolOutcome): string {
    if outcome.Success? then Truncate(outcome.text) else outcome.text
  }

  /** The results the n-th answer's calls get, up to some of them. */
  function Results(world: World, n: nat, count: nat): seq<string> {
    seq(count, j requires 0 <= j < count => ResultText(world.run(n, j)))
  }

  function Calls(world: World, n: nat): seq<Call> {
    if world.respond(n).ToolCalls? then world.respond(n).calls else []
  }

  function Content(world: World, n: nat): string {
    if world.respond(n).ToolCalls? then world.respond(n).content else ""
  }

  /** What round n adds when the first of the calls its answer asks for are run. */
  function Exchange(world: World, n: nat, count: nat): seq<Message>
    requires count <= |Calls(world, n)|
  {
    Block(Content(world, n), Calls(world, n), Results(world, n, count))
  }

  /** The transcript after n complete rounds: it depends on nothing but the world. */
  function Transcript(world: World, first: seq<Message>, n: nat): seq<Message> {
    if n == 0 then first else Transcript(world, first, n - 1) + Exchange(world, n, |Calls(world, n)|)
  }

  /** A result after which Checkpoint 3 runs. */
  predicate Checked(world: World, n: nat, j: nat) {
    var outcome := world.run(n, j);
    !outcome.Unknown? && !outcome.Denied? && !outcome.Invalid?
  }

  predicate Full(c: Config, messages: seq<Message>) {
    RequestTokens(c, messages, c.toolsTokens) > c.contextMax
  }

  /** Checkpoint 3 let the first results of round n pass. */
  predicate PassedUpTo(c: Config, world: World, n: nat, before: seq<Message>, count: nat)
    requires count <= |Calls(world, n)|
  {
    forall j: nat | 0 < j <= count && Checked(world, n, j - 1) :: !Full(c, before + Exchange(world, n, j))
  }

  /** Checkpoint 3 first stopped round n after so many results. */
  predicate FilledAt(c: Config, world: World, n: nat, before: seq<Message>, count: nat) {
    && 0 < count <= |Calls(world, n)| && Checked(world, n, count - 1)
    && Full(c, before + Exchange(world, n, count)) && PassedUpTo(c, world, n, before, count - 1)
  }

  predicate AnswerFits(c: Config, world: World, n: nat, before: seq<Message>) {
    Calls(world, n) != [] && PreToolRequest(c, before, Calls(world, n)) <= c.contextMax
  }

  /** Round n passed Checkpoint 2, and Checkpoint 3 after every result. */
  predicate RoundDone(c: Config, world: World, first: seq<Message>, n: nat)
    requires n > 0
  {
    var before := Transcript(world, first, n - 1);
    AnswerFits(c, world, n, before) && PassedUpTo(c, world, n, before, |Calls(world, n)|)
  }

  /** Round n passed Checkpoint 2 and was stopped by Checkpoint 3. */
  predicate RoundFilled(c: Config, world: World, first: seq<Message>, n: nat, count: nat)
    requires n > 0
  {
    var before := Transcript(world, first, n - 1);
    AnswerFits(c, world, n, before) && FilledAt(c, world, n, before, count)
  }

  predicate RoundsDone(c: Config, world: World, first: seq<Message>, n: nat) {
    forall i: nat | 1 <= i <= n :: RoundDone(c, world, first, i)
  }

  /** The call after n complete rounds: it fits, and every exchange in it is complete. */
  predicate NormalCall(c: Config, world: World, first: seq<Message>, sent: Sent, n: nat) {
    && n < MAX_TOOL_ITERATIONS && RoundsDone(c, world, first, n)
    && sent == Sent(Transcript(world, first, n), true)
    && !Full(c, sent.messages)
  }

  function Closing(world: World, first: seq<Message>, n: nat, count: nat): Sent
    requires n > 0 && count <= |Calls(world, n)|
  {
    Sent(Transcript(world, first, n - 1) + Exchange(world, n, count) + [NO_MORE_TOOLS], false)
  }

  /** The call without tools: round n was stopped by Checkpoint 3, and without tools the
      request fits. */
  predicate ClosingCall(c: Config, world: World, first: seq<Message>, sent: Sent, n: nat, count: nat) {
    && 0 < n <= MAX_TOOL_ITERATIONS && RoundsDone(c, world, first, n - 1)
    && RoundFilled(c, world, first, n, count)
    && sent == Closing(world, first, n, count)
    && RequestTokens(c, sent.messages, 0) <= c.contextMax
  }

  ghost predicate IsClosing(c: Config, world: World, first: seq<Message>, sent: Sent, n: nat) {
    exists count: nat :: ClosingCall(c, world, first, sent, n, count)
  }

  /** The calls of one request, in order: normal ones, and perhaps a closing one. */
  ghost predicate GoodLog(c: Config, world: World, first: seq<Message>, log: seq<Sent>) {
    forall i | 0 <= i < |log| ::
      NormalCall(c, world, first, log[i], i) || (i == |log| - 1 && IsClosing(c, world, first, log[i], i))
  }

  /** Round n was stopped by Checkpoint 3, and not even the closing call fits. */
  ghost predicate FilledUp(c: Config, world: World, first: seq<Message>, n: nat) {
    n > 0 && exists count: nat ::
      RoundFilled(c, world, first, n, count)
      && RequestTokens(c, Closing(world, first, n, count).messages, 0) > c.contextMax
  }

  predicate TimedOutIn(world: World, n: nat) {
    world.timedOutAfterCall(n) || exists j | 0 <= j < |Calls(world, n)| :: world.timedOutAfterTool(n, j)
  }

  /** A request ends for the reason it gives, and so never early. */
  ghost predicate EndsBecause(c: Config, world: World, first: seq<Message>, log: seq<Sent>, ending: Ending) {
    var n := |log|;
    var closed := n > 0 && !log[n - 1].withTools;
    match ending
    case MaxIterations => n == MAX_TOOL_ITERATIONS && RoundsDone(c, world, first, n)
    case Answered => n > 0 && if closed then !world.respond(n).Broken? else Calls(world, n) == [] && world.saved(n)
    case ProviderFailed => n > 0 && !closed && world.respond(n).Broken?
    case NotSaved => n > 0 && !closed && !world.saved(n)
    case TimedOut => n > 0 && !closed && TimedOutIn(world, n)
    case ContextExceeded =>
      if closed then world.respond(n).Broken?
      else
        || (RoundsDone(c, world, first, n) && Full(c, Transcript(world, first, n)))
        || (n > 0 && Calls(world, n) != []
            && PreToolRequest(c, Transcript(world, first, n - 1), Calls(world, n)) > c.contextMax)
        || FilledUp(c, world, first, n)
  }

  /** So a request makes at most six provider calls, each within the context, and the sixth
      offers no tools. */
  lemma AtMostSixCalls(c: Config, world: World, first: seq<Message>, log: seq<Sent>)
    requires GoodLog(c, world, first, log)
    ensures |log| <= 6 && (|log| == 6 ==> !log[5].withTools)
    ensures forall i | 0 <= i < |log| ::
      RequestTokens(c, log[i].messages, if log[i].withTools then c.toolsTokens else 0) <= c.contextMax
  {
    if |log| > 0 {
      var last := |log| - 1;
      assert NormalCall(c, world, first, log[last], last) || IsClosing(c, world, first, log[last], last);
    }
  }

  /** Checkpoint 3 stops a round only after a tool that was run: where the context first fills
      after a call, it stops there exactly if that call's tool gave a result or failed. */
  lemma StopsAfterIff(c: Config, world: World, n: nat, before: seq<Message>, count: nat)
    requires 0 < count <= |Calls(world, n)| && PassedUpTo(c, world, n, before, count - 1)
    ensures FilledAt(c, world, n, before, count) <==>
      RequestTokens(c, before + Exchange(world, n, count), c.toolsTokens) > c.contextMax
      && (world.run(n, count - 1).Success? || world.run(n, count - 1).Failed?)
  {
  }

  lemma ToolMessagesMore(calls: seq<Call>, results: seq<string>, text: string)
    requires |results| < |calls|
    ensures ToolMessages(calls, results + [text])
         == ToolMessages(calls, results) + [Message(Tool, text, None, Some(calls[|results|].id))]
  {
  }

  lemma BlockMore(content: string, calls: seq<Call>, results: seq<string>, text: string)
    requires |results| < |calls|
    ensures Block(content, calls, results + [text])
         == Block(content, calls, results) + [Message(Tool, text, None, Some(calls[|results|].id))]
  {
    ToolMessagesMore(calls, results, text);
  }

  /** The messages of a round that answered its first calls, some or all of them. */
  predicate Answering(world: World, n: nat, before: seq<Message>, messages: seq<Message>, count: nat) {
    count <= |Calls(world, n)| && messages == before + Exchange(world, n, count)
  }

  lemma AnswerNext(world: World, n: nat, before: seq<Message>, messages: seq<Message>, count: nat)
    requires Answering(world, n, before, messages, count) && count < |Calls(world, n)|
    ensures Answering(world, n, before,
              messages + [Message(Tool, ResultText(world.run(n, count)), None, Some(Calls(world, n)[count].id))], count + 1)
  {
    assert Results(world, n, count + 1) == Results(world, n, count) + [ResultText(world.run(n, count))];
    BlockMore(Content(world, n), Calls(world, n), Results(world, n, count), ResultText(world.run(n, count)));
  }

  lemma PassedMore(c: Config, world: World, n: nat, before: seq<Message>, messages: seq<Message>, count: nat)
    requires Answering(world, n, before, messages, count) && count > 0
    requires PassedUpTo(c, world, n, before, count - 1)
    ensures Checked(world, n, count - 1) && Full(c, messages) ==> FilledAt(c, world, n, before, count)
    ensures !Checked(world, n, count - 1) || !Full(c, messages) ==> PassedUpTo(c, world, n, before, count)
  {
  }

  /** One tool-calling answer: its message, then the results.  Unknown, denied and invalid
      calls skip Checkpoint 3; the others run it, and a full context ends the request. */
  method RunTools(c: Config, world: World, n: nat, before: seq<Message>)
    returns (messages: seq<Message>, ending: Option<Ending>, closing: Option<Sent>, count: nat)
    ensures Answering(world, n, before, messages, count)
    ensures ending.None? ==> count == |Calls(world, n)| && PassedUpTo(c, world, n, before, count)
    ensures ending.Some? && !ending.value.TimedOut? ==> FilledAt(c, world, n, before, count)
    ensures ending == Some(TimedOut) ==> count > 0 && world.timedOutAfterTool(n, count - 1)
    ensures closing.Some? ==> ending.Some? && closing.value == Sent(messages + [NO_MORE_TOOLS], false)
    ensures closing.Some? ==> RequestTokens(c, closing.value.messages, 0) <= c.contextMax
    ensures closing.Some? ==> ending.value == if world.respond(n + 1).Broken? then ContextExceeded else Answered
    ensures closing.None? && ending.Some? ==> ending.value.TimedOut? || ending.value.ContextExceeded?
    ensures closing.None? && ending == Some(ContextExceeded) ==>
              RequestTokens(c, messages + [NO_MORE_TOOLS], 0) > c.contextMax
  {
    var calls := Calls(world, n);
    ending, closing, count := None, None, 0;
    messages := before + [AssistantMessage(Content(world, n), calls)];
    assert Exchange(world, n, 0) == [AssistantMessage(Content(world, n), calls)];
    while count < |calls|
      invariant Answering(world, n, before, messages, count) && PassedUpTo(c, world, n, before, count)
    {
      var outcome := world.run(n, count);
      AnswerNext(world, n, before, messages, count);
      messages := messages + [Message(Tool, ResultText(outcome), None, Some(calls[count].id))];
      count := count + 1;
      PassedMore(c, world, n, before, messages, count);
      if outcome.Unknown? || outcome.Denied? || outcome.Invalid? {
        continue;
      }
      if world.timedOutAfterTool(n, count - 1) {
        return messages, Some(TimedOut), None, count;
      }
      if RequestTokens(c, messages, c.toolsTokens) > c.contextMax {
        if RequestTokens(c, messages + [NO_MORE_TOOLS], 0) <= c.contextMax {
          closing := Some(Sent(messages + [NO_MORE_TOOLS], false));
          return messages, Some(if world.respond(n + 1).Broken? then ContextExceeded else Answered), closing, count;
        }
        return messages, Some(ContextExceeded), None, count;
      }
    }
  }

  /** Between rounds: one normal call for each, and the transcript they lead to. */
  predicate Going(c: Config, world: World, first: seq<Message>, messages: seq<Message>, log: seq<Sent>) {
    && RoundsDone(c, world, first, |log|)
    && messages == Transcript(world, first, |log|)
    && AllNormal(c, world, first, log)
  }

  predicate AllNormal(c: Config, world: World, first: seq<Message>, log: seq<Sent>) {
    forall i | 0 <= i < |log| :: NormalCall(c, world, first, log[i], i)
  }

  lemma Asked(c: Config, world: World, first: seq<Message>, messages: seq<Message>, log: seq<Sent>)
    requires Going(c, world, first, messages, log)
    requires !Full(c, messages) && |log| < MAX_TOOL_ITERATIONS
    ensures AllNormal(c, world, first, log + [Sent(messages, true)])
  {
    var longer := log + [Sent(messages, true)];
    forall i | 0 <= i < |longer|
      ensures NormalCall(c, world, first, longer[i], i)
    {
      assert i < |log| ==> NormalCall(c, world, first, log[i], i);
    }
  }

  lemma Closed(c: Config, world: World, first: seq<Message>, log: seq<Sent>, sent: Sent, count: nat)
    requires AllNormal(c, world, first, log) && ClosingCall(c, world, first, sent, |log|, count)
    ensures GoodLog(c, world, first, log + [sent])
  {
    var longer := log + [sent];
    forall i | 0 <= i < |longer|
      ensures NormalCall(c, world, first, longer[i], i) || (i == |log| && IsClosing(c, world, first, longer[i], i))
    {
      if i < |log| {
        assert NormalCall(c, world, first, log[i], i);
      }
    }
  }

  lemma ClosedBecause(c: Config, world: World, first: seq<Message>, log: seq<Sent>, sent: Sent)
    requires !sent.withTools
    ensures EndsBecause(c, world, first, log + [sent],
              if world.respond(|log| + 1).Broken? then ContextExceeded else Answered)
  {
  }

  /** What a round leaves after its call was sent: a state to go on from, or a good log and
      the reason for the end. */
  ghost predicate Outcome(c: Config, world: World, first: seq<Message>, logBefore: seq<Sent>,
                          ended: Option<Ending>, messages: seq<Message>, log: seq<Sent>)
  {
    && logBefore <= log
    && match ended
       case None => log == logBefore && Going(c, world, first, messages, log) && GoodLog(c, world, first, log)
       case Some(ending) =>
         ending != MaxIterations && GoodLog(c, world, first, log) && EndsBecause(c, world, first, log, ending)
  }

  lemma StoppedClosed(c: Config, world: World, first: seq<Message>, log: seq<Sent>, messages: seq<Message>, count: nat,
                      ending: Ending)
    requires AllNormal(c, world, first, log) && 0 < |log| <= MAX_TOOL_ITERATIONS
    requires Answering(world, |log|, Transcript(world, first, |log| - 1), messages, count)
    requires RoundFilled(c, world, first, |log|, count)
    requires RequestTokens(c, messages + [NO_MORE_TOOLS], 0) <= c.contextMax
    requires ending == if world.respond(|log| + 1).Broken? then ContextExceeded else Answered
    ensures Outcome(c, world, first, log, Some(ending), messages, log + [Sent(messages + [NO_MORE_TOOLS], false)])
  {
    var sent := Sent(messages + [NO_MORE_TOOLS], false);
    RoundsBefore(c, world, first, log);
    assert ClosingCall(c, world, first, sent, |log|, count);
    Closed(c, world, first, log, sent, count);
    ClosedBecause(c, world, first, log, sent);
  }

  lemma StoppedOpen(c: Config, world: World, first: seq<Message>, log: seq<Sent>, messages: seq<Message>, count: nat,
                    ending: Ending)
    requires AllNormal(c, world, first, log) && log != []
    requires Answering(world, |log|, Transcript(world, first, |log| - 1), messages, count)
    requires ending.TimedOut? || ending.ContextExceeded?
    requires ending.TimedOut? ==> count > 0 && world.timedOutAfterTool(|log|, count - 1)
    requires ending.ContextExceeded? ==> RoundFilled(c, world, first, |log|, count)
    requires ending.ContextExceeded? ==> RequestTokens(c, messages + [NO_MORE_TOOLS], 0) > c.contextMax
    ensures Outcome(c, world, first, log, Some(ending), messages, log)
  {
    AllNormalIsGood(c, world, first, log);
    if ending.TimedOut? {
      assert TimedOutIn(world, |log|);
    } else {
      assert Closing(world, first, |log|, count).messages == messages + [NO_MORE_TOOLS];
      assert FilledUp(c, world, first, |log|);
    }
  }

  lemma Continues(c: Config, world: World, first: seq<Message>, log: seq<Sent>, messages: seq<Message>)
    requires AllNormal(c, world, first, log) && log != [] && RoundDone(c, world, first, |log|)
    requires Answering(world, |log|, Transcript(world, first, |log| - 1), messages, |Calls(world, |log|)|)
    ensures Outcome(c, world, first, log, None, messages, log)
  {
    AllNormalIsGood(c, world, first, log);
    RoundsBefore(c, world, first, log);
  }

  /** A sent call says that the rounds before it are done. */
  lemma RoundsBefore(c: Config, world: World, first: seq<Message>, log: seq<Sent>)
    requires AllNormal(c, world, first, log) && log != []
    ensures RoundsDone(c, world, first, |log| - 1)
  {
    assert NormalCall(c, world, first, log[|log| - 1], |log| - 1);
  }

  lemma AllNormalIsGood(c: Config, world: World, first: seq<Message>, log: seq<Sent>)
    requires AllNormal(c, world, first, log)
    ensures GoodLog(c, world, first, log) && (log != [] ==> log[|log| - 1].withTools)
  {
    if log != [] {
      assert NormalCall(c, world, first, log[|log| - 1], |log| - 1);
    }
  }

  /** The n-th call has been sent and its answer is not final: its tools are run. */
  method RunAnswer(c: Config, world: World, ghost first: seq<Message>, before: seq<Message>, logBefore: seq<Sent>)
    returns (ended: Option<Ending>, messages: seq<Message>, log: seq<Sent>)
    requires AllNormal(c, world, first, logBefore) && 0 < |logBefore| <= MAX_TOOL_ITERATIONS
    requires AnswerFits(c, world, |logBefore|, before) && before == Transcript(world, first, |logBefore| - 1)
    ensures Outcome(c, world, first, logBefore, ended, messages, log)
  {
    var closing, count;
    messages, ended, closing, count := RunTools(c, world, |logBefore|, before);
    log := logBefore;
    if closing.Some? {
      StoppedClosed(c, world, first, log, messages, count, ended.value);
      log := log + [closing.value];
    } else if ended.Some? {
      StoppedOpen(c, world, first, log, messages, count, ended.value);
    } else {
      Continues(c, world, first, log, messages);
    }
  }

  /** One turn of the loop: Checkpoint 1, the provider, Checkpoint 2, the tools. */
  method Round(c: Config, world: World, ghost first: seq<Message>, before: seq<Message>, logBefore: seq<Sent>)
    returns (ended: Option<Ending>, messages: seq<Message>, log: seq<Sent>)
    requires Going(c, world, first, before, logBefore) && |logBefore| < MAX_TOOL_ITERATIONS
    ensures GoodLog(c, world, first, log) && ended != Some(MaxIterations)
    ensures ended.None? ==> Going(c, world, first, messages, log) && |log| == |logBefore| + 1
    ensures ended.Some? ==> EndsBecause(c, world, first, log, ended.value)
    ensures logBefore <= log && (log == logBefore <==> RequestTokens(c, before, c.toolsTokens) > c.contextMax)
  {
    messages, log := before, logBefore;
    if RequestTokens(c, messages, c.toolsTokens) > c.contextMax {
      return Some(ContextExceeded), messages, log;
    }
    Asked(c, world, first, messages, log);
    log := log + [Sent(messages, true)];
    AllNormalIsGood(c, world, first, log);
    var n := |log|;
    if world.respond(n).Broken? {
      return Some(ProviderFailed), messages, log;
    }
    if world.timedOutAfterCall(n) {
      return Some(TimedOut), messages, log;
    }
    if Calls(world, n) == [] {
      return Some(if world.saved(n) then Answered else NotSaved), messages, log;
    }
    if PreToolRequest(c, messages, Calls(world, n)) > c.contextMax {
      return Some(ContextExceeded), messages, log;
    }
    if !world.saved(n) {
      return Some(NotSaved), messages, log;
    }
    ended, messages, log := RunAnswer(c, world, first, messages, log);
  }

  /** A whole request from its first messages.  Its calls are pinned down: call i sends the
      first messages and i complete exchanges, and only the last call can instead be the
      closing one. */
  method Chat(c: Config, world: World, minimum: int, first: seq<Message>)
    returns (ending: Ending, log: seq<Sent>)
    ensures GoodLog(c, world, first, log)
    ensures minimum <= c.contextMax ==> EndsBecause(c, world, first, log, ending)
    ensures minimum > c.contextMax ==> log == [] && ending.ContextExceeded?
    ensures minimum <= c.contextMax && RequestTokens(c, first, c.toolsTokens) <= c.contextMax ==> log != []
  {
    log := [];
    if minimum > c.contextMax {
      return ContextExceeded, log;
    }
    var messages := first;
    var iterations := 0;
    while iterations < MAX_TOOL_ITERATIONS
      invariant 0 <= iterations <= MAX_TOOL_ITERATIONS && |log| == iterations
      invariant Going(c, world, first, messages, log) && GoodLog(c, world, first, log)
      invariant iterations > 0 ==> RequestTokens(c, first, c.toolsTokens) <= c.contextMax
    {
      iterations := iterations + 1;
      var ended: Option<Ending>;
      ended, messages, log := Round(c, world, first, messages, log);
      if ended.Some? {
        return ended.value, log;
      }
    }
    ending := MaxIterations;
  }

  lemma {:induction false} TranscriptGrows(world: World, first: seq<Message>, m: nat, n: nat)
    requires m <= n
    ensures Transcript(world, first, m) <= Transcript(world, first, n)
  {
    if m < n {
      TranscriptGrows(world, first, m, n - 1);
    }
  }

  lemma NormalIsTranscript(c: Config, world: World, first: seq<Message>, log: seq<Sent>, i: nat)
    requires GoodLog(c, world, first, log) && i < |log| && log[i].withTools
    ensures log[i] == Sent(Transcript(world, first, i), true)
  {
    assert NormalCall(c, world, first, log[i], i) || IsClosing(c, world, first, log[i], i);
  }

  lemma ClosingStarts(c: Config, world: World, first: seq<Message>, sent: Sent, n: nat, count: nat)
    requires ClosingCall(c, world, first, sent, n, count)
    ensures first <= sent.messages
  {
    TranscriptGrows(world, first, 0, n - 1);
    assert sent.messages == Transcript(world, first, n - 1) + (Exchange(world, n, count) + [NO_MORE_TOOLS]);
  }

  lemma FirstCall(c: Config, world: World, first: seq<Message>, log: seq<Sent>)
    requires GoodLog(c, world, first, log) && log != []
    ensures log[0] == Sent(first, true)
  {
    assert NormalCall(c, world, first, log[0], 0) || IsClosing(c, world, first, log[0], 0);
  }

  /** Every call of a request starts with its first messages, and the first call is they. */
  lemma EveryCallStarts(c: Config, world: World, first: seq<Message>, log: seq<Sent>, i: nat)
    requires GoodLog(c, world, first, log) && i < |log|
    ensures first <= log[i].messages && log[0] == Sent(first, true)
  {
    FirstCall(c, world, first, log);
    if log[i].withTools {
      NormalIsTranscript(c, world, first, log, i);
      TranscriptGrows(world, first, 0, i);
    } else {
      assert NormalCall(c, world, first, log[i], i) || IsClosing(c, world, first, log[i], i);
      var count: nat :| ClosingCall(c, world, first, log[i], i, count);
      ClosingStarts(c, world, first, log[i], i, count);
    }
  }

  /** What one tool's result says: the whole text, unless it is a success of more than 4000
      characters, which is cut there and marked. */
  predicate Says(content: string, outcome: ToolOutcome) {
    if outcome.Success? && |outcome.text| > 4000
    then |content| == 4015 && content[..4000] == outcome.text[..4000] && content[4000..] == "... (truncated)"
    else content == outcome.text
  }

  predicate Gives(m: Message, call: Call, outcome: ToolOutcome) {
    m.role.Tool? && m.callId == Some(call.id) && m.calls.None? && Says(m.content, outcome)
  }

  /** Messages that show, from a position on, what an answer said and asked for, and right after
      it, call by call, what its tools gave. */
  predicate Shows(messages: seq<Message>, at: nat, world: World, n: nat) {
    var calls := Calls(world, n);
    && at + |calls| < |messages|
    && messages[at] == Message(Assistant, Content(world, n), Some(calls), None)
    && forall j | 0 <= j < |calls| :: Gives(messages[at + 1 + j], calls[j], world.run(n, j))
  }

  lemma ResultSays(outcome: ToolOutcome)
    ensures Says(ResultText(outcome), outcome)
  {
    if outcome.Success? && |outcome.text| > 4000 {
      var cut := outcome.text[..4000];
      assert (cut + TRUNCATED)[..4000] == cut && (cut + TRUNCATED)[4000..] == TRUNCATED;
    }
  }

  lemma ExchangeShows(world: World, n: nat)
    ensures Shows(Exchange(world, n, |Calls(world, n)|), 0, world, n)
  {
    var calls, exchange := Calls(world, n), Exchange(world, n, |Calls(world, n)|);
    forall j | 0 <= j < |calls|
      ensures Gives(exchange[0 + 1 + j], calls[j], world.run(n, j))
    {
      ResultSays(world.run(n, j));
      assert exchange[0 + 1 + j] == Message(Tool, ResultText(world.run(n, j)), None, Some(calls[j].id));
    }
  }

  lemma ShowsWithin(a: seq<Message>, b: seq<Message>, c: seq<Message>, world: World, n: nat)
    requires Shows(b, 0, world, n)
    ensures Shows(a + b + c, |a|, world, n)
  {
    var all := a + b + c;
    assert all[|a|] == b[0];
    forall j | 0 <= j < |Calls(world, n)|
      ensures Gives(all[|a| + 1 + j], Calls(world, n)[j], world.run(n, j))
    {
      assert all[|a| + 1 + j] == b[0 + 1 + j];
    }
  }

  /** Every later normal call shows all earlier answers with their results, in this order. */
  lemma LaterCallShows(c: Config, world: World, first: seq<Message>, log: seq<Sent>, i: nat, n: nat)
    requires GoodLog(c, world, first, log) && i < |log| && log[i].withTools && 0 < n <= i
    ensures Shows(log[i].messages, |Transcript(world, first, n - 1)|, world, n)
  {
    NormalIsTranscript(c, world, first, log, i);
    TranscriptGrows(world, first, n, i);
    var before, exchange := Transcript(world, first, n - 1), Exchange(world, n, |Calls(world, n)|);
    ExchangeShows(world, n);
    ShowsWithin(before, exchange, log[i].messages[|before + exchange|..], world, n);
  }

  /** From the stored history on: when the minimum fits and the kept messages that carry tool
      calls are no more than the tokens of a user message counted twice, Checkpoint 1 lets the
      first call go out. */
  method ChatOnHistory(c: Config, world: World, system: string, user: string, history: seq<Message>)
    returns (ending: Ending, log: seq<Sent>, kept: seq<Message>)
    ensures KeptFrom(SafeHistory(history), kept)
    ensures KeptMost(c, HistoryBudget(c, system, user), SafeHistory(history), kept)
    ensures GoodLog(c, world, FirstRequest(system, user, kept), log)
    ensures log != [] ==> Opens(log[0].messages, system, user, kept) && log[0].withTools
    ensures forall i | 0 <= i < |log| :: log[0].messages <= log[i].messages
    ensures MinimumRequest(c, system, user) > c.contextMax ==> log == [] && ending.ContextExceeded?
    ensures MinimumRequest(c, system, user) <= c.contextMax ==>
              EndsBecause(c, world, FirstRequest(system, user, kept), log, ending)
    ensures MinimumRequest(c, system, user) <= c.contextMax && CallCarriers(kept) <= Twice(kept, user) ==> log != []
  {
    var first: seq<Message>;
    first, kept := Prepare(c, system, user, history);
    ending, log := Chat(c, world, MinimumRequest(c, system, user), first);
    forall i | 0 <= i < |log|
      ensures log[0].messages <= log[i].messages && log[0] == Sent(first, true)
    {
      EveryCallStarts(c, world, first, log, i);
    }
  }

  // ---------------------------------------------------------------------------------
  // What a complete transcript looks like
  // ---------------------------------------------------------------------------------

  predicate AnswersCall(m: Message, call: Call) {
    m.role.Tool? && m.callId == Some(call.id)
  }

  /** The messages after position i are the answers to these calls, in order, and no more. */
  predicate AnsweredAt(messages: seq<Message>, i: nat, calls: seq<Call>) {
    && i + |calls| < |messages|
    && (forall k | 0 <= k < |calls| :: AnswersCall(messages[i + 1 + k], calls[k]))
    && (i + |calls| + 1 < |messages| ==> !messages[i + |calls| + 1].role.Tool?)
  }

  /** Every assistant message with calls is followed by exactly one tool message per call, in
      the order of the calls. */
  predicate Paired(messages: seq<Message>) {
    forall i | 0 <= i < |messages| && messages[i].role.Assistant? && messages[i].calls.Some? ::
      AnsweredAt(messages, i, messages[i].calls.value)
  }

  /** What comes after paired messages does not disturb them unless it starts with an answer. */
  lemma StillAnswered(a: seq<Message>, b: seq<Message>, i: nat, calls: seq<Call>)
    requires AnsweredAt(a, i, calls) && (b != [] ==> !b[0].role.Tool?)
    ensures AnsweredAt(a + b, i, calls)
  {
    forall k | 0 <= k < |calls|
      ensures AnswersCall((a + b)[i + 1 + k], calls[k])
    {
      assert AnswersCall(a[i + 1 + k], calls[k]);
    }
  }

  lemma PairedConcat(a: seq<Message>, content: string, calls: seq<Call>, results: seq<string>)
    requires Paired(a) && |results| == |calls|
    ensures Paired(a + Block(content, calls, results))
  {
    var b := Block(content, calls, results);
    var all := a + b;
    forall i | 0 <= i < |all| && all[i].role.Assistant? && all[i].calls.Some?
      ensures AnsweredAt(all, i, all[i].calls.value)
    {
      if i < |a| {
        StillAnswered(a, b, i, a[i].calls.value);
      } else {
        assert i == |a|;
        forall k | 0 <= k < |calls|
          ensures AnswersCall(all[i + 1 + k], calls[k])
        {
          assert all[i + 1 + k] == ToolMessages(calls, results)[k];
        }
      }
    }
  }

  /** If the prepared messages are paired, so is what every normal call sends. */
  lemma {:induction false} TranscriptIsPaired(world: World, first: seq<Message>, n: nat)
    requires Paired(first)
    ensures Paired(Transcript(world, first, n))
  {
    if n > 0 {
      TranscriptIsPaired(world, first, n - 1);
      var calls := Calls(world, n);
      PairedConcat(Transcript(world, first, n - 1), Content(world, n), calls, Results(world, n, |calls|));
    }
  }

  lemma PairedWithNotice(messages: seq<Message>)
    requires Paired(messages)
    ensures Paired(messages + [NO_MORE_TOOLS])
  {
    var longer := messages + [NO_MORE_TOOLS];
    forall i | 0 <= i < |longer| && longer[i].role.Assistant? && longer[i].calls.Some?
      ensures AnsweredAt(longer, i, longer[i].calls.value)
    {
      StillAnswered(messages, [NO_MORE_TOOLS], i, messages[i].calls.value);
    }
  }

  /** The closing call's messages are paired exactly when every call was run before Checkpoint
      3 stopped the round. */
  lemma ClosingPairedIff(c: Config, world: World, first: seq<Message>, sent: Sent, n: nat, count: nat)
    requires Paired(first) && ClosingCall(c, world, first, sent, n, count)
    ensures Paired(sent.messages) <==> count == |Calls(world, n)|
  {
    var before, calls := Transcript(world, first, n - 1), Calls(world, n);
    var m, messages := |before|, sent.messages;
    assert messages[m] == AssistantMessage(Content(world, n), calls);
    assert messages[m + 1 + count] == NO_MORE_TOOLS && |messages| == m + 2 + count;
    if count == |calls| {
      TranscriptIsPaired(world, first, n);
      PairedWithNotice(Transcript(world, first, n));
    } else {
      assert !AnswersCall(messages[m + 1 + count], calls[count]);
      assert !AnsweredAt(messages, m, calls);
    }
  }

  // ---------------------------------------------------------------------------------
  // When a closing call can leave calls unanswered
  // ---------------------------------------------------------------------------------

  predicate ResultsWithin(world: World, n: nat, bound: nat) {
    forall j | 0 <= j < |Calls(world, n)| :: |ResultText(world.run(n, j))| <= bound
  }

  lemma OneTimesMore(n: nat, w: nat)
    ensures (n + 1) * w == n * w + w
  {
  }

  lemma {:induction false} BoundedResults(results: seq<string>, bound: nat, w: nat)
    requires w == Tokens(bound) && forall i | 0 <= i < |results| :: |results[i]| <= bound
    ensures ResultsTokens(results) <= |results| * w
  {
    if results != [] {
      var n := |results| - 1;
      BoundedResults(results[..n], bound, w);
      OneTimesMore(n, w);
    }
  }

  /** The request after some of the results, against Checkpoint 2's estimate. */
  lemma PartialRequest(c: Config, world: World, n: nat, before: seq<Message>, count: nat)
    requires count <= |Calls(world, n)|
    ensures RequestTokens(c, before + Exchange(world, n, count), c.toolsTokens)
         == PreToolRequest(c, before, Calls(world, n)) + Tokens(|Content(world, n)|)
            + ResultsTokens(Results(world, n, count)) - 1200 * |Calls(world, n)|
  {
    NextRequestExact(c, before, Content(world, n), Calls(world, n), Results(world, n, count));
    assert Tokens(TOOL_RESULT_MAX_CHARS) == 1200;
  }

  /** The reservations cover the assistant's text and all results but the last. */
  predicate Covered(content: string, calls: seq<Call>, bound: nat) {
    |calls| == 1 || Tokens(|content|) + (|calls| - 1) * Tokens(bound) <= 1200 * |calls|
  }

  /** Where they do, the context has room before the last call. */
  lemma CoveredHasRoom(c: Config, world: World, n: nat, before: seq<Message>, count: nat, bound: nat)
    requires AnswerFits(c, world, n, before) && 0 < count < |Calls(world, n)|
    requires ResultsWithin(world, n, bound) && Covered(Content(world, n), Calls(world, n), bound)
    ensures !Full(c, before + Exchange(world, n, count))
  {
    PartialRequest(c, world, n, before, count);
    BoundedResults(Results(world, n, count), bound, Tokens(bound));
    AtMost(count, |Calls(world, n)| - 1, Tokens(bound));
  }

  /** So Checkpoint 3 never stops a round before its last call. */
  lemma CoveredRunsAll(c: Config, world: World, n: nat, before: seq<Message>, count: nat, bound: nat)
    requires AnswerFits(c, world, n, before) && FilledAt(c, world, n, before, count)
    requires ResultsWithin(world, n, bound) && Covered(Content(world, n), Calls(world, n), bound)
    ensures count == |Calls(world, n)|
  {
    if count < |Calls(world, n)| {
      CoveredHasRoom(c, world, n, before, count, bound);
    }
  }

  lemma AtMost(a: nat, b: nat, w: nat)
    requires a <= b
    ensures a * w <= b * w
  {
  }

  /** A provider that asks for these calls at once, and tools that fail with so long a text. */
  function Verbose(content: string, calls: seq<Call>, bound: nat): World {
    World(i => if i == 1 then ToolCalls(content, calls) else Final("ok"),
          (_, _) => Failed(seq(bound, _ => 'x')), _ => false, (_, _) => false, _ => true)
  }

  lemma {:induction false} EqualResults(results: seq<string>, bound: nat, w: nat)
    requires w == Tokens(bound) && forall i | 0 <= i < |results| :: |results[i]| == bound
    ensures ResultsTokens(results) == |results| * w
  {
    if results != [] {
      var n := |results| - 1;
      EqualResults(results[..n], bound, w);
      OneTimesMore(n, w);
    }
  }

  /** A context that Checkpoint 2 uses up to the last token, with ample tool definitions. */
  function Tight(first: seq<Message>, content: string, calls: seq<Call>, jsonLength: seq<Call> -> nat, bound: nat): Config {
    var c := Config(0, 0, Tokens(|content|) + |calls| * Tokens(bound) + Tokens(|NO_MORE_TOOLS.content|), jsonLength);
    c.(contextMax := PreToolRequest(c, first, calls))
  }

  lemma TightFits(first: seq<Message>, content: string, calls: seq<Call>, jsonLength: seq<Call> -> nat, bound: nat)
    requires calls != []
    ensures var c := Tight(first, content, calls, jsonLength, bound);
      && AnswerFits(c, Verbose(content, calls, bound), 1, first) && !Full(c, first)
  {
    var c := Tight(first, content, calls, jsonLength, bound);
    SameMessages(c, c.(contextMax := 0), first);
  }

  lemma {:induction false} SameMessages(a: Config, b: Config, messages: seq<Message>)
    requires a.jsonLength == b.jsonLength
    ensures MessagesTokens(a, messages) == MessagesTokens(b, messages)
  {
    if messages != [] {
      SameMessages(a, b, messages[..|messages| - 1]);
    }
  }

  /** In it, the request after some results is over exactly when these results and the text
      outweigh all reservations; and without tools it always fits. */
  lemma TightFull(first: seq<Message>, content: string, calls: seq<Call>, jsonLength: seq<Call> -> nat, bound: nat, j: nat)
    requires 0 < j <= |calls|
    ensures var c, world := Tight(first, content, calls, jsonLength, bound), Verbose(content, calls, bound);
      && (Full(c, first + Exchange(world, 1, j)) <==> Tokens(|content|) + j * Tokens(bound) > 1200 * |calls|)
      && RequestTokens(c, first + Exchange(world, 1, j) + [NO_MORE_TOOLS], 0) <= c.contextMax
  {
    var c, world := Tight(first, content, calls, jsonLength, bound), Verbose(content, calls, bound);
    SameMessages(c, c.(contextMax := 0), first);
    PartialRequest(c, world, 1, first, j);
    forall i | 0 <= i < j
      ensures |Results(world, 1, j)[i]| == bound
    {
      assert world.run(1, i) == Failed(seq(bound, _ => 'x'));
    }
    EqualResults(Results(world, 1, j), bound, Tokens(bound));
    AtMost(j, |calls|, Tokens(bound));
    var sent := first + Exchange(world, 1, j);
    assert (sent + [NO_MORE_TOOLS])[..|sent|] == sent;
  }

  /** If the context is full after some result, Checkpoint 3 stops the round there or earlier. */
  lemma {:induction false} FirstStop(c: Config, world: World, n: nat, before: seq<Message>, last: nat) returns (count: nat)
    requires 0 < last <= |Calls(world, n)| && Full(c, before + Exchange(world, n, last))
    requires forall j | 0 <= j < last :: Checked(world, n, j)
    ensures 0 < count <= last && FilledAt(c, world, n, before, count)
  {
    if j: nat :| 0 < j < last && Full(c, before + Exchange(world, n, j)) {
      count := FirstStop(c, world, n, before, j);
    } else {
      count := last;
    }
  }

  /** Where they do not, some world is stopped before its last call, after passing both
      earlier checkpoints. */
  lemma UncoveredStopsEarly(first: seq<Message>, content: string, calls: seq<Call>, jsonLength: seq<Call> -> nat,
                            bound: nat)
    returns (count: nat)
    requires calls != [] && !Covered(content, calls, bound)
    ensures var c, world := Tight(first, content, calls, jsonLength, bound), Verbose(content, calls, bound);
      && 0 < count < |calls| && !Full(c, first) && ResultsWithin(world, 1, bound)
      && ClosingCall(c, world, first, Closing(world, first, 1, count), 1, count)
  {
    var c, world := Tight(first, content, calls, jsonLength, bound), Verbose(content, calls, bound);
    TightFits(first, content, calls, jsonLength, bound);
    TightFull(first, content, calls, jsonLength, bound, |calls| - 1);
    count := FirstStop(c, world, 1, first, |calls| - 1);
    TightFull(first, content, calls, jsonLength, bound, count);
    ClosesAt(c, world, first, count);
  }

  lemma ClosesAt(c: Config, world: World, first: seq<Message>, count: nat)
    requires AnswerFits(c, world, 1, first) && FilledAt(c, world, 1, first, count)
    requires RequestTokens(c, first + Exchange(world, 1, count) + [NO_MORE_TOOLS], 0) <= c.contextMax
    ensures ClosingCall(c, world, first, Closing(world, first, 1, count), 1, count)
  {
    assert Transcript(world, first, 0) == first;
  }

  /** Exactly when every closing call is paired, for results of bounded length and whatever
      else happens: when the reservations cover the text and all results but the last. */
  lemma ClosingAlwaysPairedIff(first: seq<Message>, content: string, calls: seq<Call>, jsonLength: seq<Call> -> nat,
                               bound: nat)
    requires Paired(first) && calls != []
    ensures Covered(content, calls, bound) <==>
      (forall c: Config, world: World, sent: Sent, n: nat, count: nat |
         && ClosingCall(c, world, first, sent, n, count) && c.jsonLength == jsonLength && !Full(c, first)
         && Content(world, n) == content && Calls(world, n) == calls && ResultsWithin(world, n, bound) ::
         Paired(sent.messages))
  {
    if Covered(content, calls, bound) {
      forall c: Config, world: World, sent: Sent, n: nat, count: nat |
        && ClosingCall(c, world, first, sent, n, count) && c.jsonLength == jsonLength && !Full(c, first)
        && Content(world, n) == content && Calls(world, n) == calls && ResultsWithin(world, n, bound)
        ensures Paired(sent.messages)
      {
        CoveredRunsAll(c, world, n, Transcript(world, first, n - 1), count, bound);
        ClosingPairedIff(c, world, first, sent, n, count);
      }
    } else {
      var c, world := Tight(first, content, calls, jsonLength, bound), Verbose(content, calls, bound);
      var count := UncoveredStopsEarly(first, content, calls, jsonLength, bound);
      ClosingPairedIff(c, world, first, Closing(world, first, 1, count), 1, count);
    }
  }

  /** For results of successful tools, truncated to 4015 characters at most, the condition is
      that the text and five tokens for each call but the last fit into one reservation. */
  lemma CoveredBySuccess(content: string, calls: seq<Call>)
    requires |calls| > 1
    ensures Covered(content, calls, TOOL_RESULT_MAX_CHARS + |TRUNCATED|)
       <==> Tokens(|content|) + 5 * (|calls| - 1) <= 1200
  {
    assert Tokens(TOOL_RESULT_MAX_CHARS + |TRUNCATED|) == 1205;
  }

  /** And the request does send that call: no other log accounts for its end. */
  lemma UnansweredIsSent(first: seq<Message>, content: string, calls: seq<Call>, jsonLength: seq<Call> -> nat, bound: nat,
                         log: seq<Sent>, ending: Ending)
    returns (count: nat)
    requires calls != [] && !Covered(content, calls, bound)
    requires var c, world := Tight(first, content, calls, jsonLength, bound), Verbose(content, calls, bound);
      log != [] && GoodLog(c, world, first, log) && EndsBecause(c, world, first, log, ending)
    ensures 0 < count < |calls| && |log| == 2
    ensures log[1] == Closing(Verbose(content, calls, bound), first, 1, count)
  {
    var c, world := Tight(first, content, calls, jsonLength, bound), Verbose(content, calls, bound);
    count := UncoveredStopsEarly(first, content, calls, jsonLength, bound);
    RoundEndsOnce(c, world, first, count);
    assert NormalCall(c, world, first, log[0], 0) || IsClosing(c, world, first, log[0], 0);
    if |log| >= 2 {
      assert NormalCall(c, world, first, log[1], 1) || IsClosing(c, world, first, log[1], 1);
    }
  }

  /** A round stopped after some results was not done, nor stopped after others. */
  lemma RoundEndsOnce(c: Config, world: World, first: seq<Message>, count: nat)
    requires RoundFilled(c, world, first, 1, count)
    ensures !RoundDone(c, world, first, 1)
    ensures forall other: nat :: RoundFilled(c, world, first, 1, other) ==> other == count
  {
  }

  // ---------------------------------------------------------------------------------
  // The same for one given deployment and request
  // ---------------------------------------------------------------------------------

  /** The tokens of the closing notice, and of the context that Checkpoint 2 leaves. */
  function Notice(): nat {
    Tokens(|NO_MORE_TOOLS.content|)
  }

  function Slack(c: Config, first: seq<Message>, calls: seq<Call>): int {
    c.contextMax - PreToolRequest(c, first, calls)
  }

  /** What the text and so many tokens of results take beyond all reservations. */
  function Excess(content: string, calls: seq<Call>, results: nat): int {
    Tokens(|content|) + results - 1200 * |calls|
  }

  /** In this deployment the first answer's calls can end up unanswered: some results before
      the last can fill the context, and with the tools' definitions away there is room for the
      notice. */
  predicate CanBePinched(c: Config, first: seq<Message>, content: string, calls: seq<Call>, bound: nat) {
    var slack := Slack(c, first, calls);
    && |calls| > 1 && slack >= 0
    && slack < Excess(content, calls, (|calls| - 1) * Tokens(bound))
    && Notice() < c.toolsTokens
    && Excess(content, calls, 0) <= slack + c.toolsTokens - Notice()
  }

  ghost predicate Unanswered(c: Config, world: World, first: seq<Message>, content: string, calls: seq<Call>, bound: nat,
                             count: nat)
  {
    && Content(world, 1) == content && Calls(world, 1) == calls && ResultsWithin(world, 1, bound)
    && 0 < count < |calls| && ClosingCall(c, world, first, Closing(world, first, 1, count), 1, count)
  }

  lemma NoticeRequest(c: Config, messages: seq<Message>)
    ensures RequestTokens(c, messages + [NO_MORE_TOOLS], 0)
         == RequestTokens(c, messages, c.toolsTokens) - c.toolsTokens + Notice()
  {
    assert (messages + [NO_MORE_TOOLS])[..|messages|] == messages;
  }

  lemma UnansweredIsPinched(c: Config, world: World, first: seq<Message>, content: string, calls: seq<Call>, bound: nat,
                            count: nat)
    requires Unanswered(c, world, first, content, calls, bound, count)
    ensures CanBePinched(c, first, content, calls, bound)
  {
    assert Transcript(world, first, 0) == first;
    PartialRequest(c, world, 1, first, count);
    NoticeRequest(c, first + Exchange(world, 1, count));
    BoundedResults(Results(world, 1, count), bound, Tokens(bound));
    AtMost(count, |calls| - 1, Tokens(bound));
  }

  function TextFor(tokens: nat): string {
    if tokens == 0 then "" else TextOf(tokens)
  }

  /** No text of so many tokens is shorter. */
  lemma ShortestText(tokens: nat, bound: nat)
    requires tokens <= Tokens(bound)
    ensures |TextFor(tokens)| <= bound && Tokens(|TextFor(tokens)|) == tokens
  {
    if tokens > 0 {
      var q, d := (tokens - 1) / 3, (tokens - 1) % 3;
      assert tokens == 3 * q + d + 1;
      assert 10 * tokens <= 3 * bound + 9;
    }
  }

  function Share(total: nat, w: nat): nat {
    if total < w then total else w
  }

  /** Texts that take a total together, none more than w. */
  function Texts(total: nat, w: nat, n: nat): (texts: seq<string>)
    ensures |texts| == n
  {
    if n == 0 then [] else Texts(total - Share(total, w), w, n - 1) + [TextFor(Share(total, w))]
  }

  lemma RestFits(total: nat, w: nat, n: nat)
    requires n > 0 && total <= n * w
    ensures total - Share(total, w) <= (n - 1) * w
  {
    OneTimesMore(n - 1, w);
    AtMost(0, n - 1, w);
  }

  lemma {:induction false} TextsTake(total: nat, bound: nat, w: nat, n: nat)
    requires w == Tokens(bound) && total <= n * w
    ensures ResultsTokens(Texts(total, w, n)) == total
    ensures forall text | text in Texts(total, w, n) :: |text| <= bound
  {
    if n > 0 {
      RestFits(total, w, n);
      ShortestText(Share(total, w), bound);
      TextsTake(total - Share(total, w), bound, w, n - 1);
      var before := Texts(total - Share(total, w), w, n - 1);
      assert (before + [TextFor(Share(total, w))])[..n - 1] == before;
    }
  }

  /** A provider that asks for these calls at once; all tools but the last of those given are
      unknown, so Checkpoint 3 runs after that one only. */
  function Pinching(content: string, calls: seq<Call>, texts: seq<string>): World {
    World(i => if i == 1 then ToolCalls(content, calls) else Final("ok"),
          (_: nat, j: nat) => if j + 1 < |texts| then Unknown(texts[j]) else Failed(if j < |texts| then texts[j] else ""),
          _ => false, (_, _) => false, _ => true)
  }

  lemma PinchingResults(content: string, calls: seq<Call>, texts: seq<string>, bound: nat)
    requires |texts| + 1 == |calls| && |texts| > 0 && forall i | 0 <= i < |texts| :: |texts[i]| <= bound
    ensures var world := Pinching(content, calls, texts);
      && Content(world, 1) == content && Calls(world, 1) == calls && ResultsWithin(world, 1, bound)
      && Results(world, 1, |texts|) == texts
      && Checked(world, 1, |texts| - 1) && forall j | 0 <= j < |texts| - 1 :: !Checked(world, 1, j)
  {
    var world := Pinching(content, calls, texts);
    assert forall j | 0 <= j < |texts| :: ResultText(world.run(1, j)) == texts[j];
  }

  /** Results of these total tokens fill the context at the last of them, and not the notice. */
  lemma PinchingFills(c: Config, first: seq<Message>, content: string, calls: seq<Call>, texts: seq<string>, bound: nat)
    requires |texts| + 1 == |calls| && |texts| > 0 && forall i | 0 <= i < |texts| :: |texts[i]| <= bound
    requires Slack(c, first, calls) >= 0
    requires Slack(c, first, calls) < Excess(content, calls, ResultsTokens(texts))
    requires Excess(content, calls, ResultsTokens(texts)) <= Slack(c, first, calls) + c.toolsTokens - Notice()
    ensures Unanswered(c, Pinching(content, calls, texts), first, content, calls, bound, |texts|)
  {
    var world, n := Pinching(content, calls, texts), |texts|;
    PinchingResults(content, calls, texts, bound);
    PartialRequest(c, world, 1, first, n);
    NoticeRequest(c, first + Exchange(world, 1, n));
    assert FilledAt(c, world, 1, first, n);
    ClosesAt(c, world, first, n);
  }

  lemma PinchedIsUnanswered(c: Config, first: seq<Message>, content: string, calls: seq<Call>, bound: nat)
    returns (world: World)
    requires CanBePinched(c, first, content, calls, bound)
    ensures Unanswered(c, world, first, content, calls, bound, |calls| - 1)
  {
    var n, slack, least := |calls| - 1, Slack(c, first, calls), Excess(content, calls, 0);
    var total := (if slack + 1 < least then least else slack + 1) - least;
    var texts := Texts(total, Tokens(bound), n);
    TextsTake(total, bound, Tokens(bound), n);
    world := Pinching(content, calls, texts);
    PinchingFills(c, first, content, calls, texts, bound);
  }

  /** Exactly when, in a given deployment and for given messages, text and calls, some run of
      the tools with results of bounded length leaves calls of the first answer unanswered. */
  lemma UnansweredIff(c: Config, first: seq<Message>, content: string, calls: seq<Call>, bound: nat)
    ensures (exists world, count :: Unanswered(c, world, first, content, calls, bound, count))
       <==> CanBePinched(c, first, content, calls, bound)
  {
    if world, count :| Unanswered(c, world, first, content, calls, bound, count) {
      UnansweredIsPinched(c, world, first, content, calls, bound, count);
    }
    if CanBePinched(c, first, content, calls, bound) {
      var world := PinchedIsUnanswered(c, first, content, calls, bound);
    }
  }
}
